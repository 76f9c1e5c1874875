/** The member search of getAppUsers: an app-role entry is listed when the search
    term occurs, ignoring letter case, in the user's first name, last name or
    email. Case is folded for the ASCII letters only. */
module Search {
  import opened Roles
  import opened Entities

  function Lower(c: char): char
  {
    if 'A' <= c <= 'Z' then (c as int + 32) as char else c
  }

  function Upper(c: char): char
  {
    if 'a' <= c <= 'z' then (c as int - 32) as char else c
  }

  function LowerAll(s: string): string
  {
    seq(|s|, i requires 0 <= i < |s| => Lower(s[i]))
  }

  function UpperAll(s: string): string
  {
    seq(|s|, i requires 0 <= i < |s| => Upper(s[i]))
  }

  /** `t` occurs in `s` as a contiguous substring (the empty string occurs everywhere). */
  predicate Contains(s: string, t: string)
    decreases |s|
  {
    if |s| < |t| then false
    else if s[..|t|] == t then true
    else Contains(s[1..], t)
  }

  /** The position-based reading of Contains. */
  ghost predicate OccursAt(s: string, t: string, i: int)
  {
    0 <= i && i + |t| <= |s| && s[i..i + |t|] == t
  }

  /** Folding a string that holds no upper-case letter leaves it as it is. */
  lemma LowerAllOfLowerCase(s: string)
    requires forall i :: 0 <= i < |s| ==> !('A' <= s[i] <= 'Z')
    ensures LowerAll(s) == s
  {
  }

  /** Contains agrees with "there is a position where t occurs". */
  lemma {:induction false} ContainsIff(s: string, t: string)
    ensures Contains(s, t) <==> exists i :: OccursAt(s, t, i)
    decreases |s|
  {
    if |s| < |t| {
      assert forall i :: !OccursAt(s, t, i);
    } else if s[..|t|] == t {
      assert OccursAt(s, t, 0);
    } else {
      ContainsIff(s[1..], t);
      if Contains(s[1..], t) {
        var i :| OccursAt(s[1..], t, i);
        assert s[1..][i..i + |t|] == s[i + 1..i + 1 + |t|];
        assert OccursAt(s, t, i + 1);
      }
      forall i | OccursAt(s, t, i) && i > 0 ensures OccursAt(s[1..], t, i - 1) {
        assert s[1..][i - 1..i - 1 + |t|] == s[i..i + |t|];
      }
    }
  }

  /** The search predicate on one user. */
  predicate Matches(u: User, term: string)
  {
    var t := LowerAll(term);
    Contains(LowerAll(u.firstName), t) || Contains(LowerAll(u.lastName), t) || Contains(LowerAll(u.email), t)
  }

  /** The listing entry for user `u` of `app`. */
  function Entry(users: map<UserId, User>, app: App, u: UserId): UserAppRole
    requires u in users && u in app.roles
  {
    UserAppRole(users[u], app.id, app.roles[u])
  }

  /** The app-role entries of `app` whose user matches the search term. */
  function MemberEntries(users: map<UserId, User>, app: App, term: string): set<UserAppRole>
    requires app.roles.Keys <= users.Keys
  {
    set u | u in app.roles && Matches(users[u], term) :: Entry(users, app, u)
  }

  /** Every entry listed belongs to the app, carries the role the app gives that
      user and a user who matches the term. */
  lemma ListedEntriesAreMembers(users: map<UserId, User>, app: App, term: string, x: UserAppRole)
    requires app.roles.Keys <= users.Keys
    requires forall u :: u in users ==> users[u].id == u
    requires x in MemberEntries(users, app, term)
    ensures x.appId == app.id && x.user.id in app.roles && x.role == app.roles[x.user.id]
    ensures x.user == users[x.user.id] && Matches(x.user, term)
  {
  }

  lemma LowerOfUpper(s: string)
    ensures LowerAll(UpperAll(s)) == LowerAll(s)
  {
    var a, b := LowerAll(UpperAll(s)), LowerAll(s);
    forall i | 0 <= i < |s| ensures a[i] == b[i] {
      var c := s[i];
      assert a[i] == Lower(Upper(c));
    }
  }

  /** Searching is insensitive to the case of the term: the upper-case and the
      lower-case spelling of a term list the same members. */
  lemma {:induction false} SearchIgnoresTermCase(users: map<UserId, User>, app: App, term: string)
    requires app.roles.Keys <= users.Keys
    ensures MemberEntries(users, app, UpperAll(term)) == MemberEntries(users, app, term)
    ensures MemberEntries(users, app, LowerAll(term)) == MemberEntries(users, app, term)
  {
    LowerOfUpper(term);
    var l := LowerAll(term);
    assert LowerAll(l) == l by {
      forall i | 0 <= i < |l| ensures LowerAll(l)[i] == l[i] { }
    }
  }

  /** The image of a set of members under Entry has as many elements as the set,
      since different users give different entries. */
  lemma {:induction false} EntriesCount(users: map<UserId, User>, app: App, ks: set<UserId>)
    requires ks <= app.roles.Keys <= users.Keys
    requires forall u :: u in users ==> users[u].id == u
    ensures |set u | u in ks :: Entry(users, app, u)| == |ks|
    decreases ks
  {
    if ks != {} {
      var k :| k in ks;
      var rest := ks - {k};
      EntriesCount(users, app, rest);
      var img := set u | u in ks :: Entry(users, app, u);
      var imgRest := set u | u in rest :: Entry(users, app, u);
      assert img == imgRest + {Entry(users, app, k)};
      assert Entry(users, app, k) !in imgRest;
    }
  }

  /** An empty search term lists every app-role entry, one per user. */
  lemma {:induction false} EmptyTermListsEveryone(users: map<UserId, User>, app: App)
    requires app.roles.Keys <= users.Keys
    requires forall u :: u in users ==> users[u].id == u
    ensures forall u :: u in app.roles ==> Entry(users, app, u) in MemberEntries(users, app, "")
    ensures |MemberEntries(users, app, "")| == |app.roles|
  {
    forall u | u in users ensures Matches(users[u], "") {
      assert Contains(LowerAll(users[u].firstName), "") by {
        var s := LowerAll(users[u].firstName);
        assert s[..0] == "";
      }
    }
    assert MemberEntries(users, app, "") == set u | u in app.roles.Keys :: Entry(users, app, u);
    EntriesCount(users, app, app.roles.Keys);
  }
}
