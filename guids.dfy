/** App guids double as API keys and are generated at random. The model replaces
    the random generator by the one thing the service relies on: a new guid is a
    non-empty string that was never issued before. */
module Guids {

  /** A length no string of the set exceeds. */
  ghost function LongestLength(used: set<string>): (n: nat)
    ensures forall g :: g in used ==> |g| <= n
    decreases used
  {
    if used == {} then 0
    else
      var g :| g in used;
      var rest := LongestLength(used - {g});
      if |g| > rest then |g| else rest
  }

  /** Whatever finite set of guids has been issued, a fresh non-empty one exists:
      a string longer than all of them. */
  lemma FreshGuidExists(used: set<string>)
    ensures exists g :: g !in used && g != ""
  {
    var g := seq(LongestLength(used) + 1, _ => 'g');
    assert g !in used;
  }
}
