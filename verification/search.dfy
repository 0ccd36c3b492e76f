/** The forward search the strategy runs twice per round trip: the first bar
    at or after a start index that satisfies a rule (the `for … break` loops
    of the scan). */
module Search {
  import opened Wrappers
  import opened Series
  import opened Signals

  /** No bar in `[lo, hi)` satisfies `sig`. */
  ghost predicate NoneIn(s: seq<Bar>, lo: int, hi: int, sig: Signal) {
    forall j :: lo <= j < hi && 0 <= j < |s| ==> !Holds(sig, s[j])
  }

  /** `a` is the least index at or after `lo` whose bar satisfies `sig`. */
  ghost predicate IsFirstFrom(s: seq<Bar>, lo: int, a: int, sig: Signal) {
    && 0 <= lo <= a < |s|
    && Holds(sig, s[a])
    && NoneIn(s, lo, a, sig)
  }

  /** The first index in `[lo, |s|)` satisfying `sig`, if any. */
  function FirstMatch(s: seq<Bar>, lo: nat, sig: Signal): (r: Option<nat>)
    requires lo <= |s|
    ensures r.Some? ==> IsFirstFrom(s, lo, r.value, sig)
    ensures r.None? ==> NoneIn(s, lo, |s|, sig)
    decreases |s| - lo
  {
    if lo == |s| then None
    else if Holds(sig, s[lo]) then Some(lo)
    else FirstMatch(s, lo + 1, sig)
  }

  /** The first match is unique: any index that is first from `lo` is the
      one FirstMatch returns, and if none is, it returns nothing. */
  lemma FirstMatchUnique(s: seq<Bar>, lo: nat, a: int, sig: Signal)
    requires lo <= |s|
    ensures IsFirstFrom(s, lo, a, sig) <==> FirstMatch(s, lo, sig) == Some(a)
  {
  }

  /** The search as the scan writes it, a loop that stops at the first hit. */
  method FindFirst(s: seq<Bar>, lo: nat, sig: Signal) returns (r: Option<nat>)
    requires lo <= |s|
    ensures r == FirstMatch(s, lo, sig)
  {
    var k := lo;
    while k < |s|
      invariant lo <= k <= |s|
      invariant FirstMatch(s, k, sig) == FirstMatch(s, lo, sig)
    {
      if Holds(sig, s[k]) {
        return Some(k);
      }
      k := k + 1;
    }
    return None;
  }
}
