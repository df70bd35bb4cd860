/** First-fit search over an interval of numbers. */
module FirstFit {
  import opened Common

  function FirstFree(used: set<nat>, lo: nat, hi: nat): Option<nat>
    decreases hi - lo
  {
    if lo >= hi then None else if lo !in used then Some(lo) else FirstFree(used, lo + 1, hi)
  }

  /** The least free value, and nothing only when none is free. */
  lemma {:induction false} FirstFreeIsLeast(used: set<nat>, lo: nat, hi: nat)
    ensures FirstFree(used, lo, hi).None? <==> forall x :: lo <= x < hi ==> x in used
    ensures forall v :: FirstFree(used, lo, hi) == Some(v) <==>
      (lo <= v < hi && v !in used && forall x :: lo <= x < v ==> x in used)
    decreases hi - lo
  {
    if lo < hi && lo in used { FirstFreeIsLeast(used, lo + 1, hi); }
  }
}
