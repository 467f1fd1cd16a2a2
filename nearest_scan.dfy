/** The minimum search both map views run over their vending machines:
    a single pass that keeps the first entry whose distance is strictly
    below the best seen so far, starting from an infinite best. An entry
    without a distance (a machine with a NaN coordinate, or a NaN
    distance, which no `<` comparison accepts) is passed over. */
module NearestScan {
  import opened Common

  /** `i` is the first entry of `ds` with the smallest distance. */
  ghost predicate IsFirstMinimum(ds: seq<Option<real>>, i: nat)
  {
    && i < |ds|
    && ds[i].Some?
    && (forall j :: 0 <= j < |ds| && ds[j].Some? ==> ds[i].value <= ds[j].value)
    && (forall j :: 0 <= j < i && ds[j].Some? ==> ds[i].value < ds[j].value)
  }

  /** The scan. `best` is the index kept, `minDist` its distance; None
      for both when no entry has a distance (`minDist` then stays the
      initial Infinity). */
  method FirstMinimum(ds: seq<Option<real>>) returns (best: Option<nat>, minDist: Option<real>)
    ensures best.None? <==> forall j :: 0 <= j < |ds| ==> ds[j].None?
    ensures best.None? ==> minDist.None?
    ensures best.Some? ==> IsFirstMinimum(ds, best.value) && minDist == ds[best.value]
  {
    best, minDist := None, None;
    var i := 0;
    while i < |ds|
      invariant 0 <= i <= |ds|
      invariant best.None? <==> forall j :: 0 <= j < i ==> ds[j].None?
      invariant best.None? ==> minDist.None?
      invariant best.Some? ==> best.value < i && ds[best.value].Some? && minDist == ds[best.value]
      invariant best.Some? ==>
        forall j :: 0 <= j < i && ds[j].Some? ==> minDist.value <= ds[j].value
      invariant best.Some? ==>
        forall j :: 0 <= j < best.value && ds[j].Some? ==> minDist.value < ds[j].value
    {
      if ds[i].Some? && (minDist.None? || ds[i].value < minDist.value) {
        best, minDist := Some(i), ds[i];
      }
      i := i + 1;
    }
  }

  /** The first minimum is unique: the scan's result is determined by
      its contract. */
  lemma FirstMinimumUnique(ds: seq<Option<real>>, i: nat, k: nat)
    requires IsFirstMinimum(ds, i) && IsFirstMinimum(ds, k)
    ensures i == k
  {
  }
}
