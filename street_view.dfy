/** Heading arithmetic of the Street View navigation: the wrap-around
    angular difference, the target heading of a relative turn, the
    ordering of a panorama's links by closeness to the view heading, and
    the choice of the link to move along. Headings are integer degrees. */
module StreetView {
  import opened Common

  /** A link from the current panorama to a neighbouring one. */
  datatype PanoLink = PanoLink(heading: int, pano: string)

  /** A heading in the range the panorama service reports: [0, 360). */
  predicate IsHeading(h: int)
  {
    0 <= h < 360
  }

  /** JavaScript's `a % 360`: the remainder of truncating division, which
      takes the sign of the dividend (Dafny's `%` never goes negative). */
  function JsRem360(a: int): (r: int)
    ensures a >= 0 ==> 0 <= r < 360 && r == a % 360
    ensures a < 0 ==> -360 < r <= 0 && r == -((-a) % 360)
  {
    if a >= 0 then a % 360 else -((-a) % 360)
  }

  /** `Math.abs(((h - t + 540) % 360) - 180)`: how far heading `h` is from
      heading `t`. */
  function AngularDiff(h: int, t: int): (d: int)
    ensures 0 <= d
    ensures IsHeading(h) && IsHeading(t) ==> d <= 180
  {
    Abs(JsRem360(h - t + 540) - 180)
  }

  /** Reference definition: the shorter way round the circle from `t`
      to `h`. */
  function CircularDistance(h: int, t: int): (d: int)
    ensures IsHeading(h) && IsHeading(t) ==> 0 <= d <= 180
    ensures IsHeading(h) && IsHeading(t) ==> (d == 0 <==> h == t)
  {
    var d := Abs(h - t);
    if d <= 180 then d else 360 - d
  }

  /** On headings in [0, 360) the formula is the shortest turn between
      the two headings. */
  lemma AngularDiffIsCircularDistance(h: int, t: int)
    requires IsHeading(h) && IsHeading(t)
    ensures AngularDiff(h, t) == CircularDistance(h, t)
  {
    var x := h - t + 540;
    assert 180 < x < 900;
    if x < 360 {
      assert JsRem360(x) == x;
    } else if x < 720 {
      assert JsRem360(x) == x - 360;
    } else {
      assert JsRem360(x) == x - 720;
    }
  }

  /** The difference lies in [0, 180], is zero exactly for equal headings,
      and does not depend on which heading comes first. */
  lemma AngularDiffProperties(h: int, t: int)
    requires IsHeading(h) && IsHeading(t)
    ensures 0 <= AngularDiff(h, t) <= 180
    ensures AngularDiff(h, t) == 0 <==> h == t
    ensures AngularDiff(h, t) == AngularDiff(t, h)
  {
    AngularDiffIsCircularDistance(h, t);
    AngularDiffIsCircularDistance(t, h);
  }

  /** The difference wraps round north: 350 and 10 degrees are 20 apart. */
  lemma AngularDiffWraps()
    ensures AngularDiff(350, 10) == 20
    ensures AngularDiff(10, 350) == 20
  {
  }

  /** The heading a relative turn aims at: the current heading for
      'forward', a quarter turn anticlockwise for 'left', clockwise for
      'right'; None (no move) for any other direction. */
  function TargetHeading(direction: string, heading: int): (r: Option<int>)
    ensures r.Some? <==> direction == "forward" || direction == "left" || direction == "right"
    ensures direction == "forward" ==> r == Some(heading)
  {
    if direction == "forward" then Some(heading)
    else if direction == "left" then Some(JsRem360(heading - 90 + 360))
    else if direction == "right" then Some(JsRem360(heading + 90))
    else None
  }

  /** From a heading in [0, 360) every target is again in [0, 360), a
      quarter turn away unless going forward, and 'left' and 'right'
      undo each other. */
  lemma TargetHeadingProperties(heading: int)
    requires IsHeading(heading)
    ensures IsHeading(TargetHeading("left", heading).value)
    ensures IsHeading(TargetHeading("right", heading).value)
    ensures AngularDiff(TargetHeading("left", heading).value, heading) == 90
    ensures AngularDiff(TargetHeading("right", heading).value, heading) == 90
    ensures (TargetHeading("left", heading).value + 90) % 360 == heading
    ensures TargetHeading("right", heading).value == (heading + 90) % 360
    ensures TargetHeading("right", TargetHeading("left", heading).value) == Some(heading)
    ensures TargetHeading("left", TargetHeading("right", heading).value) == Some(heading)
  {
    var l := TargetHeading("left", heading).value;
    var r := TargetHeading("right", heading).value;
    AngularDiffIsCircularDistance(l, heading);
    AngularDiffIsCircularDistance(r, heading);
  }

  /** Turning left from 10 degrees aims at 280; turning right, at 100. */
  lemma TargetHeadingExamples()
    ensures TargetHeading("left", 10) == Some(280)
    ensures TargetHeading("right", 10) == Some(100)
  {
  }

  /** How far a link points from `heading`. */
  function LinkDiff(link: PanoLink, heading: int): (d: int)
    ensures IsHeading(link.heading) && IsHeading(heading) ==> 0 <= d <= 180
  {
    AngularDiff(link.heading, heading)
  }

  /** Links in ascending order of their difference from `heading`. */
  ghost predicate SortedByDiff(s: seq<PanoLink>, heading: int)
  {
    forall i, j :: 0 <= i < j < |s| ==> LinkDiff(s[i], heading) <= LinkDiff(s[j], heading)
  }

  /** The first `n` links of `s` are in ascending order of difference. */
  ghost predicate SortedPrefix(a: array<PanoLink>, n: int, heading: int)
    requires n <= a.Length
    reads a
  {
    forall p, q :: 0 <= p < q < n ==> LinkDiff(a[p], heading) <= LinkDiff(a[q], heading)
  }

  /** Exchanges the adjacent elements `j - 1` and `j`. */
  method SwapDown(a: array<PanoLink>, j: int)
    requires 0 < j < a.Length
    modifies a
    ensures a[j - 1] == old(a[j]) && a[j] == old(a[j - 1])
    ensures forall k :: 0 <= k < a.Length && k != j - 1 && k != j ==> a[k] == old(a[k])
    ensures multiset(a[..]) == old(multiset(a[..]))
  {
    a[j - 1], a[j] := a[j], a[j - 1];
  }

  /** Moves `a[i]` down into the sorted prefix `a[..i]`, past the
      elements whose difference is strictly larger. */
  method InsertDown(a: array<PanoLink>, i: int, heading: int)
    requires 0 <= i < a.Length
    requires SortedPrefix(a, i, heading)
    modifies a
    ensures SortedPrefix(a, i + 1, heading)
    ensures forall k :: i < k < a.Length ==> a[k] == old(a[k])
    ensures multiset(a[..]) == old(multiset(a[..]))
  {
    var j := i;
    while j > 0 && LinkDiff(a[j - 1], heading) > LinkDiff(a[j], heading)
      invariant 0 <= j <= i
      invariant forall p, q :: 0 <= p < q <= i && p != j && q != j ==>
                  LinkDiff(a[p], heading) <= LinkDiff(a[q], heading)
      invariant forall q :: j < q <= i ==> LinkDiff(a[j], heading) < LinkDiff(a[q], heading)
      invariant forall k :: i < k < a.Length ==> a[k] == old(a[k])
      invariant multiset(a[..]) == old(multiset(a[..]))
    {
      SwapDown(a, j);
      j := j - 1;
    }
    forall p, q | 0 <= p < q < i + 1
      ensures LinkDiff(a[p], heading) <= LinkDiff(a[q], heading)
    {
      if q == j && p < j - 1 {
        assert LinkDiff(a[p], heading) <= LinkDiff(a[j - 1], heading);
      }
    }
  }

  /** The sort in `handlePanoChanged`: copies the links into a new array
      and sorts the copy in place by difference from the view heading
      (the input is left as it is). The insertion sort moves an element
      down only past strictly larger keys, so links with equal keys keep
      their order, as JavaScript's stable `Array.prototype.sort` does. */
  method SortLinks(links: seq<PanoLink>, heading: int) returns (sorted: seq<PanoLink>)
    ensures |sorted| == |links|
    ensures SortedByDiff(sorted, heading)
    ensures multiset(sorted) == multiset(links)
  {
    var a := new PanoLink[|links|](k requires 0 <= k < |links| => links[k]);
    assert a[..] == links;
    var i := 0;
    while i < a.Length
      invariant 0 <= i <= a.Length
      invariant SortedPrefix(a, i, heading)
      invariant multiset(a[..]) == multiset(links)
    {
      InsertDown(a, i, heading);
      i := i + 1;
    }
    sorted := a[..];
    assert SortedPrefix(a, a.Length, heading);
  }

  /** The scan in `moveStreetView`: the first link with the smallest
      difference from `target`, with the best difference starting at 360.
      `best` is None (and `minDiff` 360) when no link comes closer than
      360, which cannot happen for headings in [0, 360). */
  method ClosestLink(links: seq<PanoLink>, target: int) returns (best: Option<nat>, minDiff: int)
    ensures best.None? ==>
      minDiff == 360 && forall i :: 0 <= i < |links| ==> LinkDiff(links[i], target) >= 360
    ensures best.Some? ==>
      && best.value < |links|
      && minDiff == LinkDiff(links[best.value], target) < 360
      && (forall i :: 0 <= i < |links| ==> minDiff <= LinkDiff(links[i], target))
      && (forall i :: 0 <= i < best.value ==> minDiff < LinkDiff(links[i], target))
  {
    best, minDiff := None, 360;
    var i := 0;
    while i < |links|
      invariant 0 <= i <= |links|
      invariant best.None? ==>
        minDiff == 360 && forall k :: 0 <= k < i ==> LinkDiff(links[k], target) >= 360
      invariant best.Some? ==> best.value < i && minDiff == LinkDiff(links[best.value], target) < 360
      invariant forall k :: 0 <= k < i ==> minDiff <= LinkDiff(links[k], target)
      invariant best.Some? ==> forall k :: 0 <= k < best.value ==> minDiff < LinkDiff(links[k], target)
    {
      var diff := LinkDiff(links[i], target);
      if diff < minDiff {
        best, minDiff := Some(i), diff;
      }
      i := i + 1;
    }
  }

  /** With headings in [0, 360) the scan always finds a link when there
      is one. */
  lemma ClosestLinkExists(links: seq<PanoLink>, target: int)
    requires |links| > 0 && IsHeading(target)
    requires forall i :: 0 <= i < |links| ==> IsHeading(links[i].heading)
    ensures exists i :: 0 <= i < |links| && LinkDiff(links[i], target) < 360
  {
    AngularDiffProperties(links[0].heading, target);
  }

  /** The view change `moveStreetView` requests: the panorama to load
      and the point of view to set. */
  datatype PovMove = PovMove(pano: string, heading: int, pitch: int)

  /** `i` is the first link with the smallest difference from `target`. */
  ghost predicate IsClosestLink(links: seq<PanoLink>, target: int, i: nat)
  {
    && i < |links|
    && (forall k :: 0 <= k < |links| ==> LinkDiff(links[i], target) <= LinkDiff(links[k], target))
    && (forall k :: 0 <= k < i ==> LinkDiff(links[i], target) < LinkDiff(links[k], target))
  }

  /** The largest difference, exclusive, for which a move happens. */
  const MaxTurn := 45

  /** `moveStreetView`. `pov` is the panorama's current heading, None
      when the panorama is not mounted; `panoLinks` the links kept by
      `handlePanoChanged`. A move happens only when the panorama is
      mounted, there are links, the direction is known and the closest
      link to the target heading is less than 45 degrees off; it then
      goes to that link's panorama, facing along the link, level. */
  method MoveStreetView(panoLinks: seq<PanoLink>, pov: Option<int>, direction: string)
    returns (move: Option<PovMove>)
    ensures move.Some? <==>
      && pov.Some? && |panoLinks| > 0
      && TargetHeading(direction, pov.value).Some?
      && exists k :: 0 <= k < |panoLinks| &&
           LinkDiff(panoLinks[k], TargetHeading(direction, pov.value).value) < MaxTurn
    ensures move.Some? ==>
      exists i: nat :: IsClosestLink(panoLinks, TargetHeading(direction, pov.value).value, i) &&
        move.value == PovMove(panoLinks[i].pano, panoLinks[i].heading, 0)
  {
    if pov.None? || |panoLinks| == 0 { return None; }
    var currentHeading := pov.value;
    var targetHeading: int;
    if direction == "forward" {
      targetHeading := currentHeading;
    } else if direction == "left" {
      targetHeading := JsRem360(currentHeading - 90 + 360);
    } else if direction == "right" {
      targetHeading := JsRem360(currentHeading + 90);
    } else {
      return None;
    }
    var bestLink, minDiff := ClosestLink(panoLinks, targetHeading);
    if bestLink.Some? && minDiff < MaxTurn {
      var link := panoLinks[bestLink.value];
      move := Some(PovMove(link.pano, link.heading, 0));
      assert IsClosestLink(panoLinks, targetHeading, bestLink.value);
    } else {
      move := None;
    }
  }

  /** The closest of 95 and 260 degrees to 90 is 95, within the
      threshold; 200 degrees is too far off 90 to move along. */
  lemma MoveExamples()
    ensures LinkDiff(PanoLink(95, "a"), 90) == 5 < MaxTurn
    ensures LinkDiff(PanoLink(260, "b"), 90) == 170
    ensures LinkDiff(PanoLink(200, "c"), 90) == 110 >= MaxTurn
  {
  }

  /** `moveStreetView` seen from 90 degrees: with links at 95 and 260
      degrees it moves along the 95-degree link; with a single link at
      200 degrees it does not move. */
  method MoveStreetViewExamples() returns (taken: Option<PovMove>, none: Option<PovMove>)
    ensures taken == Some(PovMove("p95", 95, 0))
    ensures none.None?
  {
    var links := [PanoLink(95, "p95"), PanoLink(260, "p260")];
    assert LinkDiff(links[0], 90) == 5 && LinkDiff(links[1], 90) == 170;
    taken := MoveStreetView(links, Some(90), "forward");
    ghost var i: nat :| IsClosestLink(links, 90, i) && taken.value == PovMove(links[i].pano, links[i].heading, 0);
    assert i == 0;
    var far := [PanoLink(200, "p200")];
    assert LinkDiff(far[0], 90) == 110;
    none := MoveStreetView(far, Some(90), "forward");
  }
}
