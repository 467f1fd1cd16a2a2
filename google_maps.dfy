/** The Google Maps view: the vending machines it shows, the nearest one,
    the first instruction of the walking directions, and the Street View
    state (panel, links, heading) with its handlers. */
module GoogleMaps {
  import opened Common
  import NearestScan
  import HtmlText
  import opened StreetView

  datatype LatLng = LatLng(lat: real, lng: real)

  /** The default user location, near the UCI campus. */
  const UciLocation := LatLng(33.6461, -117.8427)

  /** A machine as the coordinates endpoint returns it. */
  datatype RawMachine = RawMachine(id: int, xCoordinate: string, yCoordinate: string)

  /** A machine with its coordinates parsed; None stands for `NaN`. */
  datatype VendingMachine = VendingMachine(
    id: int, xCoordinate: string, yCoordinate: string, lat: Option<real>, lng: Option<real>)

  predicate HasCoordinates(vm: VendingMachine)
  {
    vm.lat.Some? && vm.lng.Some?
  }

  /** The parsed position of a machine with coordinates. */
  function Position(vm: VendingMachine): (p: LatLng)
    requires HasCoordinates(vm)
    ensures Some(p.lat) == vm.lat && Some(p.lng) == vm.lng
  {
    LatLng(vm.lat.value, vm.lng.value)
  }

  /** The `map` step of sanitising: each machine keeps its fields and
      gains `lat`/`lng` parsed from `x_coordinate`/`y_coordinate`.
      `parseFloat` is a parameter; None is its `NaN`. */
  function ParseCoordinates(raw: seq<RawMachine>, parseFloat: string -> Option<real>): (r: seq<VendingMachine>)
    ensures |r| == |raw|
    ensures forall i :: 0 <= i < |raw| ==>
      r[i] == VendingMachine(raw[i].id, raw[i].xCoordinate, raw[i].yCoordinate,
                             parseFloat(raw[i].xCoordinate), parseFloat(raw[i].yCoordinate))
  {
    seq(|raw|, i requires 0 <= i < |raw| =>
      VendingMachine(raw[i].id, raw[i].xCoordinate, raw[i].yCoordinate,
                     parseFloat(raw[i].xCoordinate), parseFloat(raw[i].yCoordinate)))
  }

  /** The `filter` step: the machines whose two coordinates are numbers,
      in their original order. */
  function KeepValid(vms: seq<VendingMachine>): (r: seq<VendingMachine>)
    ensures |r| <= |vms|
    ensures forall vm :: vm in r <==> vm in vms && HasCoordinates(vm)
  {
    if vms == [] then []
    else (if HasCoordinates(vms[0]) then [vms[0]] else []) + KeepValid(vms[1..])
  }

  /** The list stored by the fetch effect. */
  function Sanitize(raw: seq<RawMachine>, parseFloat: string -> Option<real>): (r: seq<VendingMachine>)
    ensures |r| <= |raw|
    ensures forall vm :: vm in r ==> HasCoordinates(vm) && vm in ParseCoordinates(raw, parseFloat)
    ensures forall i :: 0 <= i < |raw| ==>
      (ParseCoordinates(raw, parseFloat)[i] in r <==>
         parseFloat(raw[i].xCoordinate).Some? && parseFloat(raw[i].yCoordinate).Some?)
  {
    KeepValid(ParseCoordinates(raw, parseFloat))
  }

  /** Filtering a concatenation filters each part: the filter keeps the
      original order. */
  lemma {:induction false} KeepValidAppend(a: seq<VendingMachine>, b: seq<VendingMachine>)
    ensures KeepValid(a + b) == KeepValid(a) + KeepValid(b)
  {
    if a == [] {
      assert a + b == b;
    } else {
      assert (a + b)[0] == a[0];
      assert (a + b)[1..] == a[1..] + b;
      KeepValidAppend(a[1..], b);
    }
  }

  /** A list of valid machines passes unchanged; in particular filtering
      twice is filtering once. */
  lemma {:induction false} KeepValidFixesValid(vms: seq<VendingMachine>)
    requires forall i :: 0 <= i < |vms| ==> HasCoordinates(vms[i])
    ensures KeepValid(vms) == vms
  {
    if vms != [] {
      KeepValidFixesValid(vms[1..]);
    }
  }

  lemma KeepValidIdempotent(vms: seq<VendingMachine>)
    ensures KeepValid(KeepValid(vms)) == KeepValid(vms)
  {
    var r := KeepValid(vms);
    assert forall i :: 0 <= i < |r| ==> r[i] in r;
    KeepValidFixesValid(r);
  }

  /** The distances the scan compares: a number for each machine with
      coordinates, nothing for the others. `distance` stands for the
      flat-earth estimate of the source. */
  function Distances(user: LatLng, vms: seq<VendingMachine>, distance: (LatLng, LatLng) -> real)
    : (ds: seq<Option<real>>)
    ensures |ds| == |vms|
    ensures forall i :: 0 <= i < |vms| ==>
      ds[i] == if HasCoordinates(vms[i]) then Some(distance(user, Position(vms[i]))) else None
  {
    seq(|vms|, i requires 0 <= i < |vms| =>
      if HasCoordinates(vms[i]) then Some(distance(user, Position(vms[i]))) else None)
  }

  /** `vms[i]` is the first machine with coordinates whose distance from
      `user` is no larger than that of any other machine with coordinates. */
  ghost predicate IsNearestMachine(user: LatLng, vms: seq<VendingMachine>,
                                   distance: (LatLng, LatLng) -> real, i: int)
  {
    && 0 <= i < |vms|
    && HasCoordinates(vms[i])
    && (forall j :: 0 <= j < |vms| && HasCoordinates(vms[j]) ==>
          distance(user, Position(vms[i])) <= distance(user, Position(vms[j])))
    && (forall j :: 0 <= j < i && HasCoordinates(vms[j]) ==>
          distance(user, Position(vms[i])) < distance(user, Position(vms[j])))
  }

  /** The nearest-machine scan: the nearest machine, ties going to the
      earliest; None when no machine has coordinates. */
  method FindNearestMachine(user: LatLng, vms: seq<VendingMachine>, distance: (LatLng, LatLng) -> real)
    returns (nearest: Option<VendingMachine>)
    ensures nearest.None? <==> forall i :: 0 <= i < |vms| ==> !HasCoordinates(vms[i])
    ensures nearest.Some? ==>
      exists i :: IsNearestMachine(user, vms, distance, i) && nearest.value == vms[i]
  {
    var ds := Distances(user, vms, distance);
    var best, minDist := NearestScan.FirstMinimum(ds);
    if best.Some? {
      var i := best.value;
      nearest := Some(vms[i]);
      assert ds[i].Some?;
      assert IsNearestMachine(user, vms, distance, i) by {
        forall j | 0 <= j < |vms| && HasCoordinates(vms[j])
          ensures distance(user, Position(vms[i])) <= distance(user, Position(vms[j]))
        {
          assert ds[j].Some?;
        }
        forall j | 0 <= j < i && HasCoordinates(vms[j])
          ensures distance(user, Position(vms[i])) < distance(user, Position(vms[j]))
        {
          assert ds[j].Some?;
        }
      }
    } else {
      nearest := None;
      forall i | 0 <= i < |vms| ensures !HasCoordinates(vms[i]) {
        assert ds[i].None?;
      }
    }
  }

  // ---------------------------------------------------------------------
  // Directions.

  datatype DirectionsStep = DirectionsStep(instructions: string)
  datatype DirectionsLeg = DirectionsLeg(steps: seq<DirectionsStep>)
  datatype DirectionsRoute = DirectionsRoute(legs: seq<DirectionsLeg>)
  /** A walking-directions result; the service reports one only with at
      least one route. */
  datatype DirectionsResult = DirectionsResult(routes: seq<DirectionsRoute>)

  /** The first route of the directions has a first leg with a first step. */
  predicate HasFirstStep(directions: DirectionsResult)
    requires |directions.routes| > 0
  {
    |directions.routes[0].legs| > 0 && |directions.routes[0].legs[0].steps| > 0
  }

  /** `mainInstruction`: the first step's instructions without HTML tags,
      or '' when there are no directions, no first leg or no first step. */
  function MainInstruction(directions: Option<DirectionsResult>): (text: string)
    requires directions.Some? ==> |directions.value.routes| > 0
    ensures directions.None? || !HasFirstStep(directions.value) ==> text == ""
    ensures directions.Some? && HasFirstStep(directions.value) ==>
      text == HtmlText.StripTags(directions.value.routes[0].legs[0].steps[0].instructions)
    ensures HtmlText.NoTags(text)
  {
    if directions.Some? && HasFirstStep(directions.value) then
      HtmlText.StripTagsLeavesNoTags(directions.value.routes[0].legs[0].steps[0].instructions);
      HtmlText.StripTags(directions.value.routes[0].legs[0].steps[0].instructions)
    else
      ""
  }

  // ---------------------------------------------------------------------
  // The view's state and its handlers.

  /** What the panorama reports in `handlePanoChanged`: its heading and
      its links (None when it gives none). */
  datatype PanoramaView = PanoramaView(heading: int, links: Option<seq<PanoLink>>)

  class GoogleMapsView {
    var userLocation: Option<LatLng>
    var vendingMachines: seq<VendingMachine>
    var nearest: Option<VendingMachine>
    var navigating: bool
    var showStreetView: bool
    var streetViewPosition: Option<LatLng>
    var isDragging: bool
    var streetViewAvailable: bool
    var panoLinks: seq<PanoLink>
    var panoHeading: int

    /** The initial state of the component. */
    constructor ()
      ensures userLocation == Some(UciLocation) && vendingMachines == [] && nearest.None?
      ensures !navigating && !showStreetView && streetViewPosition.None? && !isDragging
      ensures streetViewAvailable && panoLinks == [] && panoHeading == 0
    {
      userLocation := Some(UciLocation);
      vendingMachines := [];
      nearest := None;
      navigating := false;
      showStreetView := false;
      streetViewPosition := None;
      isDragging := false;
      streetViewAvailable := true;
      panoLinks := [];
      panoHeading := 0;
    }

    /** The fetch effect, once the coordinates have arrived: stores the
        sanitised list. */
    method ReceiveMachines(raw: seq<RawMachine>, parseFloat: string -> Option<real>)
      modifies this`vendingMachines
      ensures vendingMachines == Sanitize(raw, parseFloat)
      ensures forall vm :: vm in vendingMachines ==> HasCoordinates(vm)
    {
      vendingMachines := Sanitize(raw, parseFloat);
    }

    /** The nearest-machine effect: does nothing without a user location
        or without machines; otherwise stores the scan's result, which is
        None when no machine has coordinates. */
    method UpdateNearest(distance: (LatLng, LatLng) -> real)
      modifies this`nearest
      ensures userLocation.None? || vendingMachines == [] ==> nearest == old(nearest)
      ensures userLocation.Some? && vendingMachines != [] ==>
        (nearest.None? <==> forall i :: 0 <= i < |vendingMachines| ==> !HasCoordinates(vendingMachines[i]))
      ensures userLocation.Some? && vendingMachines != [] && nearest.Some? ==>
        exists i :: IsNearestMachine(userLocation.value, vendingMachines, distance, i) &&
          nearest.value == vendingMachines[i]
    {
      if userLocation.None? || |vendingMachines| == 0 { return; }
      nearest := FindNearestMachine(userLocation.value, vendingMachines, distance);
    }

    /** `handleHideStreetView`: closes the panel and resets the Street
        View state. */
    method HideStreetView()
      modifies this
      ensures !showStreetView && streetViewPosition.None? && streetViewAvailable
      ensures panoLinks == [] && !isDragging
      ensures userLocation == old(userLocation) && vendingMachines == old(vendingMachines)
      ensures nearest == old(nearest) && navigating == old(navigating)
      ensures panoHeading == old(panoHeading)
    {
      showStreetView := false;
      streetViewPosition := None;
      streetViewAvailable := true;
      panoLinks := [];
      isDragging := false;
    }

    /** `handleNavigationToggle`: flips `navigating`; stopping navigation
        also ends any drag, starting it leaves the drag flag alone. */
    method ToggleNavigation()
      modifies this`navigating, this`isDragging
      ensures navigating == !old(navigating)
      ensures isDragging == (if old(navigating) then false else old(isDragging))
      ensures !navigating ==> !isDragging
    {
      if navigating {
        isDragging := false;
      }
      navigating := !navigating;
    }

    /** `handlePanoChanged`: with a mounted panorama, records its heading
        and, when it reports links, keeps them sorted by closeness to that
        heading. */
    method PanoChanged(view: Option<PanoramaView>)
      modifies this`panoHeading, this`panoLinks
      ensures view.None? ==> panoHeading == old(panoHeading) && panoLinks == old(panoLinks)
      ensures view.Some? ==> panoHeading == view.value.heading
      ensures view.Some? && (view.value.links.None? || view.value.links.value == []) ==>
        panoLinks == old(panoLinks)
      ensures view.Some? && view.value.links.Some? && view.value.links.value != [] ==>
        SortedByDiff(panoLinks, view.value.heading) &&
        multiset(panoLinks) == multiset(view.value.links.value)
    {
      if view.None? { return; }
      panoHeading := view.value.heading;
      if view.value.links.Some? && |view.value.links.value| > 0 {
        panoLinks := SortLinks(view.value.links.value, view.value.heading);
      }
    }
  }
}
