/** The Mapbox view: its nearest-location record, the route it follows
    with the step cursor and the current instruction, the view mode, and
    the Prev/Next buttons of the navigation bar. */
module MapboxMap {
  import opened Common
  import NearestScan
  import opened RouteHelper

  datatype UserLocation = UserLocation(latitude: real, longitude: real)

  /** The default user location, near the UCI campus. */
  const DefaultUserLocation := UserLocation(33.6461, -117.8427)

  /** A machine location as the coordinates endpoint returns it. */
  datatype Location = Location(id: int, xCoordinate: real, yCoordinate: real)

  /** `locations[i]` is the first location with the smallest distance from
      `user`. `distance` stands for the flat-earth estimate of the source;
      None is a `NaN` distance, which no `<` comparison accepts. */
  ghost predicate IsNearestLocation(user: UserLocation, locations: seq<Location>,
                                    distance: (UserLocation, Location) -> Option<real>, i: int)
  {
    && 0 <= i < |locations|
    && distance(user, locations[i]).Some?
    && (forall j :: 0 <= j < |locations| && distance(user, locations[j]).Some? ==>
          distance(user, locations[i]).value <= distance(user, locations[j]).value)
    && (forall j :: 0 <= j < i && distance(user, locations[j]).Some? ==>
          distance(user, locations[i]).value < distance(user, locations[j]).value)
  }

  /** The nearest-location scan and the record built from its result:
      the coordinates, id and distance of the nearest location; None when
      no distance is a number. */
  method FindNearestLocation(user: UserLocation, locations: seq<Location>,
                             distance: (UserLocation, Location) -> Option<real>)
    returns (record: Option<NearestLocation>)
    ensures record.None? <==> forall i :: 0 <= i < |locations| ==> distance(user, locations[i]).None?
    ensures record.Some? ==>
      exists i :: IsNearestLocation(user, locations, distance, i) &&
        record.value == NearestLocation(locations[i].xCoordinate, locations[i].yCoordinate,
                                        locations[i].id, distance(user, locations[i]).value)
  {
    var ds := seq(|locations|, k requires 0 <= k < |locations| => distance(user, locations[k]));
    var nearest, minDistance := NearestScan.FirstMinimum(ds);
    if nearest.Some? {
      var loc := locations[nearest.value];
      record := Some(NearestLocation(loc.xCoordinate, loc.yCoordinate, loc.id, minDistance.value));
      assert IsNearestLocation(user, locations, distance, nearest.value) by {
        assert forall j :: 0 <= j < |locations| ==> ds[j] == distance(user, locations[j]);
      }
    } else {
      record := None;
      assert forall j :: 0 <= j < |locations| ==> ds[j] == distance(user, locations[j]);
    }
  }

  // ---------------------------------------------------------------------
  // The Prev/Next buttons.

  /** Prev is disabled exactly on the first step: the one cursor that
      stepping back leaves where it is, whatever the route's length. */
  predicate PrevDisabled(currentLeg: int)
    ensures PrevDisabled(currentLeg) ==>
      forall len: nat :: len > 0 ==> NextCursor("prev", currentLeg, len) == Some(currentLeg)
    ensures !PrevDisabled(currentLeg) ==>
      forall len: nat :: len > 0 ==> NextCursor("prev", currentLeg, len) != Some(currentLeg)
  {
    currentLeg == 0
  }

  /** `steps?.length - 1 || 0`: the last index of the steps, and 0 when
      there are none (`undefined - 1` is `NaN`, which is falsy). For an
      empty list it is -1, which is truthy and stays. */
  function NextLimit(steps: Option<seq<RouteStep>>): (limit: int)
    ensures steps.None? ==> limit == 0
    ensures steps.Some? ==> limit == |steps.value| - 1
  {
    if steps.None? then 0 else |steps.value| - 1
  }

  /** Next is disabled when the cursor is at `NextLimit`. On a route with
      steps that is exactly the cursor that stepping on leaves where it
      is; without steps, it is the first step. */
  predicate NextDisabled(currentLeg: int, steps: Option<seq<RouteStep>>)
    ensures steps.Some? && |steps.value| > 0 ==>
      (NextDisabled(currentLeg, steps) <==> NextCursor("next", currentLeg, |steps.value|) == Some(currentLeg))
    ensures steps.None? ==> (NextDisabled(currentLeg, steps) <==> currentLeg == 0)
  {
    currentLeg == NextLimit(steps)
  }

  /** On a route with steps and a cursor inside it, Prev is disabled
      exactly when pressing it would leave the cursor where it is. */
  lemma PrevDisabledExactlyAtStart(steps: seq<RouteStep>, cur: int)
    requires 0 <= cur < |steps|
    ensures PrevDisabled(cur) <==> NavigationOutcome("prev", Some(steps), cur).leg == Some(cur)
  {
  }

  /** On a route with steps and a cursor inside it, Next is disabled
      exactly when pressing it would leave the cursor where it is. */
  lemma NextDisabledExactlyAtEnd(steps: seq<RouteStep>, cur: int)
    requires 0 <= cur < |steps|
    ensures NextDisabled(cur, Some(steps)) <==> NavigationOutcome("next", Some(steps), cur).leg == Some(cur)
  {
  }

  /** Without steps, Next is disabled only on the first step; with an
      empty list of steps, it is never disabled at a cursor of 0. */
  lemma NextDisabledWithoutSteps(cur: int)
    ensures NextDisabled(cur, None) <==> cur == 0
    ensures NextDisabled(cur, Some([])) <==> cur == -1
  {
  }

  /** The steps the buttons hand to `navigateToStep`, AS WRITTEN:
      `route?.legs?.[0]?.steps`. The view stores in `route` the list of
      steps itself (`setRoute(routeSteps)`), and a list has no `legs`,
      so the expression is always `undefined`. */
  function ButtonStepsAsWritten(route: Option<seq<RouteStep>>): (steps: Option<seq<RouteStep>>)
    ensures steps.None?
  {
    None
  }

  /** As written, the buttons never move the cursor, and Next is
      disabled exactly on the first step, whatever the route. */
  lemma ButtonsInertAsWritten(route: Option<seq<RouteStep>>, cur: int, direction: string)
    ensures NavigationOutcome(direction, ButtonStepsAsWritten(route), cur) == NoEffect
    ensures NextDisabled(cur, ButtonStepsAsWritten(route)) <==> cur == 0
  {
  }

  /** A two-step route on its first step: as written, Next is disabled
      and pressing it would do nothing, although a second step exists. */
  lemma NextButtonCounterexample(s0: RouteStep, s1: RouteStep)
    ensures NextDisabled(0, ButtonStepsAsWritten(Some([s0, s1])))
    ensures NavigationOutcome("next", ButtonStepsAsWritten(Some([s0, s1])), 0).leg.None?
    ensures NavigationOutcome("next", Some([s0, s1]), 0).leg == Some(1)
  {
  }

  /** The steps the buttons are evidently meant to hand over: the stored
      route's steps. */
  function ButtonSteps(route: Option<seq<RouteStep>>): (steps: Option<seq<RouteStep>>)
    ensures steps == route
  {
    route
  }

  /** With the route's steps handed over, Next is enabled before the last
      step and moves the cursor on by one; Prev is enabled after the
      first step and moves it back by one. */
  lemma ButtonsWorkCorrected(steps: seq<RouteStep>, cur: int)
    requires 0 <= cur < |steps|
    ensures cur < |steps| - 1 ==>
      !NextDisabled(cur, ButtonSteps(Some(steps))) &&
      NavigationOutcome("next", ButtonSteps(Some(steps)), cur).leg == Some(cur + 1)
    ensures cur > 0 ==>
      !PrevDisabled(cur) &&
      NavigationOutcome("prev", ButtonSteps(Some(steps)), cur).leg == Some(cur - 1)
  {
  }

  // ---------------------------------------------------------------------
  // The view's state and its handlers.

  class MapView {
    var locations: seq<Location>
    var userLocation: Option<UserLocation>
    var selectedLocation: Option<SelectedLocation>
    var route: Option<seq<RouteStep>>
    var routeCoordinates: seq<LngLat>
    var nearestLocation: Option<NearestLocation>
    var currentLeg: int
    var currentInstruction: Option<Instruction>
    var viewMode: string
    /** Whether the navigation bar with the Prev/Next buttons is shown.
        It starts false, and no handler of the view ever sets it. */
    var navigationMode: bool

    /** The step cursor lies inside the stored route (at 0 when there is
        no route or the route has no step). */
    predicate CursorInRoute()
      reads this
    {
      if route.None? || route.value == [] then currentLeg == 0
      else 0 <= currentLeg < |route.value|
    }

    /** The initial state of the component. */
    constructor ()
      ensures locations == [] && userLocation == Some(DefaultUserLocation)
      ensures selectedLocation.None? && route.None? && routeCoordinates == []
      ensures nearestLocation.None? && currentLeg == 0 && currentInstruction.None?
      ensures viewMode == "3d" && !navigationMode
      ensures CursorInRoute()
    {
      locations := [];
      userLocation := Some(DefaultUserLocation);
      selectedLocation := None;
      route := None;
      routeCoordinates := [];
      nearestLocation := None;
      currentLeg := 0;
      currentInstruction := None;
      viewMode := "3d";
      navigationMode := false;
    }

    /** The nearest-location effect: runs only with locations and a user
        location, and replaces the record only when a nearest location
        was found. */
    method UpdateNearestLocation(distance: (UserLocation, Location) -> Option<real>)
      modifies this`nearestLocation
      ensures locations == [] || userLocation.None? ==> nearestLocation == old(nearestLocation)
      ensures userLocation.Some? &&
              (forall i :: 0 <= i < |locations| ==> distance(userLocation.value, locations[i]).None?)
              ==> nearestLocation == old(nearestLocation)
      ensures |locations| > 0 && userLocation.Some? &&
              (exists i :: 0 <= i < |locations| && distance(userLocation.value, locations[i]).Some?) ==>
        exists i :: IsNearestLocation(userLocation.value, locations, distance, i) &&
          nearestLocation == Some(NearestLocation(locations[i].xCoordinate, locations[i].yCoordinate,
                                                  locations[i].id,
                                                  distance(userLocation.value, locations[i]).value))
      ensures nearestLocation != old(nearestLocation) ==>
        userLocation.Some? &&
        exists i :: IsNearestLocation(userLocation.value, locations, distance, i) &&
          nearestLocation == Some(NearestLocation(locations[i].xCoordinate, locations[i].yCoordinate,
                                                  locations[i].id,
                                                  distance(userLocation.value, locations[i]).value))
    {
      if |locations| > 0 && userLocation.Some? {
        var record := FindNearestLocation(userLocation.value, locations, distance);
        if record.Some? {
          nearestLocation := record;
        }
      }
    }

    /** The 2D/3D button. */
    method ToggleView()
      modifies this`viewMode
      ensures viewMode == ToggleViewMode(old(viewMode))
    {
      viewMode := ToggleViewMode(viewMode);
    }

    /** The "Find Nearest" button: selects the nearest location as the
        destination, and does nothing when there is none. */
    method FindNearest()
      modifies this`selectedLocation
      ensures nearestLocation.None? ==> selectedLocation == old(selectedLocation)
      ensures nearestLocation.Some? ==> selectedLocation == ShowDirections(nearestLocation)
    {
      var selection := ShowDirections(nearestLocation);
      if selection.Some? {
        selectedLocation := selection;
      }
    }

    /** `getRouteToVendingMachine` once the directions response `data` has
        arrived: without a user location or a destination nothing is
        requested; a response without a first route or leg raises before
        any state changes; otherwise the route is stored, the cursor goes
        back to the first step and the first step's instruction is shown
        (the previous instruction stays when the route has no step). */
    method ReceiveRoute(data: RouteData)
      modifies this`route, this`routeCoordinates, this`currentLeg, this`currentInstruction
      ensures userLocation.None? || selectedLocation.None? || ProcessRouteInformation(data).None? ==>
        route == old(route) && routeCoordinates == old(routeCoordinates) &&
        currentLeg == old(currentLeg) && currentInstruction == old(currentInstruction)
      ensures userLocation.Some? && selectedLocation.Some? && ProcessRouteInformation(data).Some? ==>
        var info := ProcessRouteInformation(data).value;
        && route == Some(info.routeSteps)
        && routeCoordinates == info.routeGeometry.coordinates
        && currentLeg == 0
        && currentInstruction == (if info.routeSteps == [] then old(currentInstruction)
                                  else Some(InstructionFor(info.routeSteps[0])))
      ensures old(CursorInRoute()) ==> CursorInRoute()
    {
      if userLocation.None? || selectedLocation.None? { return; }
      var info := ProcessRouteInformation(data);
      if info.None? { return; }
      route := Some(info.value.routeSteps);
      routeCoordinates := info.value.routeGeometry.coordinates;
      currentLeg := 0;
      var instruction := InitialInstruction(info.value.routeSteps);
      if instruction.Some? {
        currentInstruction := instruction;
      }
    }

    /** A click on Prev ('prev') or Next ('next'). The buttons exist only
        while the navigation bar is shown, and a disabled button ignores
        the click; otherwise `navigateToStep` runs on the route's
        steps and its cursor and instruction are applied. The camera move
        is left to the map. */
    method PressStep(direction: string)
      requires direction == "prev" || direction == "next"
      modifies this`currentLeg, this`currentInstruction
      ensures var disabled := if direction == "prev" then PrevDisabled(old(currentLeg))
                              else NextDisabled(old(currentLeg), ButtonSteps(route));
        !navigationMode || disabled ==>
          currentLeg == old(currentLeg) && currentInstruction == old(currentInstruction)
      ensures var disabled := if direction == "prev" then PrevDisabled(old(currentLeg))
                              else NextDisabled(old(currentLeg), ButtonSteps(route));
        var o := NavigationOutcome(direction, ButtonSteps(route), old(currentLeg));
        navigationMode && !disabled ==>
          currentLeg == o.leg.GetOr(old(currentLeg)) &&
          currentInstruction == (if o.instruction.Some? then o.instruction else old(currentInstruction))
      ensures old(CursorInRoute()) ==> CursorInRoute()
    {
      if !navigationMode { return; }
      var steps := ButtonSteps(route);
      var disabled := if direction == "prev" then PrevDisabled(currentLeg)
                      else NextDisabled(currentLeg, steps);
      if disabled { return; }
      var o := NavigateToStep(direction, steps, currentLeg);
      if o.leg.Some? {
        currentLeg := o.leg.value;
      }
      if o.instruction.Some? {
        currentInstruction := o.instruction;
      }
    }
  }
}
