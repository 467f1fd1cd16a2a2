/** The turn-by-turn helpers of the Mapbox view: the route-step cursor,
    the maneuver icon table, the instruction record shown for a step,
    the camera move that accompanies it, and the small view-state
    transitions (view-mode toggle, "Find Nearest"). */
module RouteHelper {
  import opened Common

  /** A position as the routing service reports it: [longitude, latitude]. */
  datatype LngLat = LngLat(lng: real, lat: real)

  /** `step.maneuver` of a walking-route step. Every field the routing
      service may omit is an Option; `kind` is the maneuver's `type`. */
  datatype Maneuver = Maneuver(
    location: Option<LngLat>,
    modifier: Option<string>,
    kind: Option<string>,
    instruction: string,
    bearingBefore: Option<int>,
    bearingAfter: Option<int>)

  /** One step of `routes[0].legs[0].steps`; `distance` is in metres. */
  datatype RouteStep = RouteStep(maneuver: Maneuver, distance: Option<real>)

  /** The record handed to `setCurrentInstruction`. */
  datatype Instruction = Instruction(icon: string, text: string, distance: Option<int>)

  /** The arguments of the `flyTo` camera move towards a step. */
  datatype CameraMove = CameraMove(
    center: LngLat, zoom: int, pitch: int, bearing: int, essential: bool, durationMs: int)

  /** What one call of `navigateToStep` does: the value passed to
      `setCurrentLeg`, the value passed to `setCurrentInstruction`, and
      the camera move; None where that call is not made. */
  datatype StepOutcome = StepOutcome(
    leg: Option<int>, instruction: Option<Instruction>, camera: Option<CameraMove>)

  const NoEffect := StepOutcome(None, None, None)

  // Icons shown in the instruction panel.
  const ArrowLeft := "\U{2190}"         // ←
  const ArrowRight := "\U{2192}"        // →
  const ArrowSlightLeft := "\U{2196}"   // ↖
  const ArrowSlightRight := "\U{2197}"  // ↗
  const ArrowSharpLeft := "\U{21B0}"    // ↰
  const ArrowSharpRight := "\U{21B1}"   // ↱
  const Finish := "\U{1F3C1}"           // 🏁

  /** The modifier-to-icon table, in the order the source tests it. */
  const IconTable: seq<(string, string)> := [
    ("left", ArrowLeft),
    ("right", ArrowRight),
    ("slight left", ArrowSlightLeft),
    ("slight right", ArrowSlightRight),
    ("sharp left", ArrowSharpLeft),
    ("sharp right", ArrowSharpRight)
  ]

  /** The icon of the first table entry whose key is `key`, else `default`. */
  function Lookup(table: seq<(string, string)>, key: string, default: string): (v: string)
    ensures v == default || exists i :: 0 <= i < |table| && table[i].0 == key && table[i].1 == v
  {
    if table == [] then default
    else if table[0].0 == key then table[0].1
    else Lookup(table[1..], key, default)
  }

  /** The icon of a maneuver: an arrival shows the flag whatever its
      modifier; otherwise the table entry of its modifier, and a right
      arrow for any modifier that is absent or not in the table. */
  function IconFor(m: Maneuver): (icon: string)
    ensures m.kind == Some("arrive") ==> icon == Finish
    ensures icon == Finish || exists i :: 0 <= i < |IconTable| && IconTable[i].1 == icon
  {
    assert IconTable[1].1 == ArrowRight;
    if m.kind == Some("arrive") then Finish
    else if m.modifier.None? then ArrowRight
    else Lookup(IconTable, m.modifier.value, ArrowRight)
  }

  /** `step.distance ? Math.round(step.distance) : null`: a missing
      distance and a distance of 0 both give null; otherwise the distance
      rounded to the nearest integer, halves upwards. */
  function RoundedDistance(d: Option<real>): (r: Option<int>)
    ensures r.None? <==> (d.None? || d.value == 0.0)
    ensures r.Some? ==> r.value as real <= d.value + 0.5 < r.value as real + 1.0
  {
    if d.Some? && d.value != 0.0 then Some((d.value + 0.5).Floor) else None
  }

  /** The instruction shown for a step. */
  function InstructionFor(step: RouteStep): (instr: Instruction)
    ensures instr.text == step.maneuver.instruction
    ensures instr.distance.None? <==> step.distance.None? || step.distance.value == 0.0
    ensures instr.icon == Finish || exists i :: 0 <= i < |IconTable| && IconTable[i].1 == instr.icon
  {
    Instruction(IconFor(step.maneuver), step.maneuver.instruction, RoundedDistance(step.distance))
  }

  /** The cursor `navigateToStep` moves to, or None when it returns
      without calling `setCurrentLeg`: 'next' clamps `cur + 1` from above
      at the last index, 'prev' clamps `cur - 1` from below at 0. */
  function NextCursor(direction: string, cur: int, len: nat): (r: Option<int>)
    ensures r.Some? <==> len > 0 && (direction == "next" || direction == "prev")
    ensures r.Some? && direction == "next" ==> r.value <= len - 1 && r.value <= cur + 1
    ensures r.Some? && direction == "prev" ==> r.value >= 0 && r.value >= cur - 1
  {
    if len == 0 then None
    else if direction == "next" then Some(Min(cur + 1, len - 1))
    else if direction == "prev" then Some(Max(cur - 1, 0))
    else None
  }

  /** The camera bearing for a move in `direction`: `bearing_after` going
      forwards, `bearing_before` going backwards, 0 when that field is
      absent (a bearing of 0 is falsy too, and gives the same 0). */
  function BearingFor(direction: string, m: Maneuver): (b: int)
    ensures direction == "next" ==> b == m.bearingAfter.GetOr(0)
    ensures direction == "prev" ==> b == m.bearingBefore.GetOr(0)
  {
    if direction == "next" then m.bearingAfter.GetOr(0)
    else if direction == "prev" then m.bearingBefore.GetOr(0)
    else 0
  }

  /** The fixed camera move towards a maneuver location. */
  function FlyTo(center: LngLat, bearing: int): (move: CameraMove)
    ensures move.center == center && move.bearing == bearing
    ensures move.zoom == 19 && move.pitch == 60 && move.essential && move.durationMs == 1000
  {
    CameraMove(center, 19, 60, bearing, true, 1000)
  }

  /** Everything one call of `navigateToStep` does. `steps` is None when
      the caller passed `undefined`. The cursor is set whenever the
      target index is computed; the instruction and the camera move
      follow only when the target step exists and has a location. */
  function NavigationOutcome(direction: string, steps: Option<seq<RouteStep>>, cur: int): (o: StepOutcome)
    ensures o.leg.Some? <==>
      steps.Some? && |steps.value| > 0 && (direction == "next" || direction == "prev")
    ensures o.leg.Some? ==> o.leg == NextCursor(direction, cur, |steps.value|)
    ensures o.instruction.Some? <==> o.camera.Some?
    ensures o.instruction.Some? <==>
      o.leg.Some? && 0 <= o.leg.value < |steps.value| &&
      steps.value[o.leg.value].maneuver.location.Some?
    ensures o.instruction.Some? ==>
      var step := steps.value[o.leg.value];
      o.instruction.value == InstructionFor(step) &&
      o.camera.value.center == step.maneuver.location.value &&
      o.camera.value.bearing == BearingFor(direction, step.maneuver)
  {
    if steps.None? then NoEffect
    else
      match NextCursor(direction, cur, |steps.value|)
      case None => NoEffect
      case Some(k) =>
        if 0 <= k < |steps.value| && steps.value[k].maneuver.location.Some? then
          var step := steps.value[k];
          StepOutcome(Some(k), Some(InstructionFor(step)),
                      Some(FlyTo(step.maneuver.location.value, BearingFor(direction, step.maneuver))))
        else
          StepOutcome(Some(k), None, None)
  }

  /** The chain of `if`s that picks a maneuver's icon; each test that
      matches overwrites the icon chosen so far. */
  method DirectionIcon(m: Maneuver) returns (icon: string)
    ensures icon == IconFor(m)
  {
    icon := ArrowRight;
    if m.modifier == Some("left") { icon := ArrowLeft; }
    if m.modifier == Some("right") { icon := ArrowRight; }
    if m.modifier == Some("slight left") { icon := ArrowSlightLeft; }
    if m.modifier == Some("slight right") { icon := ArrowSlightRight; }
    if m.modifier == Some("sharp left") { icon := ArrowSharpLeft; }
    if m.modifier == Some("sharp right") { icon := ArrowSharpRight; }
    if m.kind == Some("arrive") { icon := Finish; }
    if m.kind != Some("arrive") && m.modifier.Some? {
      var key := m.modifier.value;
      assert IconTable[0].0 == "left" && IconTable[1].0 == "right" && IconTable[2].0 == "slight left";
      assert IconTable[3].0 == "slight right" && IconTable[4].0 == "sharp left" && IconTable[5].0 == "sharp right";
      if key == "left" { IconOfTableModifier(m, 0); }
      else if key == "right" { IconOfTableModifier(m, 1); }
      else if key == "slight left" { IconOfTableModifier(m, 2); }
      else if key == "slight right" { IconOfTableModifier(m, 3); }
      else if key == "sharp left" { IconOfTableModifier(m, 4); }
      else if key == "sharp right" { IconOfTableModifier(m, 5); }
      else { IconDefaults(m); }
    }
  }

  /** Builds the instruction record for a step, as both `navigateToStep`
      and the initial-instruction block do. */
  method BuildInstruction(step: RouteStep) returns (instr: Instruction)
    ensures instr == InstructionFor(step)
  {
    var icon := DirectionIcon(step.maneuver);
    var distance: Option<int> := None;
    if step.distance.Some? && step.distance.value != 0.0 {
      distance := Some((step.distance.value + 0.5).Floor);
    }
    instr := Instruction(icon, step.maneuver.instruction, distance);
  }

  /** `navigateToStep`: moves the step cursor one step in `direction`
      and, when the new step has a location, shows its instruction and
      flies the camera there. */
  method NavigateToStep(direction: string, steps: Option<seq<RouteStep>>, currentLeg: int)
    returns (o: StepOutcome)
    ensures o == NavigationOutcome(direction, steps, currentLeg)
  {
    if steps.None? || |steps.value| == 0 { return NoEffect; }
    var nextStep: int;
    if direction == "next" {
      nextStep := Min(currentLeg + 1, |steps.value| - 1);
    } else if direction == "prev" {
      nextStep := Max(currentLeg - 1, 0);
    } else {
      return NoEffect;
    }
    o := StepOutcome(Some(nextStep), None, None);
    if 0 <= nextStep < |steps.value| && steps.value[nextStep].maneuver.location.Some? {
      var step := steps.value[nextStep];
      var bearing := 0;
      if direction == "next" {
        bearing := step.maneuver.bearingAfter.GetOr(0);
      } else if direction == "prev" {
        bearing := step.maneuver.bearingBefore.GetOr(0);
      }
      var instr := BuildInstruction(step);
      o := o.(instruction := Some(instr),
              camera := Some(CameraMove(step.maneuver.location.value, 19, 60, bearing, true, 1000)));
    }
  }

  /** The initial-instruction block of `getRouteToVendingMachine`: the
      first step's instruction, or None when the route has no step (the
      current instruction is then left as it was). Unlike
      `navigateToStep`, it does not require the step to have a location. */
  method InitialInstruction(routeSteps: seq<RouteStep>) returns (instr: Option<Instruction>)
    ensures instr.Some? <==> |routeSteps| > 0
    ensures instr.Some? ==> instr.value == InstructionFor(routeSteps[0])
  {
    instr := None;
    if |routeSteps| > 0 {
      var first := BuildInstruction(routeSteps[0]);
      instr := Some(first);
    }
  }

  // ---------------------------------------------------------------------
  // Properties of the cursor, the icon table and the instruction.

  /** From a cursor inside the route, the new cursor stays inside it. */
  lemma CursorStaysInRange(direction: string, cur: int, len: nat)
    requires 0 <= cur < len
    requires direction == "next" || direction == "prev"
    ensures NextCursor(direction, cur, len).Some?
    ensures 0 <= NextCursor(direction, cur, len).value < len
  {
  }

  /** 'next' on the last step and 'prev' on the first leave the cursor
      where it is; anywhere else they move it by exactly one. */
  lemma CursorMovesByOne(cur: int, len: nat)
    requires 0 <= cur < len
    ensures NextCursor("next", cur, len) == Some(if cur == len - 1 then cur else cur + 1)
    ensures NextCursor("prev", cur, len) == Some(if cur == 0 then cur else cur - 1)
  {
  }

  /** 'prev' undoes 'next' away from the last step, and 'next' undoes
      'prev' away from the first. */
  lemma PrevUndoesNext(cur: int, len: nat)
    requires 0 <= cur < len
    ensures cur < len - 1 ==> NextCursor("prev", NextCursor("next", cur, len).value, len) == Some(cur)
    ensures cur > 0 ==> NextCursor("next", NextCursor("prev", cur, len).value, len) == Some(cur)
  {
  }

  /** Without steps, or with a direction other than 'next'/'prev',
      `navigateToStep` does nothing at all. */
  lemma NavigationNoOp(direction: string, steps: Option<seq<RouteStep>>, cur: int)
    requires steps.None? || steps.value == [] || (direction != "next" && direction != "prev")
    ensures NavigationOutcome(direction, steps, cur) == NoEffect
  {
  }

  /** A step without a location still moves the cursor, but shows no
      instruction and moves no camera. */
  lemma CursorMovesWithoutLocation(direction: string, steps: seq<RouteStep>, cur: int)
    requires 0 <= cur < |steps|
    requires direction == "next" || direction == "prev"
    requires steps[NextCursor(direction, cur, |steps|).value].maneuver.location.None?
    ensures NavigationOutcome(direction, Some(steps), cur)
         == StepOutcome(NextCursor(direction, cur, |steps|), None, None)
  {
  }

  /** Keys of the icon table are pairwise distinct. */
  lemma IconTableKeysDistinct()
    ensures forall i, j :: 0 <= i < j < |IconTable| ==> IconTable[i].0 != IconTable[j].0
  {
  }

  /** Lookup finds the entry of a key that occurs exactly once. */
  lemma {:induction false} LookupFindsEntry(table: seq<(string, string)>, k: nat, default: string)
    requires k < |table|
    requires forall i :: 0 <= i < k ==> table[i].0 != table[k].0
    ensures Lookup(table, table[k].0, default) == table[k].1
  {
    if k > 0 {
      assert table[0].0 != table[k].0;
      LookupFindsEntry(table[1..], k - 1, default);
    }
  }

  /** Lookup gives the default for a key that is not in the table. */
  lemma {:induction false} LookupMissing(table: seq<(string, string)>, key: string, default: string)
    requires forall i :: 0 <= i < |table| ==> table[i].0 != key
    ensures Lookup(table, key, default) == default
  {
    if table != [] {
      assert table[0].0 != key;
      LookupMissing(table[1..], key, default);
    }
  }

  /** Every modifier of the table gets its own icon, unless the maneuver
      is an arrival. */
  lemma IconOfTableModifier(m: Maneuver, k: nat)
    requires k < |IconTable|
    requires m.modifier == Some(IconTable[k].0) && m.kind != Some("arrive")
    ensures IconFor(m) == IconTable[k].1
  {
    IconTableKeysDistinct();
    LookupFindsEntry(IconTable, k, ArrowRight);
  }

  /** A modifier outside the table, or no modifier, gives the right
      arrow; an arrival gives the flag whatever the modifier. */
  lemma IconDefaults(m: Maneuver)
    ensures m.kind == Some("arrive") ==> IconFor(m) == Finish
    ensures m.kind != Some("arrive")
            && (forall i :: 0 <= i < |IconTable| ==> m.modifier != Some(IconTable[i].0))
            ==> IconFor(m) == ArrowRight
  {
    if m.kind != Some("arrive") && m.modifier.Some? &&
       forall i :: 0 <= i < |IconTable| ==> m.modifier != Some(IconTable[i].0) {
      LookupMissing(IconTable, m.modifier.value, ArrowRight);
    }
  }

  /** A distance of exactly 0 metres is shown as no distance at all. */
  lemma ZeroDistanceIsNull(step: RouteStep)
    requires step.distance == Some(0.0)
    ensures InstructionFor(step).distance.None?
  {
  }

  /** The initial instruction of a route is the instruction that
      stepping back from the second step onto the first shows, whenever
      the first step has a location. */
  lemma InitialAgreesWithNavigation(steps: seq<RouteStep>)
    requires |steps| > 1 && steps[0].maneuver.location.Some?
    ensures NavigationOutcome("prev", Some(steps), 1).instruction == Some(InstructionFor(steps[0]))
  {
  }

  // ---------------------------------------------------------------------
  // Route response, view mode and "Find Nearest".

  datatype Geometry = Geometry(coordinates: seq<LngLat>)
  datatype Leg = Leg(steps: seq<RouteStep>)
  datatype Route = Route(distance: real, duration: real, legs: seq<Leg>, geometry: Geometry)
  /** The body of the directions response. */
  datatype RouteData = RouteData(routes: seq<Route>)

  datatype RouteInformation = RouteInformation(
    distance: real, duration: real, routeSteps: seq<RouteStep>, routeGeometry: Geometry)

  /** `processRouteInformation`: the first route's distance, duration and
      geometry and its first leg's steps. None stands for the TypeError
      the source raises when there is no first route or no first leg. */
  function ProcessRouteInformation(data: RouteData): (r: Option<RouteInformation>)
    ensures r.Some? <==> |data.routes| > 0 && |data.routes[0].legs| > 0
    ensures r.Some? ==>
      r.value.distance == data.routes[0].distance &&
      r.value.duration == data.routes[0].duration &&
      r.value.routeSteps == data.routes[0].legs[0].steps &&
      r.value.routeGeometry == data.routes[0].geometry
  {
    if |data.routes| > 0 && |data.routes[0].legs| > 0 then
      var route := data.routes[0];
      Some(RouteInformation(route.distance, route.duration, route.legs[0].steps, route.geometry))
    else
      None
  }

  /** `toggleViewMode`: the mode passed to `setViewMode`; '3d' becomes
      '2d' and every other value becomes '3d'. */
  function ToggleViewMode(viewMode: string): (r: string)
    ensures r == "2d" <==> viewMode == "3d"
    ensures r == "3d" <==> viewMode != "3d"
  {
    if viewMode == "3d" then "2d" else "3d"
  }

  /** On the two modes the view uses, toggling twice is the identity. */
  lemma ToggleViewModeTwice(viewMode: string)
    requires viewMode == "2d" || viewMode == "3d"
    ensures ToggleViewMode(ToggleViewMode(viewMode)) == viewMode
  {
  }

  /** The record the map keeps for the nearest vending machine. */
  datatype NearestLocation = NearestLocation(latitude: real, longitude: real, id: int, distance: real)

  /** The destination the route is computed to. */
  datatype SelectedLocation = SelectedLocation(latitude: real, longitude: real, id: int)

  /** `showDirections`: the location passed to `setSelectedLocation`,
      copied from the nearest location; None (no call) when there is none. */
  function ShowDirections(nearestLocation: Option<NearestLocation>): (r: Option<SelectedLocation>)
    ensures r.Some? <==> nearestLocation.Some?
    ensures r.Some? ==>
      r.value.latitude == nearestLocation.value.latitude &&
      r.value.longitude == nearestLocation.value.longitude &&
      r.value.id == nearestLocation.value.id
  {
    match nearestLocation
    case None => None
    case Some(n) => Some(SelectedLocation(n.latitude, n.longitude, n.id))
  }
}
