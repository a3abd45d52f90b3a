/**
 * The draggable panel layout: a map from panel id to a box in percent of
 * the container. Drag moves a box, resize grows or shrinks it, both
 * clamped; every reachable box stays inside the 100 x 70 area.
 */
module Layout {
  import opened Wrappers

  datatype Box = Box(x: real, y: real, width: real, height: real)

  type Positions = map<string, Box>

  const DefaultIds: set<string> := {"problem", "editor", "feedback"}

  const Defaults: Positions := map[
    "problem" := Box(0.0, 0.0, 50.0, 40.0),
    "editor" := Box(50.0, 0.0, 50.0, 40.0),
    "feedback" := Box(0.0, 40.0, 100.0, 30.0)]

  /** The box given to a keyed panel without a default. */
  const NewPanelBox := Box(0.0, 0.0, 50.0, 40.0)

  /** The box a panel takes in fullscreen. */
  const FullBox := Box(0.0, 0.0, 100.0, 70.0)

  /** A box inside the container with at least the minimum size. */
  predicate InBounds(b: Box) {
    && 0.0 <= b.x && 20.0 <= b.width && b.x + b.width <= 100.0
    && 0.0 <= b.y && 20.0 <= b.height && b.y + b.height <= 70.0
  }

  /** Every box in bounds, and the three default panels present. */
  predicate ValidPositions(ps: Positions) {
    && DefaultIds <= ps.Keys
    && forall id :: id in ps ==> InBounds(ps[id])
  }

  function Max(a: real, b: real): real { if a >= b then a else b }
  function Min(a: real, b: real): real { if a <= b then a else b }

  /** `Math.max(lo, Math.min(hi, v))`. */
  function Clamp(lo: real, hi: real, v: real): (r: real)
    ensures r >= lo
    ensures lo <= hi ==> r <= hi
    ensures lo <= v <= hi ==> r == v
  {
    Max(lo, Min(hi, v))
  }

  /**
   * The lazily built initial map: the defaults, then a fresh box for every
   * child with a truthy key that has none yet. `None` is an unkeyed child.
   */
  function InitialPositions(keys: seq<Option<string>>): (ps: Positions)
    ensures Defaults.Keys <= ps.Keys
    ensures forall id :: id in Defaults ==> ps[id] == Defaults[id]
    ensures forall i :: 0 <= i < |keys| && keys[i].Some? && keys[i].value != "" ==> keys[i].value in ps
    ensures forall id :: id in ps && id !in Defaults ==> ps[id] == NewPanelBox
    decreases |keys|
  {
    if keys == [] then Defaults
    else
      var ps := InitialPositions(keys[..|keys| - 1]);
      var k := keys[|keys| - 1];
      if k.Some? && k.value != "" && k.value !in ps then ps[k.value := NewPanelBox] else ps
  }

  /** Drag: only `x` and `y` of the panel change, clamped to keep the panel inside. */
  function Drag(ps: Positions, id: string, dx: real, dy: real): (r: Positions)
    requires id in ps
    ensures r.Keys == ps.Keys
    ensures forall other :: other in ps && other != id ==> r[other] == ps[other]
    ensures r[id].width == ps[id].width && r[id].height == ps[id].height
    ensures r[id].x == Clamp(0.0, 100.0 - ps[id].width, ps[id].x + dx / 10.0)
    ensures r[id].y == Clamp(0.0, 70.0 - ps[id].height, ps[id].y + dy / 10.0)
  {
    var b := ps[id];
    ps[id := b.(x := Clamp(0.0, 100.0 - b.width, b.x + dx / 10.0),
                y := Clamp(0.0, 70.0 - b.height, b.y + dy / 10.0))]
  }

  /** Resize: only `width` and `height` of the panel change, clamped to the container edge and the minimum. */
  function Resize(ps: Positions, id: string, dx: real, dy: real): (r: Positions)
    requires id in ps
    ensures r.Keys == ps.Keys
    ensures forall other :: other in ps && other != id ==> r[other] == ps[other]
    ensures r[id].x == ps[id].x && r[id].y == ps[id].y
    ensures r[id].width == Clamp(20.0, 100.0 - ps[id].x, ps[id].width + dx / 10.0)
    ensures r[id].height == Clamp(20.0, 70.0 - ps[id].y, ps[id].height + dy / 10.0)
  {
    var b := ps[id];
    ps[id := b.(width := Clamp(20.0, 100.0 - b.x, b.width + dx / 10.0),
                height := Clamp(20.0, 70.0 - b.y, b.height + dy / 10.0))]
  }

  /**
   * Fullscreen toggle: a panel at full size goes back to its default (a
   * panel without one is left with no position); any other goes full size.
   */
  function ToggleFullscreen(ps: Positions, id: string): (r: Positions)
    requires id in ps
    ensures forall other :: other in ps && other != id ==> other in r && r[other] == ps[other]
    ensures ps[id].width == 100.0 && ps[id].height == 70.0 && id in Defaults ==> id in r && r[id] == Defaults[id]
    ensures ps[id].width == 100.0 && ps[id].height == 70.0 && id !in Defaults ==> id !in r
    ensures !(ps[id].width == 100.0 && ps[id].height == 70.0) ==> id in r && r[id] == FullBox
  {
    if ps[id].width == 100.0 && ps[id].height == 70.0 then
      if id in Defaults then ps[id := Defaults[id]] else ps - {id}
    else ps[id := FullBox]
  }

  /** Drag and resize keep every box in bounds. */
  lemma DragResizeKeepBounds(ps: Positions, id: string, dx: real, dy: real)
    requires id in ps && ValidPositions(ps)
    ensures ValidPositions(Drag(ps, id, dx, dy))
    ensures ValidPositions(Resize(ps, id, dx, dy))
  {
    var b := ps[id];
    assert InBounds(b);
    var d := Drag(ps, id, dx, dy)[id];
    assert InBounds(d);
    var r := Resize(ps, id, dx, dy)[id];
    assert InBounds(r);
  }

  /** Toggling twice from a non-full default panel restores it. */
  lemma ToggleTwiceRestoresDefault(ps: Positions, id: string)
    requires id in ps && id in Defaults && ps[id] == Defaults[id]
    ensures ToggleFullscreen(ToggleFullscreen(ps, id), id) == ps
  {
  }

  /** The position used when drawing a panel; `None` means the panel is not drawn. */
  function RenderedBox(ps: Positions, id: string): (r: Option<Box>)
    ensures r.Some? <==> id in ps || id in Defaults
  {
    if id in ps then Some(ps[id])
    else if id in Defaults then Some(Defaults[id])
    else None
  }

  // ------------------------------------------------------- mouse interaction

  datatype Kind = DragKind | ResizeKind

  datatype State = State(positions: Positions, isDragging: bool, dragged: Option<string>, resized: Option<string>)

  /** `if (panelId)` on a nullable id. */
  predicate Set(id: Option<string>) {
    id.Some? && id.value != ""
  }

  function Initial(keys: seq<Option<string>>): State {
    State(InitialPositions(keys), false, None, None)
  }

  datatype Event =
    | MouseDown(id: string, kind: Kind)
    | MouseMove(dx: real, dy: real)
    | MouseUp
    | ResetLayout
    | Toggle(id: string)

  /** A mouse move: nothing unless dragging; then the drag part, then the resize part. `None`: the source throws. */
  function MouseMoveStep(st: State, dx: real, dy: real): (r: Option<State>)
    ensures !st.isDragging ==> r == Some(st)
    ensures r.Some? ==> r.value.isDragging == st.isDragging && r.value.dragged == st.dragged && r.value.resized == st.resized
  {
    if !st.isDragging then Some(st)
    else
      var afterDrag :=
        if Set(st.dragged) then
          (if st.dragged.value in st.positions then Some(Drag(st.positions, st.dragged.value, dx, dy)) else None)
        else Some(st.positions);
      if afterDrag.None? then None
      else if Set(st.resized) then
        (if st.resized.value in afterDrag.value
         then Some(st.(positions := Resize(afterDrag.value, st.resized.value, dx, dy)))
         else None)
      else Some(st.(positions := afterDrag.value))
  }

  /** One event. `None` for a press on a panel that is not drawn, or an event on which the source throws. */
  function Step(st: State, e: Event): Option<State> {
    match e
    case MouseDown(id, kind) =>
      if RenderedBox(st.positions, id).None? then None
      else if kind == DragKind then Some(st.(dragged := Some(id), isDragging := true))
      else Some(st.(resized := Some(id), isDragging := true))
    case MouseMove(dx, dy) => MouseMoveStep(st, dx, dy)
    case MouseUp => Some(st.(isDragging := false, dragged := None, resized := None))
    case ResetLayout => Some(st.(positions := Defaults))
    case Toggle(id) => if id in st.positions then Some(st.(positions := ToggleFullscreen(st.positions, id))) else None
  }

  function RunEvents(st: State, events: seq<Event>): Option<State>
    decreases |events|
  {
    if events == [] then Some(st)
    else match Step(st, events[0])
      case None => None
      case Some(next) => RunEvents(next, events[1..])
  }

  lemma DefaultsValid()
    ensures ValidPositions(Defaults)
  {
  }

  lemma InitialValid(keys: seq<Option<string>>)
    ensures ValidPositions(InitialPositions(keys))
  {
    var ps := InitialPositions(keys);
    forall id | id in ps ensures InBounds(ps[id]) {
      if id in Defaults {
        assert id in DefaultIds;
      }
    }
  }

  lemma StepKeepsValid(st: State, e: Event)
    requires ValidPositions(st.positions)
    requires Step(st, e).Some?
    ensures ValidPositions(Step(st, e).value.positions)
  {
    match e
    case MouseMove(dx, dy) =>
      if st.isDragging {
        var mid := st.positions;
        if Set(st.dragged) {
          DragResizeKeepBounds(st.positions, st.dragged.value, dx, dy);
          mid := Drag(st.positions, st.dragged.value, dx, dy);
        }
        if Set(st.resized) {
          DragResizeKeepBounds(mid, st.resized.value, dx, dy);
        }
      }
    case Toggle(id) =>
      var r := ToggleFullscreen(st.positions, id);
      forall k | k in r ensures InBounds(r[k]) {
        if k == id {
          if k in Defaults { assert k in DefaultIds; }
        }
      }
    case ResetLayout => DefaultsValid();
    case _ =>
  }

  /** Every box reachable from the initial layout stays inside the container with the minimum size. */
  lemma {:induction false} ReachableBoxesInBounds(st: State, events: seq<Event>)
    requires ValidPositions(st.positions)
    requires RunEvents(st, events).Some?
    ensures ValidPositions(RunEvents(st, events).value.positions)
    decreases |events|
  {
    if events != [] {
      StepKeepsValid(st, events[0]);
      ReachableBoxesInBounds(Step(st, events[0]).value, events[1..]);
    }
  }

  lemma InitialReachableInBounds(keys: seq<Option<string>>, events: seq<Event>, id: string)
    requires RunEvents(Initial(keys), events).Some?
    requires id in RunEvents(Initial(keys), events).value.positions
    ensures InBounds(RunEvents(Initial(keys), events).value.positions[id])
  {
    InitialValid(keys);
    ReachableBoxesInBounds(Initial(keys), events);
  }

  /** After a reset only the three default panels have positions: any other keyed panel is not drawn. */
  lemma ResetDropsExtraPanels(st: State, id: string)
    requires id !in DefaultIds
    ensures Step(st, ResetLayout).value.positions == Defaults
    ensures RenderedBox(Step(st, ResetLayout).value.positions, id) == None
  {
  }

  /** Mouse-up clears the dragging flag and both active panel ids. */
  lemma MouseUpClears(st: State)
    ensures var r := Step(st, MouseUp).value;
      !r.isDragging && r.dragged.None? && r.resized.None? && r.positions == st.positions
  {
  }
}
