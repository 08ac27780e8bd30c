/** The toolbar's edit-mode / drag state machine as values: the two flags
    `isEditing` and `isDragging`, the `settings` record `{x, y, scale}` and
    what was last written to storage, and the effect of each handler on them. */
module ToolbarState {
  import opened Wrappers
  import Zoom

  /** A CSS position: a percentage (`'50%'`) or a pixel count (`'123px'`). */
  datatype Coord = Percent(pct: int) | Px(px: int)

  /** Position of the toolbar's centre and its scale in tenths. */
  datatype Settings = Settings(x: Coord, y: Coord, scale: int)

  /** The settings used when storage holds none. */
  const DefaultSettings: Settings := Settings(Percent(50), Percent(85), Zoom.DefaultScale)

  /** The module-level state; `saved` is the settings entry in storage. */
  datatype State = State(editing: bool, dragging: bool, settings: Settings, saved: Option<Settings>)

  /** The settings a reload would start from. */
  function Persisted(s: State): Settings {
    s.saved.GetOr(DefaultSettings)
  }

  /** The two settings place the toolbar at the same point. */
  predicate SamePosition(a: Settings, b: Settings) {
    a.x == b.x && a.y == b.y
  }

  /** Outside edit mode the toolbar stands where a reload would put it. */
  predicate PositionPersisted(s: State) {
    !s.editing ==> SamePosition(s.settings, Persisted(s))
  }

  /** The state on start-up: settings from storage, or the defaults when
      storage holds none; not editing, not dragging. */
  function Load(stored: Option<Settings>): (s: State)
    ensures !s.editing && !s.dragging && s.saved == stored
    ensures s.settings == Persisted(s)
    ensures PositionPersisted(s)
  {
    State(false, false, stored.GetOr(DefaultSettings), stored)
  }

  /** `toggleEditMode(enable)`: sets the edit flag; leaving edit mode writes
      the current settings to storage, entering it writes nothing. */
  function ToggleEditMode(s: State, enable: bool): (r: State)
    ensures r.editing == enable
    ensures r.dragging == s.dragging && r.settings == s.settings
    ensures enable ==> r.saved == s.saved
    ensures !enable ==> r.saved == Some(s.settings) && Persisted(r) == r.settings
    ensures PositionPersisted(r)
  {
    if enable then s.(editing := true) else s.(editing := false, saved := Some(s.settings))
  }

  /** The "-" button: changes the scale and nothing else, whatever the mode. */
  function ZoomOutPressed(s: State): (r: State)
    ensures r.settings.scale == Zoom.ZoomOut(s.settings.scale)
    ensures SamePosition(r.settings, s.settings)
    ensures r.editing == s.editing && r.dragging == s.dragging && r.saved == s.saved
  {
    s.(settings := s.settings.(scale := Zoom.ZoomOut(s.settings.scale)))
  }

  /** The "+" button: changes the scale and nothing else, whatever the mode. */
  function ZoomInPressed(s: State): (r: State)
    ensures r.settings.scale == Zoom.ZoomIn(s.settings.scale)
    ensures SamePosition(r.settings, s.settings)
    ensures r.editing == s.editing && r.dragging == s.dragging && r.saved == s.saved
  {
    s.(settings := s.settings.(scale := Zoom.ZoomIn(s.settings.scale)))
  }

  /** `handleStart`: a press on the toolbar starts a drag only in edit mode;
      otherwise nothing changes. A second press during a drag changes nothing. */
  function HandleStart(s: State): (r: State)
    ensures r.dragging == (s.dragging || s.editing)
    ensures r.editing == s.editing && r.settings == s.settings && r.saved == s.saved
    ensures !s.editing || s.dragging ==> r == s
  {
    if !s.editing then s else s.(dragging := true)
  }

  /** `handleMove`: only while dragging in edit mode, the toolbar jumps to
      the pointer's coordinates in pixels; the scale, the flags and storage
      never change. */
  function HandleMove(s: State, clientX: int, clientY: int): (r: State)
    ensures r.editing == s.editing && r.dragging == s.dragging && r.saved == s.saved
    ensures r.settings.scale == s.settings.scale
    ensures s.editing && s.dragging ==> r.settings.x == Px(clientX) && r.settings.y == Px(clientY)
    ensures !(s.editing && s.dragging) ==> r == s
  {
    if !s.dragging || !s.editing then s
    else s.(settings := s.settings.(x := Px(clientX), y := Px(clientY)))
  }

  /** `handleEnd`: releasing always ends the drag, in any state, and changes
      nothing else. */
  function HandleEnd(s: State): (r: State)
    ensures !r.dragging
    ensures r.editing == s.editing && r.settings == s.settings && r.saved == s.saved
  {
    s.(dragging := false)
  }

  /** What reaches the toolbar's handlers: a double click on it, the SAVE and
      zoom buttons, and pointer press, move and release. */
  datatype Event =
    | DoubleClick
    | SavePressed
    | ZoomOutClicked
    | ZoomInClicked
    | PointerDown
    | PointerMove(clientX: int, clientY: int)
    | PointerUp

  /** The handler an event runs. */
  function Step(s: State, e: Event): State {
    match e
    case DoubleClick => ToggleEditMode(s, true)
    case SavePressed => ToggleEditMode(s, false)
    case ZoomOutClicked => ZoomOutPressed(s)
    case ZoomInClicked => ZoomInPressed(s)
    case PointerDown => HandleStart(s)
    case PointerMove(x, y) => HandleMove(s, x, y)
    case PointerUp => HandleEnd(s)
  }

  /** The state after the events of `evs`, in order. */
  function Run(s: State, evs: seq<Event>): State
    decreases |evs|
  {
    if evs == [] then s else Run(Step(s, evs[0]), evs[1..])
  }

  /** Starting from a scale within [0.5, 2.0], no sequence of events takes it
      outside. */
  lemma {:induction false} RunKeepsScaleInRange(s: State, evs: seq<Event>)
    requires Zoom.InRange(s.settings.scale)
    ensures Zoom.InRange(Run(s, evs).settings.scale)
    decreases |evs|
  {
    if evs != [] {
      RunKeepsScaleInRange(Step(s, evs[0]), evs[1..]);
    }
  }

  /** Every handler keeps the toolbar, outside edit mode, where a reload
      would put it. */
  lemma {:induction false} RunKeepsPositionPersisted(s: State, evs: seq<Event>)
    requires PositionPersisted(s)
    ensures PositionPersisted(Run(s, evs))
    decreases |evs|
  {
    if evs != [] {
      RunKeepsPositionPersisted(Step(s, evs[0]), evs[1..]);
    }
  }

  /** From start-up, whatever happens, the toolbar outside edit mode stands
      where the stored settings (or the defaults) put it. */
  lemma LoadedToolbarPositionPersisted(stored: Option<Settings>, evs: seq<Event>)
    ensures var r := Run(Load(stored), evs);
            !r.editing ==> SamePosition(r.settings, Persisted(r))
  {
    RunKeepsPositionPersisted(Load(stored), evs);
  }

  /** Without a double click a locked toolbar stays locked and cannot move. */
  lemma {:induction false} LockedToolbarStaysPut(s: State, evs: seq<Event>)
    requires !s.editing
    requires forall i :: 0 <= i < |evs| ==> evs[i] != DoubleClick
    ensures !Run(s, evs).editing
    ensures SamePosition(Run(s, evs).settings, s.settings)
    decreases |evs|
  {
    if evs != [] {
      LockedToolbarStaysPut(Step(s, evs[0]), evs[1..]);
    }
  }

  /** Once no drag is under way, no move can shift the toolbar until a new
      press starts one. */
  lemma {:induction false} NoMoveWithoutPress(s: State, evs: seq<Event>)
    requires !s.dragging
    requires forall i :: 0 <= i < |evs| ==> evs[i] != PointerDown
    ensures !Run(s, evs).dragging
    ensures SamePosition(Run(s, evs).settings, s.settings)
    decreases |evs|
  {
    if evs != [] {
      NoMoveWithoutPress(Step(s, evs[0]), evs[1..]);
    }
  }

  /** During a drag in edit mode a run of moves leaves the toolbar at the
      last pointer position, whatever the earlier positions were. */
  lemma {:induction false} LastMoveWins(s: State, evs: seq<Event>)
    requires s.editing && s.dragging
    requires |evs| > 0
    requires forall i :: 0 <= i < |evs| ==> evs[i].PointerMove?
    ensures Run(s, evs) == s.(settings := s.settings.(x := Px(evs[|evs| - 1].clientX),
                                                     y := Px(evs[|evs| - 1].clientY)))
    decreases |evs|
  {
    if |evs| > 1 {
      LastMoveWins(Step(s, evs[0]), evs[1..]);
    }
  }
}
