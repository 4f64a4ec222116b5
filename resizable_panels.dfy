/**
 * The pure part of the two-panel resize controller: its constants, the clamp
 * helper, the stored-width reader, and the controller's state machine written
 * as functions over a state value.
 *
 * `Step` is the specification of one handler call; what the source promises
 * is proved here as lemmas about `Step`, `Init` and `Run`. The imperative
 * model of the hook itself is the class in `PanelController`, whose handlers
 * update fields in place and are proved to refine `Step`.
 */
module ResizablePanels {
  import opened Wrappers
  import opened JsNumber

  const STORAGE_KEY_SIDEBAR := "codexmonitor.sidebarWidth"
  const STORAGE_KEY_RIGHT_PANEL := "codexmonitor.rightPanelWidth"
  const MIN_SIDEBAR_WIDTH := 220
  const MAX_SIDEBAR_WIDTH := 420
  const MIN_RIGHT_PANEL_WIDTH := 200
  const MAX_RIGHT_PANEL_WIDTH := 420
  const DEFAULT_SIDEBAR_WIDTH := 280
  const DEFAULT_RIGHT_PANEL_WIDTH := 230

  /** The value written to `document.body.style` while a drag is active. */
  const RESIZE_CURSOR := "col-resize"
  const NO_USER_SELECT := "none"

  datatype PanelKind = Sidebar | RightPanel

  /** The drag session kept in `resizeRef.current` while a handle is held. */
  datatype ResizeState = ResizeState(kind: PanelKind, startX: int, startWidth: int)

  function MinWidth(k: PanelKind): int {
    match k
    case Sidebar => MIN_SIDEBAR_WIDTH
    case RightPanel => MIN_RIGHT_PANEL_WIDTH
  }

  function MaxWidth(k: PanelKind): int {
    match k
    case Sidebar => MAX_SIDEBAR_WIDTH
    case RightPanel => MAX_RIGHT_PANEL_WIDTH
  }

  function DefaultWidth(k: PanelKind): int {
    match k
    case Sidebar => DEFAULT_SIDEBAR_WIDTH
    case RightPanel => DEFAULT_RIGHT_PANEL_WIDTH
  }

  function StorageKey(k: PanelKind): string {
    match k
    case Sidebar => STORAGE_KEY_SIDEBAR
    case RightPanel => STORAGE_KEY_RIGHT_PANEL
  }

  function Other(k: PanelKind): PanelKind {
    match k
    case Sidebar => RightPanel
    case RightPanel => Sidebar
  }

  lemma PanelConstants(k: PanelKind)
    ensures MinWidth(k) <= DefaultWidth(k) <= MaxWidth(k)
    ensures StorageKey(k) != StorageKey(Other(k))
    ensures Other(k) != k && Other(Other(k)) == k
  {
  }

  /**
   * `Math.min(max, Math.max(min, value))`. With an empty range (min > max)
   * the upper bound wins.
   */
  function Clamp(value: int, min: int, max: int): (r: int)
    ensures min <= max ==> min <= r <= max
    ensures min <= value <= max ==> r == value
    ensures min <= max && value < min ==> r == min
    ensures value > max ==> r == max
    ensures max < min ==> r == max
  {
    var atLeastMin := if value < min then min else value;
    if atLeastMin < max then atLeastMin else max
  }

  /**
   * The width a panel starts with. Without a window (server rendering), with
   * no stored entry, with an empty entry, or with one that `Number` reads as
   * NaN or infinite, the fallback; otherwise the parsed value clamped.
   */
  function ReadStoredWidth(hasWindow: bool, storage: map<string, string>, key: string,
                           fallback: int, min: int, max: int): (r: int)
    ensures !hasWindow || key !in storage || storage[key] == "" ==> r == fallback
    ensures hasWindow && key in storage && storage[key] != "" && Number(storage[key]).None?
            ==> r == fallback
    ensures hasWindow && key in storage && storage[key] != "" && Number(storage[key]).Some?
            && min <= Number(storage[key]).value <= max
            ==> r == Number(storage[key]).value
    ensures hasWindow && key in storage && storage[key] != "" && Number(storage[key]).Some?
            ==> r == Clamp(Number(storage[key]).value, min, max)
    ensures min <= max && min <= fallback <= max ==> min <= r <= max
  {
    if !hasWindow then fallback
    else if key !in storage then fallback
    else
      var raw := storage[key];
      if raw == "" then fallback
      else
        var parsed := Number(raw);
        if parsed.None? then fallback
        else Clamp(parsed.value, min, max)
  }

  /**
   * The hook's `useState` initialiser for panel `k`, in a browser: the
   * panel's default, or a finite stored reading clamped to the panel's range.
   */
  function InitialWidth(k: PanelKind, storage: map<string, string>): (r: int)
    ensures MinWidth(k) <= r <= MaxWidth(k)
    ensures r == DefaultWidth(k)
            || (StorageKey(k) in storage && Number(storage[StorageKey(k)]).Some?
                && r == Clamp(Number(storage[StorageKey(k)]).value, MinWidth(k), MaxWidth(k)))
  {
    ReadStoredWidth(true, storage, StorageKey(k), DefaultWidth(k), MinWidth(k), MaxWidth(k))
  }

  /** Whatever storage holds, an initial width lies in its panel's range. */
  lemma InitialWidthInRange(k: PanelKind, storage: map<string, string>)
    ensures MinWidth(k) <= InitialWidth(k, storage) <= MaxWidth(k)
    ensures StorageKey(k) !in storage ==> InitialWidth(k, storage) == DefaultWidth(k)
  {
  }

  /** A persisted width in range is read back unchanged on the next start. */
  lemma ReloadRestoresWidth(k: PanelKind, storage: map<string, string>, w: int)
    requires MinWidth(k) <= w <= MaxWidth(k)
    ensures InitialWidth(k, storage[StorageKey(k) := Show(w)]) == w
  {
    NumberOfShow(w);
  }

  lemma StoredOutOfRangeExample()
    ensures InitialWidth(Sidebar, map[STORAGE_KEY_SIDEBAR := "9999"]) == MAX_SIDEBAR_WIDTH
  {
    NumberOfDigitsExample();
  }

  lemma StoredWhitespaceExample()
    ensures InitialWidth(Sidebar, map[STORAGE_KEY_SIDEBAR := "   "]) == MIN_SIDEBAR_WIDTH
  {
    NumberOfBlankExample();
  }

  lemma StoredNonFiniteExample()
    ensures InitialWidth(RightPanel, map[STORAGE_KEY_RIGHT_PANEL := "Infinity"])
            == DEFAULT_RIGHT_PANEL_WIDTH
  {
    NumberOfWordExample();
  }

  // ---------------------------------------------------------------------
  // The controller as a state machine
  // ---------------------------------------------------------------------

  /**
   * Everything the hook and its effects touch: the two width states, the
   * drag session, `document.body.style.cursor` / `.userSelect`, and local
   * storage.
   */
  datatype State = State(
    sidebarWidth: int,
    rightPanelWidth: int,
    resize: Option<ResizeState>,
    cursor: string,
    userSelect: string,
    storage: map<string, string>)

  /** Pointer events the controller reacts to. */
  datatype Event =
    | ResizeStart(kind: PanelKind, x: int)
    | MouseMove(x: int)
    | MouseUp

  function Width(s: State, k: PanelKind): int {
    match k
    case Sidebar => s.sidebarWidth
    case RightPanel => s.rightPanelWidth
  }

  /**
   * What the controller guarantees at every event boundary: both widths in
   * range, storage holding each width's decimal text under its own key, and
   * while a drag is active the drag affordance on and the session's start
   * width in range.
   */
  ghost predicate Invariant(s: State) {
    && MIN_SIDEBAR_WIDTH <= s.sidebarWidth <= MAX_SIDEBAR_WIDTH
    && MIN_RIGHT_PANEL_WIDTH <= s.rightPanelWidth <= MAX_RIGHT_PANEL_WIDTH
    && STORAGE_KEY_SIDEBAR in s.storage && s.storage[STORAGE_KEY_SIDEBAR] == Show(s.sidebarWidth)
    && STORAGE_KEY_RIGHT_PANEL in s.storage
    && s.storage[STORAGE_KEY_RIGHT_PANEL] == Show(s.rightPanelWidth)
    && (s.resize.Some? ==>
          && s.cursor == RESIZE_CURSOR && s.userSelect == NO_USER_SELECT
          && MinWidth(s.resize.value.kind) <= s.resize.value.startWidth <= MaxWidth(s.resize.value.kind))
  }

  /**
   * The state after mounting: both widths from storage, no drag session, the
   * page's style left as it was, and both persistence effects run once.
   */
  function Init(storage: map<string, string>, cursor: string, userSelect: string): (r: State)
    ensures r.sidebarWidth == InitialWidth(Sidebar, storage)
    ensures r.rightPanelWidth == InitialWidth(RightPanel, storage)
    ensures r.resize == None && r.cursor == cursor && r.userSelect == userSelect
    ensures STORAGE_KEY_SIDEBAR in r.storage && r.storage[STORAGE_KEY_SIDEBAR] == Show(r.sidebarWidth)
    ensures STORAGE_KEY_RIGHT_PANEL in r.storage
            && r.storage[STORAGE_KEY_RIGHT_PANEL] == Show(r.rightPanelWidth)
    ensures forall key :: key != STORAGE_KEY_SIDEBAR && key != STORAGE_KEY_RIGHT_PANEL ==>
              (key in r.storage <==> key in storage)
              && (key in storage ==> r.storage[key] == storage[key])
  {
    var sidebar := InitialWidth(Sidebar, storage);
    var right := InitialWidth(RightPanel, storage);
    State(sidebar, right, None, cursor, userSelect,
          storage[STORAGE_KEY_SIDEBAR := Show(sidebar)][STORAGE_KEY_RIGHT_PANEL := Show(right)])
  }

  /** The width a drag session asks for when the pointer is at `x`. */
  function MoveTarget(r: ResizeState, x: int): (w: int)
    ensures MinWidth(r.kind) <= w <= MaxWidth(r.kind)
    ensures var candidate := if r.kind == Sidebar then r.startWidth + (x - r.startX)
                             else r.startWidth - (x - r.startX);
            && (MinWidth(r.kind) <= candidate <= MaxWidth(r.kind) ==> w == candidate)
            && (candidate < MinWidth(r.kind) ==> w == MinWidth(r.kind))
            && (candidate > MaxWidth(r.kind) ==> w == MaxWidth(r.kind))
  {
    var delta := x - r.startX;
    match r.kind
    case Sidebar => Clamp(r.startWidth + delta, MIN_SIDEBAR_WIDTH, MAX_SIDEBAR_WIDTH)
    case RightPanel => Clamp(r.startWidth - delta, MIN_RIGHT_PANEL_WIDTH, MAX_RIGHT_PANEL_WIDTH)
  }

  /**
   * A width setter followed by its persistence effect. React skips both
   * when the new value equals the current one.
   */
  function SetWidth(s: State, k: PanelKind, w: int): (r: State)
    ensures Width(r, k) == w && Width(r, Other(k)) == Width(s, Other(k))
    ensures r.resize == s.resize && r.cursor == s.cursor && r.userSelect == s.userSelect
    ensures Width(s, k) == w ==> r == s
    ensures Width(s, k) != w ==> r.storage == s.storage[StorageKey(k) := Show(w)]
  {
    if Width(s, k) == w then s
    else match k
      case Sidebar => s.(sidebarWidth := w, storage := s.storage[STORAGE_KEY_SIDEBAR := Show(w)])
      case RightPanel =>
        s.(rightPanelWidth := w, storage := s.storage[STORAGE_KEY_RIGHT_PANEL := Show(w)])
  }

  /** One event: a handle's mouse-down, a window mouse move or a mouse up. */
  function Step(s: State, e: Event): (r: State)
    ensures e.ResizeStart? ==> r.resize == Some(ResizeState(e.kind, e.x, Width(s, e.kind)))
    ensures e.MouseMove? ==> r.resize == s.resize
    ensures e.MouseUp? ==> r.resize.None?
    ensures !e.ResizeStart? && s.resize.None? ==> r == s
    ensures !e.MouseMove? ==>
              r.sidebarWidth == s.sidebarWidth && r.rightPanelWidth == s.rightPanelWidth
              && r.storage == s.storage
  {
    match e
    case ResizeStart(k, x) =>
      s.(resize := Some(ResizeState(k, x, Width(s, k))),
         cursor := RESIZE_CURSOR, userSelect := NO_USER_SELECT)
    case MouseMove(x) =>
      if s.resize.None? then s
      else SetWidth(s, s.resize.value.kind, MoveTarget(s.resize.value, x))
    case MouseUp =>
      if s.resize.None? then s
      else s.(resize := None, cursor := "", userSelect := "")
  }

  /** A sequence of events, applied in order. */
  function Run(s: State, es: seq<Event>): (r: State)
    ensures es == [] ==> r == s
    ensures s.resize.None? && (forall i :: 0 <= i < |es| ==> !es[i].ResizeStart?) ==> r == s
    decreases |es|
  {
    if es == [] then s else Run(Step(s, es[0]), es[1..])
  }

  function Moves(xs: seq<int>): (es: seq<Event>)
    ensures |es| == |xs|
    ensures forall i :: 0 <= i < |xs| ==> es[i] == MouseMove(xs[i])
  {
    if xs == [] then [] else [MouseMove(xs[0])] + Moves(xs[1..])
  }

  // ---------------------------------------------------------------------
  // Properties
  // ---------------------------------------------------------------------

  /** Mounting establishes the invariant, whatever storage held before. */
  lemma InitEstablishesInvariant(storage: map<string, string>, cursor: string, userSelect: string)
    ensures Invariant(Init(storage, cursor, userSelect))
    ensures Init(storage, cursor, userSelect).resize == None
  {
  }

  /** Rebuilding the controller from the storage it left behind restores both widths. */
  lemma ReloadRestoresState(s: State, cursor: string, userSelect: string)
    requires Invariant(s)
    ensures Init(s.storage, cursor, userSelect).sidebarWidth == s.sidebarWidth
    ensures Init(s.storage, cursor, userSelect).rightPanelWidth == s.rightPanelWidth
    ensures Init(s.storage, cursor, userSelect).storage == s.storage
  {
    var st := s.storage;
    assert st == st[STORAGE_KEY_SIDEBAR := Show(s.sidebarWidth)];
    assert st == st[STORAGE_KEY_RIGHT_PANEL := Show(s.rightPanelWidth)];
    ReloadRestoresWidth(Sidebar, st, s.sidebarWidth);
    ReloadRestoresWidth(RightPanel, st, s.rightPanelWidth);
  }

  /** Setting a width keeps the storage for that panel in step and touches nothing else. */
  lemma SetWidthPersists(s: State, k: PanelKind, w: int)
    requires Invariant(s)
    requires MinWidth(k) <= w <= MaxWidth(k)
    ensures Width(SetWidth(s, k, w), k) == w
    ensures Width(SetWidth(s, k, w), Other(k)) == Width(s, Other(k))
    ensures SetWidth(s, k, w).storage == s.storage[StorageKey(k) := Show(w)]
    ensures SetWidth(s, k, w).resize == s.resize
    ensures SetWidth(s, k, w).cursor == s.cursor && SetWidth(s, k, w).userSelect == s.userSelect
    ensures Invariant(SetWidth(s, k, w))
  {
  }

  /** Every event keeps the invariant. */
  lemma StepPreservesInvariant(s: State, e: Event)
    requires Invariant(s)
    ensures Invariant(Step(s, e))
  {
  }

  /** Any sequence of events keeps both widths within their bounds. */
  lemma {:induction false} RunPreservesInvariant(s: State, es: seq<Event>)
    requires Invariant(s)
    ensures Invariant(Run(s, es))
    ensures MIN_SIDEBAR_WIDTH <= Run(s, es).sidebarWidth <= MAX_SIDEBAR_WIDTH
    ensures MIN_RIGHT_PANEL_WIDTH <= Run(s, es).rightPanelWidth <= MAX_RIGHT_PANEL_WIDTH
    decreases |es|
  {
    if es != [] {
      StepPreservesInvariant(s, es[0]);
      RunPreservesInvariant(Step(s, es[0]), es[1..]);
    }
  }

  /**
   * A move during a drag sets the dragged panel to its clamped target,
   * persists it under that panel's key only, and leaves the other panel,
   * the session and the page style alone.
   */
  lemma MoveFollowsPointer(s: State, x: int)
    requires Invariant(s) && s.resize.Some?
    ensures var r := s.resize.value;
            Width(Step(s, MouseMove(x)), r.kind) == MoveTarget(r, x)
    ensures s.resize.value.kind == Sidebar ==>
              && Step(s, MouseMove(x)).sidebarWidth
                 == Clamp(s.resize.value.startWidth + (x - s.resize.value.startX),
                          MIN_SIDEBAR_WIDTH, MAX_SIDEBAR_WIDTH)
              && Step(s, MouseMove(x)).rightPanelWidth == s.rightPanelWidth
    ensures s.resize.value.kind == RightPanel ==>
              && Step(s, MouseMove(x)).rightPanelWidth
                 == Clamp(s.resize.value.startWidth - (x - s.resize.value.startX),
                          MIN_RIGHT_PANEL_WIDTH, MAX_RIGHT_PANEL_WIDTH)
              && Step(s, MouseMove(x)).sidebarWidth == s.sidebarWidth
    ensures var r := s.resize.value;
            Step(s, MouseMove(x)).storage == s.storage[StorageKey(r.kind) := Show(MoveTarget(r, x))]
    ensures Step(s, MouseMove(x)).resize == s.resize
    ensures Step(s, MouseMove(x)).cursor == s.cursor
    ensures Step(s, MouseMove(x)).userSelect == s.userSelect
  {
  }

  /** Without a drag session, moves and mouse-ups change nothing. */
  lemma IdleIgnoresPointer(s: State, x: int)
    requires s.resize.None?
    ensures Step(s, MouseMove(x)) == s
    ensures Step(s, MouseUp) == s
  {
  }

  /**
   * A mouse-up ends any session and clears the page style, keeps widths and
   * storage, and a second mouse-up changes nothing more.
   */
  lemma MouseUpEndsSession(s: State)
    ensures Step(s, MouseUp).resize.None?
    ensures s.resize.Some? ==> Step(s, MouseUp).cursor == "" && Step(s, MouseUp).userSelect == ""
    ensures Step(s, MouseUp).sidebarWidth == s.sidebarWidth
    ensures Step(s, MouseUp).rightPanelWidth == s.rightPanelWidth
    ensures Step(s, MouseUp).storage == s.storage
    ensures Step(Step(s, MouseUp), MouseUp) == Step(s, MouseUp)
  {
  }

  /**
   * A resize start records the panel's current width and the pointer
   * position, replacing any earlier session, turns the drag style on, and
   * leaves the widths and storage as they were.
   */
  lemma ResizeStartRecordsSession(s: State, k: PanelKind, x: int)
    ensures Step(s, ResizeStart(k, x)).resize == Some(ResizeState(k, x, Width(s, k)))
    ensures Step(s, ResizeStart(k, x)).cursor == RESIZE_CURSOR
    ensures Step(s, ResizeStart(k, x)).userSelect == NO_USER_SELECT
    ensures Step(s, ResizeStart(k, x)).sidebarWidth == s.sidebarWidth
    ensures Step(s, ResizeStart(k, x)).rightPanelWidth == s.rightPanelWidth
    ensures Step(s, ResizeStart(k, x)).storage == s.storage
  {
  }

  /** Of two consecutive moves only the second one matters. */
  lemma LaterMoveOverrides(s: State, x1: int, x2: int)
    requires Invariant(s)
    ensures Step(Step(s, MouseMove(x1)), MouseMove(x2)) == Step(s, MouseMove(x2))
  {
  }

  /**
   * The state after any run of moves depends only on the session and the
   * last pointer position, not on the positions before it.
   */
  lemma {:induction false} MovesDependOnLastOnly(s: State, xs: seq<int>)
    requires Invariant(s) && xs != []
    ensures Run(s, Moves(xs)) == Step(s, MouseMove(xs[|xs| - 1]))
    decreases |xs|
  {
    var es := Moves(xs);
    assert es[0] == MouseMove(xs[0]);
    if |xs| == 1 {
      assert es[1..] == [];
    } else {
      var s1 := Step(s, MouseMove(xs[0]));
      StepPreservesInvariant(s, MouseMove(xs[0]));
      assert es[1..] == Moves(xs[1..]);
      MovesDependOnLastOnly(s1, xs[1..]);
      LaterMoveOverrides(s, xs[0], xs[|xs| - 1]);
    }
  }

  /**
   * A sidebar drag from an empty store: start at x = 100 with width 280,
   * move to 150 (width 330), move to 500 (width 420, the maximum), release.
   */
  lemma SidebarDragExample()
    ensures var s0 := Init(map[], "", "");
            && s0.sidebarWidth == 280 && s0.rightPanelWidth == 230
            && Run(s0, [ResizeStart(Sidebar, 100), MouseMove(150)]).sidebarWidth == 330
            && var s3 := Run(s0, [ResizeStart(Sidebar, 100), MouseMove(150), MouseMove(500), MouseUp]);
               s3.sidebarWidth == 420 && s3.storage[STORAGE_KEY_SIDEBAR] == "420"
               && s3.resize.None?
  {
    var s0 := Init(map[], "", "");
    assert s0.sidebarWidth == 280 && s0.rightPanelWidth == 230;
    var s1 := Step(s0, ResizeStart(Sidebar, 100));
    var s2 := Step(s1, MouseMove(150));
    assert s2.sidebarWidth == 330;
    var s3 := Step(s2, MouseMove(500));
    assert s3.sidebarWidth == 420;
    var s4 := Step(s3, MouseUp);
    assert s4.storage == s0.storage[STORAGE_KEY_SIDEBAR := Show(330)][STORAGE_KEY_SIDEBAR := Show(420)];
    assert Run(s0, [ResizeStart(Sidebar, 100), MouseMove(150)]) == s2 by {
      assert [ResizeStart(Sidebar, 100), MouseMove(150)][1..] == [MouseMove(150)];
    }
    assert Run(s0, [ResizeStart(Sidebar, 100), MouseMove(150), MouseMove(500), MouseUp]) == s4 by {
      var es := [ResizeStart(Sidebar, 100), MouseMove(150), MouseMove(500), MouseUp];
      assert es[1..] == [MouseMove(150), MouseMove(500), MouseUp];
      assert es[1..][1..] == [MouseMove(500), MouseUp];
      assert es[1..][1..][1..] == [MouseUp];
    }
    assert Show(420) == "420";
  }

  /** A right-panel drag: start at x = 300 with width 230, move to 250 (width 280). */
  lemma RightPanelDragExample()
    ensures var s0 := Init(map[], "", "");
            Step(Step(s0, ResizeStart(RightPanel, 300)), MouseMove(250)).rightPanelWidth == 280
  {
  }
}
