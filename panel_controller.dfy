/**
 * The `useResizablePanels` hook as an object: the two width states, the drag
 * session held in `resizeRef.current`, the two `document.body.style` fields
 * the handlers write, and local storage. Each handler updates the fields in
 * place and is proved to take the object from `Snapshot()` to the state that
 * `ResizablePanels.Step` prescribes.
 *
 * This class is the model of the hook's code; `Step` is its specification,
 * and the properties proved about `Step` carry over to every handler call.
 */
module PanelController {
  import opened Wrappers
  import opened JsNumber
  import opened ResizablePanels

  class ResizablePanelsHook {
    var sidebarWidth: int
    var rightPanelWidth: int
    var resize: Option<ResizeState>
    var cursor: string
    var userSelect: string
    var storage: map<string, string>

    /** The fields as one state value. */
    ghost function Snapshot(): State
      reads this
    {
      State(sidebarWidth, rightPanelWidth, resize, cursor, userSelect, storage)
    }

    ghost predicate Valid()
      reads this
    {
      Invariant(Snapshot())
    }

    /**
     * Mounting the hook: each width read from `initialStorage`, then both
     * persistence effects run. The page style is whatever it was.
     */
    constructor (initialStorage: map<string, string>, bodyCursor: string, bodyUserSelect: string)
      ensures Valid()
      ensures Snapshot() == Init(initialStorage, bodyCursor, bodyUserSelect)
      ensures sidebarWidth == ReadStoredWidth(true, initialStorage, STORAGE_KEY_SIDEBAR,
                                              DEFAULT_SIDEBAR_WIDTH, MIN_SIDEBAR_WIDTH, MAX_SIDEBAR_WIDTH)
      ensures rightPanelWidth == ReadStoredWidth(true, initialStorage, STORAGE_KEY_RIGHT_PANEL,
                                                 DEFAULT_RIGHT_PANEL_WIDTH, MIN_RIGHT_PANEL_WIDTH,
                                                 MAX_RIGHT_PANEL_WIDTH)
      ensures resize == None
    {
      sidebarWidth := ReadStoredWidth(true, initialStorage, STORAGE_KEY_SIDEBAR,
                                      DEFAULT_SIDEBAR_WIDTH, MIN_SIDEBAR_WIDTH, MAX_SIDEBAR_WIDTH);
      rightPanelWidth := ReadStoredWidth(true, initialStorage, STORAGE_KEY_RIGHT_PANEL,
                                         DEFAULT_RIGHT_PANEL_WIDTH, MIN_RIGHT_PANEL_WIDTH,
                                         MAX_RIGHT_PANEL_WIDTH);
      resize := None;
      cursor := bodyCursor;
      userSelect := bodyUserSelect;
      new;
      storage := initialStorage[STORAGE_KEY_SIDEBAR := Show(sidebarWidth)];
      storage := storage[STORAGE_KEY_RIGHT_PANEL := Show(rightPanelWidth)];
      InitEstablishesInvariant(initialStorage, bodyCursor, bodyUserSelect);
    }

    /** The widths the hook hands to the view layer. */
    method Widths() returns (sidebar: int, rightPanel: int)
      requires Valid()
      ensures sidebar == sidebarWidth && rightPanel == rightPanelWidth
      ensures MIN_SIDEBAR_WIDTH <= sidebar <= MAX_SIDEBAR_WIDTH
      ensures MIN_RIGHT_PANEL_WIDTH <= rightPanel <= MAX_RIGHT_PANEL_WIDTH
    {
      sidebar, rightPanel := sidebarWidth, rightPanelWidth;
    }

    /** `setSidebarWidth` and its persistence effect. */
    method SetSidebarWidth(next: int)
      requires Valid()
      requires MIN_SIDEBAR_WIDTH <= next <= MAX_SIDEBAR_WIDTH
      modifies this
      ensures Valid()
      ensures Snapshot() == SetWidth(old(Snapshot()), Sidebar, next)
      ensures sidebarWidth == next && rightPanelWidth == old(rightPanelWidth)
      ensures storage == old(storage)[STORAGE_KEY_SIDEBAR := Show(next)]
      ensures resize == old(resize) && cursor == old(cursor) && userSelect == old(userSelect)
    {
      SetWidthPersists(Snapshot(), Sidebar, next);
      if next != sidebarWidth {
        sidebarWidth := next;
        storage := storage[STORAGE_KEY_SIDEBAR := Show(next)];
      }
    }

    /** `setRightPanelWidth` and its persistence effect. */
    method SetRightPanelWidth(next: int)
      requires Valid()
      requires MIN_RIGHT_PANEL_WIDTH <= next <= MAX_RIGHT_PANEL_WIDTH
      modifies this
      ensures Valid()
      ensures Snapshot() == SetWidth(old(Snapshot()), RightPanel, next)
      ensures rightPanelWidth == next && sidebarWidth == old(sidebarWidth)
      ensures storage == old(storage)[STORAGE_KEY_RIGHT_PANEL := Show(next)]
      ensures resize == old(resize) && cursor == old(cursor) && userSelect == old(userSelect)
    {
      SetWidthPersists(Snapshot(), RightPanel, next);
      if next != rightPanelWidth {
        rightPanelWidth := next;
        storage := storage[STORAGE_KEY_RIGHT_PANEL := Show(next)];
      }
    }

    /** `onSidebarResizeStart`: a mouse-down on the sidebar's handle at `x`. */
    method StartSidebar(x: int)
      requires Valid()
      modifies this
      ensures Valid()
      ensures Snapshot() == Step(old(Snapshot()), ResizeStart(Sidebar, x))
      ensures resize == Some(ResizeState(Sidebar, x, sidebarWidth))
      ensures cursor == RESIZE_CURSOR && userSelect == NO_USER_SELECT
      ensures sidebarWidth == old(sidebarWidth) && rightPanelWidth == old(rightPanelWidth)
      ensures storage == old(storage)
    {
      resize := Some(ResizeState(Sidebar, x, sidebarWidth));
      cursor := RESIZE_CURSOR;
      userSelect := NO_USER_SELECT;
    }

    /** `onRightPanelResizeStart`: a mouse-down on the right panel's handle at `x`. */
    method StartRightPanel(x: int)
      requires Valid()
      modifies this
      ensures Valid()
      ensures Snapshot() == Step(old(Snapshot()), ResizeStart(RightPanel, x))
      ensures resize == Some(ResizeState(RightPanel, x, rightPanelWidth))
      ensures cursor == RESIZE_CURSOR && userSelect == NO_USER_SELECT
      ensures sidebarWidth == old(sidebarWidth) && rightPanelWidth == old(rightPanelWidth)
      ensures storage == old(storage)
    {
      resize := Some(ResizeState(RightPanel, x, rightPanelWidth));
      cursor := RESIZE_CURSOR;
      userSelect := NO_USER_SELECT;
    }

    /** `handleMouseMove`: the window reports the pointer at `x`. */
    method Move(x: int)
      requires Valid()
      modifies this
      ensures Valid()
      ensures Snapshot() == Step(old(Snapshot()), MouseMove(x))
      ensures old(resize).None? ==> Snapshot() == old(Snapshot())
      ensures old(resize).Some? && old(resize).value.kind == Sidebar ==>
                && sidebarWidth == Clamp(old(resize).value.startWidth + (x - old(resize).value.startX),
                                         MIN_SIDEBAR_WIDTH, MAX_SIDEBAR_WIDTH)
                && rightPanelWidth == old(rightPanelWidth)
                && storage == old(storage)[STORAGE_KEY_SIDEBAR := Show(sidebarWidth)]
      ensures old(resize).Some? && old(resize).value.kind == RightPanel ==>
                && rightPanelWidth == Clamp(old(resize).value.startWidth - (x - old(resize).value.startX),
                                            MIN_RIGHT_PANEL_WIDTH, MAX_RIGHT_PANEL_WIDTH)
                && sidebarWidth == old(sidebarWidth)
                && storage == old(storage)[STORAGE_KEY_RIGHT_PANEL := Show(rightPanelWidth)]
      ensures resize == old(resize) && cursor == old(cursor) && userSelect == old(userSelect)
    {
      if resize.None? {
        return;
      }
      var current := resize.value;
      var delta := x - current.startX;
      if current.kind == Sidebar {
        var next := Clamp(current.startWidth + delta, MIN_SIDEBAR_WIDTH, MAX_SIDEBAR_WIDTH);
        SetSidebarWidth(next);
      } else {
        var next := Clamp(current.startWidth - delta, MIN_RIGHT_PANEL_WIDTH, MAX_RIGHT_PANEL_WIDTH);
        SetRightPanelWidth(next);
      }
    }

    /** `handleMouseUp`: the mouse button is released anywhere in the window. */
    method Up()
      requires Valid()
      modifies this
      ensures Valid()
      ensures Snapshot() == Step(old(Snapshot()), MouseUp)
      ensures resize.None?
      ensures old(resize).None? ==> Snapshot() == old(Snapshot())
      ensures old(resize).Some? ==> cursor == "" && userSelect == ""
      ensures sidebarWidth == old(sidebarWidth) && rightPanelWidth == old(rightPanelWidth)
      ensures storage == old(storage)
    {
      if resize.None? {
        return;
      }
      resize := None;
      cursor := "";
      userSelect := "";
    }
  }

  /** The sidebar drag from an empty store, driven through the handlers. */
  method SidebarDragScenario() returns (finalWidth: int, stored: string)
    ensures finalWidth == 420 && stored == "420"
  {
    var hook := new ResizablePanelsHook(map[], "", "");
    assert hook.sidebarWidth == DEFAULT_SIDEBAR_WIDTH;
    hook.StartSidebar(100);
    assert hook.resize == Some(ResizeState(Sidebar, 100, 280));
    hook.Move(150);
    assert hook.sidebarWidth == 330;
    hook.Move(500);
    assert hook.sidebarWidth == 420;
    hook.Up();
    finalWidth := hook.sidebarWidth;
    stored := hook.storage[STORAGE_KEY_SIDEBAR];
    assert Show(420) == "420";
  }
}
