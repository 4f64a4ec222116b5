# Resizable panels controller

A model of the `useResizablePanels` hook of CodexMonitor (`src/hooks/useResizablePanels.ts`).
The hook lets the user drag two handles to resize a left sidebar and a right panel:

- the sidebar's width is kept in [220, 420] and defaults to 280;
- the right panel's width is kept in [200, 420] and defaults to 230;
- both widths are stored in local storage under their own keys (`codexmonitor.sidebarWidth` and `codexmonitor.rightPanelWidth`) and read back on the next start.

The project has four modules:

- `Wrappers`: an `Option` datatype.
- `JsNumber`: the two JavaScript conversions the hook uses, restricted to integers.
  - `Number` stands for `Number(raw)` together with `Number.isFinite`. It trims JavaScript white space, reads blank text as 0, accepts a signed run of decimal digits, and treats magnitudes of 2^1024 − 2^970 or more as infinite.
  - `Show` stands for `String(n)`.
  - Reading a rendered integer back gives the same integer (`NumberOfShow`).
- `ResizablePanels`: the pure part of the hook.
  - The constants, `Clamp` and `ReadStoredWidth`.
  - The controller written as a state machine. `State` holds both widths, the drag session (`resizeRef.current`), `document.body.style.cursor`/`userSelect` and storage. `Step` applies one event, `Run` applies a sequence of them.
  - `Invariant` says that both widths are in range and that storage holds each width's decimal text. It also says that while a drag is active the drag style is on.
- `PanelController`: the hook as a class `ResizablePanelsHook` with one field per piece of state.
  - The handlers `StartSidebar`, `StartRightPanel`, `Move` and `Up` update the fields in place.
  - Each handler is proved to move `Snapshot()` exactly as `Step` prescribes. The class is the model of the hook's code, and `Step` is its specification. The properties are proved about `Step`, so they hold for every handler call.
  - `Valid()` (the invariant) is kept by every handler.

Storage is a `map<string, string>`; the initial page style is a constructor parameter.
The `typeof window === "undefined"` branch is the `hasWindow` parameter of `ReadStoredWidth`; the constructor models a browser.

Behaviour of the code that is easy to overlook:

- The persistence effects also run once on mount. So the initial widths are written to storage even when nothing changed.
- A stored text of only white space is not a fallback case. `Number` reads it as 0, which is then clamped to the panel's minimum (`StoredWhitespaceExample`).
- A width setter called with the current value does not re-run the persistence effect; the model writes storage only when the width changes. Because of `Invariant`, storage ends up the same either way (`SetWidthPersists`).

## Model

| member | source | states |
|---|---|---|
| `ResizablePanels.PanelConstants` | src/hooks/useResizablePanels.ts:4-11 | each panel's default lies within its bounds, the two storage keys differ |
| `ResizablePanels.Clamp` | src/hooks/useResizablePanels.ts:19-21 | the result lies in [min, max] when min <= max; it is the value itself when already in range, the nearer bound otherwise; with an empty range the upper bound wins |
| `JsNumber.Number` | src/hooks/useResizablePanels.ts:31-32 | a finite reading is always strictly below the magnitude at which doubles overflow to infinity |
| `JsNumber.Show` | src/hooks/useResizablePanels.ts:58-65 | `String(width)`: the text is non-empty and is decimal digits, after a leading minus sign for negative values; `NumberOfShow` proves `Number` reads it back |
| `JsNumber.NumberIgnoresPadding` | src/hooks/useResizablePanels.ts:31 | white space (JavaScript's set, including line terminators) before and after a stored text does not change how `Number` reads it |
| `JsNumber.NumberOfShow` | src/hooks/useResizablePanels.ts:58 | the decimal text written for any finite integer is non-empty and `Number` reads it back as that integer |
| `ResizablePanels.ReadStoredWidth` | src/hooks/useResizablePanels.ts:23-36 | no window, an absent or empty entry, or a NaN/infinite reading gives the fallback; any finite reading gives that reading clamped into [min, max] (so an in-range reading is returned as is); the result is in [min, max] whenever the fallback is |
| `ResizablePanels.InitialWidth` | src/hooks/useResizablePanels.ts:39-54 | the `useState` initialiser of a panel: the result is within that panel's bounds, and it is either the panel's default or a finite stored reading clamped to the panel's range |
| `ResizablePanels.InitialWidthInRange` | src/hooks/useResizablePanels.ts:39-54 | whatever storage holds, each panel's initial width is within its bounds, and an absent key gives the panel's default |
| `ResizablePanels.ReloadRestoresWidth` | src/hooks/useResizablePanels.ts:23-36 | after an in-range width is persisted under a panel's key, the next read of that key returns exactly that width |
| `ResizablePanels.StoredOutOfRangeExample` | src/hooks/useResizablePanels.ts:35 | a stored sidebar text "9999" gives width 420 |
| `ResizablePanels.StoredWhitespaceExample` | src/hooks/useResizablePanels.ts:31-35 | a blank but non-empty stored text reads as 0 and gives the sidebar minimum 220 |
| `ResizablePanels.StoredNonFiniteExample` | src/hooks/useResizablePanels.ts:32-34 | a stored text "Infinity" gives the right panel's default 230 |
| `ResizablePanels.MoveTarget` | src/hooks/useResizablePanels.ts:73-88 | the width a move asks for is within the dragged panel's bounds; it is the start width plus the pointer delta (sidebar) or minus it (right panel) when that is in range, else the nearer bound |
| `ResizablePanels.Init` | src/hooks/useResizablePanels.ts:39-66 | mounting: both widths come from their initialisers, there is no session, the page style is kept, both keys hold the widths' decimal text, and every other storage key is untouched |
| `ResizablePanels.SetWidth` | src/hooks/useResizablePanels.ts:57-66 | a setter plus its persistence effect: the panel takes the new width and the other panel, session and style are kept; setting the current value changes nothing (React's bail-out); otherwise only that panel's key is rewritten |
| `ResizablePanels.Step` | src/hooks/useResizablePanels.ts:68-132 | one handler call: a resize start records {panel, x, current width}; a move keeps the session; a mouse-up ends it; without a session a move or mouse-up changes nothing; only moves change widths or storage |
| `ResizablePanels.Run` | src/hooks/useResizablePanels.ts:68-106 | events applied in order by the window listeners; no events change nothing, and without a session any run of moves and mouse-ups changes nothing |
| `ResizablePanels.InitEstablishesInvariant` | src/hooks/useResizablePanels.ts:39-66 | mounting from any storage ends with both widths in range, both keys holding the widths' decimal text, and no drag session |
| `ResizablePanels.ReloadRestoresState` | src/hooks/useResizablePanels.ts:39-66 | mounting again from the storage a controller left behind restores both widths and leaves storage unchanged |
| `ResizablePanels.SetWidthPersists` | src/hooks/useResizablePanels.ts:57-66 | after a width change the panel's key holds the new width's decimal text; the other panel's width and key, the session and the page style are untouched |
| `ResizablePanels.StepPreservesInvariant` | src/hooks/useResizablePanels.ts:68-132 | every handler keeps both widths in range and storage in step with them |
| `ResizablePanels.RunPreservesInvariant` | src/hooks/useResizablePanels.ts:68-132 | for every sequence of drag events both widths stay within their bounds |
| `ResizablePanels.MoveFollowsPointer` | src/hooks/useResizablePanels.ts:73-88 | during a sidebar drag a move sets the sidebar to clamp(startWidth + (x − startX), 220, 420) and leaves the right panel alone; during a right-panel drag it sets the right panel to clamp(startWidth − (x − startX), 200, 420) and leaves the sidebar alone; only the dragged panel's key is rewritten; session and style are kept |
| `ResizablePanels.IdleIgnoresPointer` | src/hooks/useResizablePanels.ts:69-94 | with no drag session a move and a mouse-up change nothing |
| `ResizablePanels.MouseUpEndsSession` | src/hooks/useResizablePanels.ts:91-98 | a mouse-up leaves no session, resets cursor and user-select to "" when a drag was active, keeps widths and storage, and a second mouse-up changes nothing (idempotent) |
| `ResizablePanels.ResizeStartRecordsSession` | src/hooks/useResizablePanels.ts:108-132 | a resize start records {panel, startX = x, startWidth = that panel's current width}, replacing any earlier session, sets "col-resize" and "none", and keeps widths and storage |
| `ResizablePanels.LaterMoveOverrides` | src/hooks/useResizablePanels.ts:73-88 | two consecutive moves give the same state as the second alone |
| `ResizablePanels.MovesDependOnLastOnly` | src/hooks/useResizablePanels.ts:68-89 | after any non-empty run of moves the state depends only on the session and the last pointer position |
| `ResizablePanels.SidebarDragExample` | src/hooks/useResizablePanels.ts:73-98 | from an empty store: sidebar drag from x=100 at width 280; move to 150 gives 330; move to 500 gives 420; after release the width is 420 and "420" is stored |
| `ResizablePanels.RightPanelDragExample` | src/hooks/useResizablePanels.ts:82-88 | right-panel drag from x=300 at width 230; move to 250 gives 280 |
| `PanelController.ResizablePanelsHook.constructor` | src/hooks/useResizablePanels.ts:39-66 | the fields equal `Init` of the given storage: both widths read through `ReadStoredWidth`, no session, both keys written; the invariant holds |
| `PanelController.ResizablePanelsHook.Widths` | src/hooks/useResizablePanels.ts:134-139 | the widths handed to the view are the current ones and lie within their bounds |
| `PanelController.ResizablePanelsHook.SetSidebarWidth` | src/hooks/useResizablePanels.ts:57-59 | the sidebar takes the new width and its key the new decimal text; everything else is unchanged |
| `PanelController.ResizablePanelsHook.SetRightPanelWidth` | src/hooks/useResizablePanels.ts:61-66 | the right panel takes the new width and its key the new decimal text; everything else is unchanged |
| `PanelController.ResizablePanelsHook.StartSidebar` | src/hooks/useResizablePanels.ts:108-119 | the session becomes a sidebar session from x at the current sidebar width, the drag style is on, widths and storage are unchanged; the state moves as `Step` says |
| `PanelController.ResizablePanelsHook.StartRightPanel` | src/hooks/useResizablePanels.ts:121-132 | the same for the right panel |
| `PanelController.ResizablePanelsHook.Move` | src/hooks/useResizablePanels.ts:69-89 | without a session nothing changes; otherwise the dragged panel takes its clamped target, the other width is kept and only the dragged panel's key is rewritten; the state moves as `Step` says |
| `PanelController.ResizablePanelsHook.Up` | src/hooks/useResizablePanels.ts:91-98 | afterwards there is no session; the style is reset to "" if a drag was active; without a session nothing changes; widths and storage are kept |
| `PanelController.SidebarDragScenario` | src/hooks/useResizablePanels.ts:73-98 | driving the handlers from an empty store through start at 100, moves to 150 and 500, and release leaves width 420 with "420" stored |

## Left out

- React machinery is not modelled: `useState`, `useRef`, `useEffect`, `useCallback`, dependency arrays and render timing. Each setter and its persistence effect is one field and map update inside the handler. A move is applied at once, not at the next render.
- Adding and removing the window `mousemove`/`mouseup` listeners (lines 100-105) is left out. The model calls `Move` and `Up` directly.
- `document.body.style` is two string fields; `window.localStorage` is a map that never fails. The source does not handle quota errors either.
- The constructor models only the browser case. The server-side branch exists only as the `hasWindow` flag of `ReadStoredWidth`.
- Widths and pointer coordinates are integers. Fractional `clientX` values and non-integer widths are not modelled.
- JsNumber.Number: stated weaker than JavaScript's `Number`. Numeric text that is not a signed decimal integer (fractions such as "250.5", exponents such as "1e3", hex such as "0x10") reads as `None`. JavaScript would read such text as a finite number and the hook would clamp it.
- ResizablePanels.ReadStoredWidth: because of that, such text gives the fallback here instead of the clamped number.
- JsNumber.Show: decimal notation only. JavaScript's `String` uses exponent notation from 10^21 on, but only clamped widths (at most 420) are ever rendered.
- A pointer released outside the window is not handled by the source, so the model has no cancellation path either.
