# QuickFormatting floating toolbar — Dafny model

This project models the QuickFormatting extension's floating toolbar for the
SillyTavern chat box (`index.js`). The toolbar carries four buttons. Each one
wraps the chat text box's selection in a pair of formatting tags: `*`…`*`,
`"`…`"`, `(OOC: `…`)` and ```` ``` ````…```` ``` ````. A double click puts the
toolbar in edit mode. In edit mode it can be dragged and zoomed, and SAVE
leaves edit mode and writes the position and scale to storage.

Modules:

- `Wrappers` (`wrappers.dfy`): `Option`.
- `TagInsertion` (`tag_insertion.dfy`): `Wrap` is the pure value-and-selection
  transform of `insertTag`. `Delete` is used to state the round trip. The
  `TextArea` class models the text box and the three DOM operations
  `insertTag` uses (`focus`, `setRangeText`, `setSelectionRange`). The file
  also holds the button table.
- `Zoom` (`zoom.dfy`): the zoom buttons on a scale kept in integer tenths.
  The bounds 0.5 and 2.0 become 5 and 20, and the step 0.1 becomes 1.
- `ToolbarState` (`toolbar_state.dfy`): the module-level state (`isEditing`,
  `isDragging`, `settings`, plus what storage holds) as a value. It gives each
  handler as a function, a `Step`/`Run` over event sequences, and lemmas about
  every event sequence.
- `QuickFormatting` (`toolbar.dfy`): the `Toolbar` class. Its fields are the
  flags and the settings, and its handlers update them in place. Each method
  is specified by the matching `ToolbarState` function. `Valid()` is the
  invariant that, outside edit mode, the toolbar stands where the stored
  settings put it. `InsertTag` applies `Wrap` to a `TextArea`.

Behaviour of `index.js` that the model keeps as written:

- `handleMove` writes the pointer's absolute `clientX`/`clientY` as pixel values into `settings.x`/`settings.y` (index.js:184-185).
- A press during a drag just leaves `isDragging` set (index.js:169-171).
- The zoom handlers do not check `isEditing` (index.js:133-148).
- The scale loaded from storage is not clamped (index.js:19), so the scale bound holds for event sequences that start inside [0.5, 2.0].
- Positions are the `left`/`top` values index.js writes (index.js:66-67, 184-185).

## Model

| member | source | states |
|---|---|---|
| `TagInsertion.Wrap` | index.js:36-55 | The new value is longer by exactly the two tags. The new selection starts right after `startTag` and is as long as the old one. An empty selection gives a caret at `start + |startTag|`. |
| `TagInsertion.WrapLayout` | index.js:39-54 | In the new value the text before the selection stays in front, followed by `startTag`. The new selection holds exactly the originally selected text, `endTag` comes right after it, and the text after the old selection ends the value. |
| `TagInsertion.WrapThenDeleteTags` | index.js:39-46 | Deleting `|endTag|` characters after the new selection and then `|startTag|` characters at `start` gives back the original value. |
| `TagInsertion.WrapTwiceKeepsSelection` | index.js:49-54 | Wrapping the new selection again with another tag pair still selects the original text, now shifted by both start tags. |
| `TagInsertion.DialogueButtonExample` | index.js:9 | The dialogue button on `hello *world*` with `world` (7–12) selected gives `hello *"world"*` with 8–13 selected. |
| `TagInsertion.TextArea.Focus` | index.js:34 | Focusing changes neither the value nor the selection. |
| `TagInsertion.TextArea.SetRangeText` | index.js:43-44 | Replaces `[start, end)` by the replacement and selects the replacement. |
| `TagInsertion.TextArea.SetSelectionRange` | index.js:51-55 | Sets the selection, clamped to the value's length, and leaves the value unchanged. |
| `Zoom.ZoomOut` | index.js:133-137 | The result is never below 0.5. It is at most one step below the input and strictly smaller unless already at or below the floor. It maps [0.5, 2.0] into itself. |
| `Zoom.ZoomIn` | index.js:144-148 | The result is never above 2.0. It is at most one step above the input and strictly larger unless already at or above the ceiling. It maps [0.5, 2.0] into itself. Below the ceiling, zooming out undoes it. |
| `ToolbarState.Load` | index.js:18-23 | Start-up takes the stored settings, or the defaults `50%`, `85%`, 1.0 when none are stored. It starts not editing and not dragging, and its position is the persisted one. |
| `ToolbarState.ToggleEditMode` | index.js:82-90 | Sets the edit flag to `enable`. Leaving edit mode stores exactly the current settings; entering it stores nothing. Position, scale and drag flag are unchanged. |
| `ToolbarState.ZoomOutPressed` | index.js:133-137 | Only the scale changes, to `ZoomOut` of the old scale. Position, flags and storage stay, in any mode. |
| `ToolbarState.ZoomInPressed` | index.js:144-148 | Only the scale changes, to `ZoomIn` of the old scale. Position, flags and storage stay, in any mode. |
| `ToolbarState.HandleStart` | index.js:169-174 | Dragging becomes true exactly when editing (or it was already true). Outside edit mode, or during a drag, the state is unchanged. |
| `ToolbarState.HandleMove` | index.js:176-188 | Only when both dragging and editing hold is the position set, to exactly the pointer's pixel coordinates. Otherwise the state is unchanged. Scale, flags and storage never change. |
| `ToolbarState.HandleEnd` | index.js:190-193 | Dragging is false afterwards, from any state; nothing else changes. |
| `ToolbarState.RunKeepsScaleInRange` | index.js:133-150 | From a scale within [0.5, 2.0], no sequence of events takes the scale outside it. |
| `ToolbarState.RunKeepsPositionPersisted` | index.js:82-90 | Every event sequence keeps the invariant that, outside edit mode, the position equals the persisted one. |
| `ToolbarState.LoadedToolbarPositionPersisted` | index.js:14-23 | After start-up and any events, a toolbar out of edit mode stands where the stored settings (or the defaults) put it. |
| `ToolbarState.LockedToolbarStaysPut` | index.js:167-177 | From a locked toolbar, a sequence without a double click keeps it locked and leaves its position unchanged. |
| `ToolbarState.NoMoveWithoutPress` | index.js:169-193 | With no drag under way, moves cannot shift the toolbar until a press; dragging stays false. |
| `ToolbarState.LastMoveWins` | index.js:176-188 | During a drag in edit mode, a run of moves leaves the toolbar at the last pointer position; nothing else changes. |
| `QuickFormatting.Toolbar.constructor` | index.js:14-23 | The new toolbar's state is `Load(stored)`, and it satisfies the persisted-position invariant. |
| `QuickFormatting.Toolbar.ToggleEditMode` | index.js:82-90 | Updates the fields in place as `ToolbarState.ToggleEditMode` says, and keeps the invariant. |
| `QuickFormatting.Toolbar.HandleZoomOut` | index.js:133-137 | Updates the scale in place as `ZoomOutPressed` says, and keeps the invariant. |
| `QuickFormatting.Toolbar.HandleZoomIn` | index.js:144-148 | Updates the scale in place as `ZoomInPressed` says, and keeps the invariant. |
| `QuickFormatting.Toolbar.HandleStart` | index.js:169-174 | Updates the fields in place as `ToolbarState.HandleStart` says, and keeps the invariant. |
| `QuickFormatting.Toolbar.HandleMove` | index.js:176-188 | Updates the fields in place as `ToolbarState.HandleMove` says, and keeps the invariant. |
| `QuickFormatting.Toolbar.HandleEnd` | index.js:190-193 | Updates the fields in place as `ToolbarState.HandleEnd` says, and keeps the invariant. |
| `QuickFormatting.Toolbar.InsertTag` | index.js:28-59 | In edit mode, or with no text box, the box is untouched. Otherwise the box is focused, and its value and selection become `Wrap` of the old value and selection. |
| `QuickFormatting.DragAndSave` | index.js:167-193 | Entering edit mode, pressing, moving twice, releasing and saving leaves the toolbar at the last pointer position. It ends out of edit mode and not dragging, with that position and the old scale stored. |

## Left out

- Building the DOM, CSS classes and styles, and the `translate(-50%, -50%) scale(…)` transform (`updateStyles`, `createUI`). They only render the state modelled here.
- The `setRangeText` fallback branch that assigns `value` directly. It yields the same value, and `setSelectionRange` then overrides the selection in both branches, so only `setRangeText` is modelled.
- The `input` and `change` events `insertTag` dispatches, which notify the host page.
- Reading and writing `localStorage` as JSON, including the log line. Storage is the `saved` field, and start-up takes the stored settings as a parameter. Malformed JSON and stored objects with missing fields are not modelled.
- The 500 ms visibility poll on `send_textarea`, which is timer-driven DOM I/O.
- Event wiring: which DOM events reach which handler, `preventDefault`/`stopPropagation`, and the mobile `overflow` toggle. The `Event` type lists the handler calls directly.
- Zoom.ZoomOut: floating-point rounding of the 0.1 steps is not modelled; the scale is in integer tenths.
- Zoom.ZoomIn: floating-point rounding of the 0.1 steps is not modelled; the scale is in integer tenths.
- Pointer coordinates are integers. Fractional touch coordinates are not modelled.
- Text is a sequence of characters. JavaScript's UTF-16 code-unit indexing is not distinguished from it.
