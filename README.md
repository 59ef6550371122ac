# ScreenCapture: hotkey, drag selection and dispatch, modelled in Dafny

ScreenCapture is a Windows tray utility. A global low-level keyboard hook
turns key events into hotkey tokens such as `CTRL+SHIFT+A`. When a token equals
the configured "enter capture mode" hotkey, the application opens a
transparent overlay window. On that overlay the user drags a rectangle with
the left mouse button. On release, the screen under the rectangle is captured
to the clipboard and/or a file, and the overlay hides itself.

This project models the three state machines at the centre of that flow:

- **Key-event normalizer** (`keyboard_hook.dfy`, module `KeyboardHook`).
  The class `Hook` holds the process-wide flags `ctrlPressed`, `altPressed` and
  `shiftPressed`, the `keys` list and whether an action is registered.
  `HookCallback` is proved against the pure step functions `Next` (flags) and
  `Emit` (token). The lemmas then prove what those promise:
  - a token is spelled out as `CTRL+`, `ALT+`, `SHIFT+` (in that order, each
    only if set) followed by the upper-cased key name;
  - splitting a token at `+` gives back its parts, so a token identifies its
    chord exactly;
  - after any event sequence, each flag reflects the latest event on either of
    its two keys, so the order in which modifiers were pressed does not matter.

  `string.ToUpperInvariant` is modelled as ASCII upper-casing and `string.Join`
  as the usual separator join (`text.dfy`, module `Text`).
- **Drag-rectangle selector** (`main_window.dfy`, module `Selection`).
  The class `MainWindow` holds `isDragging`, `startPoint`, the optional
  `rectangle` and the canvas child list. The WPF rectangle is an object
  (`Rect`) shared by `rectangle` and the canvas children, and MouseMove
  updates it in place. `DragRegion` is the reference geometry: a
  non-negative size, with the start and current points as opposite corners.
  MouseMove is proved to produce exactly that geometry.
- **Hotkey dispatcher** (`app.dfy`, module `Dispatch`). `App.OnHotkey` is the
  action passed to `KeyboardHook.SetHook`. The enter hotkey creates and shows a
  new overlay; the exit hotkey clears `MainWindow` and closes the current
  overlay; any other token changes nothing.

`scenarios.dfy` holds client methods that drive these classes only through
their contracts: the Ctrl+Shift+A scenario, the drag from (50,50) to (10,10),
a click without a move, and two enter presses followed by an exit.

Behaviour worth knowing, proved here:
- A second enter press replaces `window` by a fresh overlay and leaves the
  first one untouched, so it stays visible. A later exit press closes only the
  newer overlay (`Scenarios.EnterTwiceThenExit`).
- A click without a move leaves the rectangle's Width and Height unset. In
  WPF these are NaN, and the conversion to pixels throws. The handler's catch
  then only hides the window: nothing is captured, and the drag state is not
  reset (`Scenarios.ClickWithoutMove`). A capture step that throws for any
  other reason ends the same way in the model. Such a capture is not recorded
  in `captures`, even when the clipboard already received the image before a
  later file write threw.

Two behaviours of the code that are easy to miss (ScreenCapture/App.xaml.cs:42-51):
- On an enter press while an overlay exists, the code creates another
  overlay; it does not ignore the press.
- On an exit press, the code clears `Application.MainWindow` but leaves the
  `window` field pointing at the closed overlay.

Modelling choices:
- `wParam` is the raw message number, compared with the `WM_*` constants
  exactly as the hook compares it.
- The registered action is modelled as a flag plus the log `delivered` of
  the tokens it has received.
- One WPF rule from outside the repository is modelled: a newly constructed
  window becomes `Application.MainWindow` when none is set
  (`Dispatch.App.NewWindow`).
- The application starts with no main window (`Dispatch.App.constructor`).
  That holds only if App.xaml sets no `StartupUri`; App.xaml is not part of
  this model.
- Coordinates are `real`. `Show` on a closed window throws in WPF, so
  `Show` requires an open window; the application only shows fresh ones.

## Model

| member | source | states |
|---|---|---|
| `Text.UpperChar` | ScreenCapture/KeyboardHook.cs:273 | the result is never a lower-case ASCII letter; a lower-case letter maps to the upper-case letter at the same alphabet position; every other character is unchanged |
| `Text.ToUpper` | ScreenCapture/KeyboardHook.cs:273 | `ToUpperInvariant` over ASCII keeps the length and upper-cases each character in place |
| `Text.ToUpperAppend` | ScreenCapture/KeyboardHook.cs:273 | upper-casing a concatenation is concatenating the upper-cased halves |
| `Text.ToUpperFixed` | ScreenCapture/KeyboardHook.cs:273 | a string with no lower-case letters is its own upper-case form |
| `Text.ToUpperKeepsAbsent` | ScreenCapture/KeyboardHook.cs:273 | upper-casing neither creates nor removes a non-letter character such as `+` |
| `Text.Join` | ScreenCapture/KeyboardHook.cs:273 | `string.Join('+', keys)`: the parts with one separator between neighbours; the first part is a prefix of the result |
| `Text.JoinEndsWithLast` | ScreenCapture/KeyboardHook.cs:273 | a join ends with its last part |
| `Text.JoinHasSeparator` | ScreenCapture/KeyboardHook.cs:273 | with separator-free parts, the separator occurs in the join exactly when there are two or more parts |
| `KeyboardHook.TokenHasPlus` | ScreenCapture/KeyboardHook.cs:254-273 | for a `+`-free key name, the token contains `+` exactly when some modifier flag is set |
| `Text.Split` | ScreenCapture/KeyboardHook.cs:273 | splitting yields at least one piece, and no piece contains the separator |
| `Text.SplitPrefix` | ScreenCapture/KeyboardHook.cs:273 | a separator-free prefix is glued onto the first piece of what follows it |
| `Text.SplitJoin` | ScreenCapture/KeyboardHook.cs:273 | splitting undoes `string.Join` when no part contains the separator |
| `Text.JoinSplit` | ScreenCapture/KeyboardHook.cs:273 | joining the pieces of a split gives back the original string |
| `KeyboardHook.Key.Name` | ScreenCapture/KeyboardHook.cs:250 | `key.ToString()`: a modifier key's name is non-empty and holds no `+`; any other key prints as its enumeration name |
| `KeyboardHook.ModifierOf` | ScreenCapture/KeyboardHook.cs:66-79 | the switch's grouping: left and right Shift drive the shift flag, left and right Ctrl the ctrl flag, left and right Alt the alt flag, and every other key no flag |
| `KeyboardHook.Next` | ScreenCapture/KeyboardHook.cs:57-79 | after one event, a flag takes the event's down-ness (key-down or sys-key-down) when the hook code is non-negative and the key is one of its two keys, and keeps its value otherwise |
| `KeyboardHook.Emit` | ScreenCapture/KeyboardHook.cs:247-273 | a token is only produced for a key press with a non-negative hook code and a non-empty name, and never together with a change of the flags |
| `KeyboardHook.Token` | ScreenCapture/KeyboardHook.cs:254-273 | the joined, upper-cased parts are at least as long as the key name, and with no modifier set the token is just the upper-cased name |
| `KeyboardHook.ModifierState.Set` | ScreenCapture/KeyboardHook.cs:68-79 | overwriting one modifier's flag sets that flag to the given value and leaves the other two as they were |
| `KeyboardHook.JoinModifiers` | ScreenCapture/KeyboardHook.cs:254-273 | joining modifier names plus a key name with `+` is each modifier name followed by `+`, then the key name |
| `KeyboardHook.PrefixOfNames` | ScreenCapture/KeyboardHook.cs:256-268 | the set modifiers, each followed by `+`, read `CTRL+`, `ALT+`, `SHIFT+` in that fixed order |
| `KeyboardHook.PrefixUpper` | ScreenCapture/KeyboardHook.cs:256-273 | upper-casing leaves the modifier prefix unchanged |
| `KeyboardHook.TokenSpelledOut` | ScreenCapture/KeyboardHook.cs:254-273 | a token is `CTRL+` if ctrl is set, then `ALT+` if alt is set, then `SHIFT+` if shift is set, then the upper-cased key name, whatever order the modifiers were pressed in |
| `KeyboardHook.ModifierNamesPlusFree` | ScreenCapture/KeyboardHook.cs:256-268 | no modifier name contains `+` |
| `KeyboardHook.TokenParts` | ScreenCapture/KeyboardHook.cs:254-273 | splitting a token at `+` gives back the modifier names and the upper-cased key name |
| `KeyboardHook.NamesMembership` | ScreenCapture/KeyboardHook.cs:256-268 | `CTRL`, `ALT` or `SHIFT` appears among the parts exactly when its flag is set |
| `KeyboardHook.ModifierNamesInjective` | ScreenCapture/KeyboardHook.cs:256-268 | equal modifier-name lists come only from equal flags |
| `KeyboardHook.TokenIdentifiesChord` | ScreenCapture/KeyboardHook.cs:254-273 | two tokens for `+`-free key names are equal if and only if the flags are equal and the names agree up to case, so exact string matching of hotkeys distinguishes every chord |
| `KeyboardHook.RunReflectsLatest` | ScreenCapture/KeyboardHook.cs:66-79 | after any event sequence, each flag equals what the latest non-negative-code event on either of its keys made it (down or sys-down sets, anything else clears), or its initial value if there was none |
| `KeyboardHook.PressOrderIrrelevant` | ScreenCapture/KeyboardHook.cs:256-268 | two event sequences that leave each flag the same way give the same flags, and hence the same token for every key |
| `KeyboardHook.SharedFlag` | ScreenCapture/KeyboardHook.cs:68-79 | pressing one variant of a modifier and then releasing the other variant leaves the shared flag cleared |
| `KeyboardHook.EventEffects` | ScreenCapture/KeyboardHook.cs:57-79 | a negative hook code changes no flag and emits nothing; a modifier event sets only its own flag (to down or sys-down) and emits nothing; a non-modifier event never changes the flags; a release emits nothing |
| `KeyboardHook.EmitSpelledOut` | ScreenCapture/KeyboardHook.cs:247-273 | a token is emitted if and only if the hook code is non-negative, the key is not a modifier, the message is key-down or sys-key-down and the name is non-empty; the token is then the modifier prefix plus the upper-cased name |
| `KeyboardHook.Hook.constructor` | ScreenCapture/KeyboardHook.cs:16-22 | the three flags start false, `keys` is empty and no action is registered |
| `KeyboardHook.Hook.SetHook` | ScreenCapture/KeyboardHook.cs:39-43 | registers the action and changes nothing else |
| `KeyboardHook.Hook.BuildToken` | ScreenCapture/KeyboardHook.cs:254-273 | `keys` is cleared and refilled to exactly the set modifiers' names plus the key name, so a token never depends on earlier tokens; the return value is their joined, upper-cased form |
| `KeyboardHook.Hook.HookCallback` | ScreenCapture/KeyboardHook.cs:55-281 | the new flags are `Next` of the old ones; the action receives exactly `Emit`'s token when one is registered, and nothing otherwise; `keys` changes only when a token is built |
| `Selection.DragRegion` | ScreenCapture/MainWindow.xaml.cs:59-83 | the spanned rectangle's size is never negative, and the start and current points are its opposite corners on both axes |
| `Selection.DragDirectionIrrelevant` | ScreenCapture/MainWindow.xaml.cs:59-83 | dragging from a to b spans the same rectangle as dragging from b to a |
| `Selection.DragRegionSmallest` | ScreenCapture/MainWindow.xaml.cs:59-83 | every axis-aligned box holding both points contains the spanned rectangle |
| `Selection.Rect.constructor` | ScreenCapture/MainWindow.xaml.cs:30-38 | a new rectangle sits at the given point, with width and height unset |
| `Selection.MainWindow.constructor` | ScreenCapture/MainWindow.xaml.cs:12-19 | a new overlay is not dragging, has no rectangle and an empty canvas, is hidden and open, and has captured nothing |
| `Selection.MainWindow.Show` | ScreenCapture/App.xaml.cs:45 | `Window.Show` makes an open overlay visible and leaves the drag state alone |
| `Selection.MainWindow.Hide` | ScreenCapture/MainWindow.xaml.cs:144 | `Window.Hide` makes the overlay invisible and leaves the drag state alone |
| `Selection.MainWindow.Close` | ScreenCapture/App.xaml.cs:50 | `Window.Close` closes and hides the overlay and leaves the drag state alone |
| `Selection.MainWindow.MouseDown` | ScreenCapture/MainWindow.xaml.cs:21-49 | with the left button pressed, the overlay is dragging from the event position, and the canvas holds exactly one fresh rectangle placed there with its size unset; otherwise nothing changes |
| `Selection.MainWindow.MouseMove` | ScreenCapture/MainWindow.xaml.cs:51-91 | while dragging, the rectangle becomes `DragRegion(startPoint, position)`; no field of the window changes, and when not dragging the rectangle is untouched too |
| `Selection.MainWindow.MouseUp` | ScreenCapture/MainWindow.xaml.cs:93-152 | with the left button released, the window ends hidden; if there is no rectangle, or its size is set and the capture succeeds, exactly that rectangle (or nothing) is captured and the canvas, drag flag and rectangle are reset; if the capture throws, only the window is hidden; with the button not released nothing changes |
| `Dispatch.Classify` | ScreenCapture/App.xaml.cs:42-51 | a token means "enter" exactly when it equals the enter hotkey (which wins over an equal exit hotkey), "exit" exactly when it equals only the exit hotkey, and nothing otherwise |
| `Dispatch.App.constructor` | ScreenCapture/App.xaml.cs:9 | the application starts with no overlay and no main window, holding the two configured hotkeys |
| `Dispatch.App.NewWindow` | ScreenCapture/App.xaml.cs:44 | a fresh, hidden, idle overlay is created; it becomes the main window when none is set |
| `Dispatch.App.OnHotkey` | ScreenCapture/App.xaml.cs:38-52 | the enter hotkey stores a fresh visible overlay in `window` and leaves any previous overlay untouched; the exit hotkey clears the main window and closes the current overlay, if any, without clearing `window`; any other token changes nothing |
| `Scenarios.ChordEmissions` | ScreenCapture/KeyboardHook.cs:248-273 | A with Ctrl and Shift held emits `CTRL+SHIFT+A`; A alone emits `A` |
| `Scenarios.ChordTokens` | ScreenCapture/KeyboardHook.cs:55-281 | pressing Ctrl, right Shift and A, then releasing both modifiers and pressing A, delivers exactly `CTRL+SHIFT+A` and then `A` |
| `Scenarios.ChordOpensOverlay` | ScreenCapture/App.xaml.cs:38-52 | with `CTRL+SHIFT+A` as the enter hotkey, the chord shows an overlay, and the later plain `A` neither hides it nor replaces it |
| `Scenarios.DragUpLeft` | ScreenCapture/MainWindow.xaml.cs:59-83 | dragging from (50,50) to (10,10) and releasing captures the rectangle at (10,10) of size 40 by 40 and leaves the overlay hidden with an empty canvas |
| `Scenarios.ClickWithoutMove` | ScreenCapture/MainWindow.xaml.cs:93-152 | a press and release without a move captures nothing, hides the overlay and leaves it dragging |
| `Scenarios.EnterTwiceThenExit` | ScreenCapture/App.xaml.cs:42-51 | two enter presses and an exit press leave the first overlay visible and the second closed |

## Left out

- The hook plumbing is left out: `SetWindowsHookEx`, `UnhookWindowsHookEx`, `CallNextHookEx`, `GetModuleHandle` and the process-module lookup. These are foreign operating-system calls. `HookCallback` returns nothing, rather than `CallNextHookEx`'s result.
- Reading the virtual-key code (`Marshal.ReadInt32`) and `KeyInterop.KeyFromVirtualKey` are left out: the decoded `Key` is an input. Keys other than the six modifiers are one constructor carrying the enumeration name. The explicit non-modifier `case` labels all fall into the same branch as `default`.
- `ToUpperInvariant` is modelled on ASCII only. Key names are ASCII enumeration identifiers, so nothing is lost.
- The hook-thread timing budget and any concurrency are left out: events are processed one at a time.
- The screen capture itself is an opaque step. It receives the rectangle's geometry and is told whether it succeeds (`captureSucceeds`). Left out are the DPI conversion, `Convert.ToInt32`'s rounding, the screen size, copying the screen, cropping and PNG encoding (all of ScreenCapture/ImageHelpers.cs). Also left out are the clipboard and file sinks, with their time-stamped file name.
- Selection.MainWindow.MouseUp: delivery to the clipboard before a failed file write is not modelled. The capture step either runs to its end, and the rectangle is recorded in `captures`, or it throws, and nothing is recorded. In the source, `Clipboard.SetImage` (ScreenCapture/MainWindow.xaml.cs:127) runs before `SaveBitmapSourceToFile` (:136), so a failing file write still leaves the image on the clipboard.
- The rectangle's stroke brush and thickness are left out, along with the brush conversion from settings. So is an exception raised while building the rectangle in MouseDown.
- The MainWindow.xaml markup is not part of this model. The overlay's canvas is taken to start empty.
- Logging (Serilog), the tray icon and its Exit menu, `Application_Exit` and the dispatcher-exception handler are left out. They are platform glue.
- Settings are fixed when the application is constructed (`enterKey`, `exitKey`). The source reads them at each token, but nothing in the modelled code changes them.
