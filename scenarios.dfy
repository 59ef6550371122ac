/**
 * Complete interactions, checked against the contracts of the hook, the
 * dispatcher and the overlay alone.
 */
module Scenarios {
  import opened Wrappers
  import opened Text
  import opened KeyboardHook
  import opened Selection
  import opened Dispatch

  /** The tokens of A pressed with Ctrl and Shift held, and alone. */
  lemma ChordEmissions()
    ensures Emit(ModifierState(true, false, true), Event(0, WM_KEYDOWN, Other("A"))) == Some("CTRL+SHIFT+A")
    ensures Emit(ModifierState(false, false, false), Event(0, WM_KEYDOWN, Other("A"))) == Some("A")
  {
    EmitSpelledOut(ModifierState(true, false, true), Event(0, WM_KEYDOWN, Other("A")));
    EmitSpelledOut(ModifierState(false, false, false), Event(0, WM_KEYDOWN, Other("A")));
    ToUpperFixed("A");
    assert Prefix(ModifierState(true, false, true)) == "CTRL+" + "" + "SHIFT+";
    assert "CTRL+" + "" + "SHIFT+" + "A" == "CTRL+SHIFT+A";
  }

  /**
   * Pressing Ctrl, Shift and A sends "CTRL+SHIFT+A"; releasing the modifiers
   * and pressing A alone sends "A".
   */
  method ChordTokens() returns (tokens: seq<string>)
    ensures tokens == ["CTRL+SHIFT+A", "A"]
  {
    var hook := new Hook();
    hook.SetHook();
    hook.HookCallback(0, WM_KEYDOWN, LeftCtrl);
    hook.HookCallback(0, WM_KEYDOWN, RightShift);
    assert hook.delivered == [] && hook.State() == ModifierState(true, false, true);
    ChordEmissions();
    hook.HookCallback(0, WM_KEYDOWN, Other("A"));
    assert hook.delivered == ["CTRL+SHIFT+A"];
    hook.HookCallback(0, WM_KEYUP, LeftCtrl);
    hook.HookCallback(0, WM_KEYUP, RightShift);
    assert hook.State() == ModifierState(false, false, false);
    hook.HookCallback(0, WM_KEYDOWN, Other("A"));
    tokens := hook.delivered;
  }

  /**
   * With "CTRL+SHIFT+A" as the enter hotkey, the chord shows an overlay; the
   * token of A alone that follows neither hides it nor opens another.
   */
  method ChordOpensOverlay() returns (shown: bool, stillShown: bool, sameWindow: bool)
    ensures shown && stillShown && sameWindow
  {
    var tokens := ChordTokens();
    var app := new App("CTRL+SHIFT+A", "ESCAPE");
    app.OnHotkey(tokens[0]);
    var first := app.window;
    shown := first != null && first.visible;
    app.OnHotkey(tokens[1]);
    stillShown := app.window != null && app.window.visible;
    sameWindow := app.window == first;
  }

  /**
   * Dragging from (50, 50) up and left to (10, 10) and releasing captures the
   * rectangle at (10, 10) of size 40 by 40, and leaves the overlay hidden
   * with an empty canvas.
   */
  method DragUpLeft() returns (captured: seq<Region>, visible: bool, canvasEmpty: bool)
    ensures captured == [Region(10.0, 10.0, 40.0, 40.0)]
    ensures !visible && canvasEmpty
  {
    var w := new MainWindow();
    w.Show();
    w.MouseDown(true, Point(50.0, 50.0));
    w.MouseMove(Point(10.0, 10.0));
    w.MouseUp(true, true);
    captured := w.captures;
    visible := w.visible;
    canvasEmpty := w.children == [];
  }

  /**
   * A click without a move leaves the rectangle's size unset, so the capture
   * step fails: nothing is captured, the overlay is hidden, and the drag state
   * is left as it was.
   */
  method ClickWithoutMove() returns (captured: seq<Region>, visible: bool, dragging: bool)
    ensures captured == [] && !visible && dragging
  {
    var w := new MainWindow();
    w.Show();
    w.MouseDown(true, Point(20.0, 30.0));
    w.MouseUp(true, true);
    captured := w.captures;
    visible := w.visible;
    dragging := w.isDragging;
  }

  /**
   * Pressing the enter hotkey twice creates a second overlay and forgets the
   * first; the exit hotkey then closes only the second, and the first stays
   * visible.
   */
  method EnterTwiceThenExit() returns (firstVisible: bool, secondClosed: bool)
    ensures firstVisible && secondClosed
  {
    var app := new App("CTRL+SHIFT+A", "ESCAPE");
    app.OnHotkey("CTRL+SHIFT+A");
    var first := app.window;
    app.OnHotkey("CTRL+SHIFT+A");
    var second := app.window;
    app.OnHotkey("ESCAPE");
    firstVisible := first.visible;
    secondClosed := second.closed;
  }
}
