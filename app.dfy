/**
 * The hotkey dispatcher: the action registered with the keyboard hook. It
 * compares each token with the two configured hotkeys and opens or closes the
 * capture overlay.
 */
module Dispatch {
  import opened Selection

  /** What a token asks for, by exact comparison with the configured hotkeys. */
  datatype Command = EnterCapture | ExitCapture | Ignore

  /**
   * The enter hotkey is compared first, so it wins when both settings hold the
   * same string; a token equal to neither is ignored.
   */
  function Classify(token: string, enterKey: string, exitKey: string): (c: Command)
    ensures c == EnterCapture <==> token == enterKey
    ensures c == ExitCapture <==> token != enterKey && token == exitKey
    ensures c == Ignore <==> token != enterKey && token != exitKey
  {
    if token == enterKey then EnterCapture
    else if token == exitKey then ExitCapture
    else Ignore
  }

  class App {
    /** The `EnterCaptureModeKey` and `ExitCaptureModeKey` settings. */
    const enterKey: string
    const exitKey: string
    /** The overlay last created. */
    var window: MainWindow?
    /** `Application.Current.MainWindow`. */
    var mainWindow: MainWindow?

    constructor (enterKey: string, exitKey: string)
      ensures this.enterKey == enterKey && this.exitKey == exitKey
      ensures window == null && mainWindow == null
    {
      this.enterKey := enterKey;
      this.exitKey := exitKey;
      window := null;
      mainWindow := null;
    }

    /**
     * Creates an overlay. WPF makes a newly constructed window the
     * application's main window when none is set.
     */
    method NewWindow() returns (w: MainWindow)
      modifies this
      ensures fresh(w) && w.Valid()
      ensures !w.isDragging && w.rectangle == null && w.children == []
      ensures !w.visible && !w.closed && w.captures == []
      ensures mainWindow == if old(mainWindow) == null then w else old(mainWindow)
      ensures window == old(window)
    {
      w := new MainWindow();
      if mainWindow == null {
        mainWindow := w;
      }
    }

    /** The action invoked with every token the keyboard hook emits. */
    method OnHotkey(key: string)
      modifies this, window
      ensures Classify(key, enterKey, exitKey) == EnterCapture ==>
                && window != null && fresh(window) && window.Valid()
                && window.visible && !window.closed
                && !window.isDragging && window.rectangle == null && window.captures == []
                && mainWindow == (if old(mainWindow) == null then window else old(mainWindow))
                && (old(window) != null ==> unchanged(old(window)))
      ensures Classify(key, enterKey, exitKey) == ExitCapture ==>
                && mainWindow == null && window == old(window)
                && (window != null ==>
                      && window.closed && !window.visible
                      && window.isDragging == old(window.isDragging)
                      && window.rectangle == old(window.rectangle)
                      && window.captures == old(window.captures)
                      && window.children == old(window.children)
                      && window.startPoint == old(window.startPoint))
      ensures Classify(key, enterKey, exitKey) == Ignore ==>
                unchanged(this) && (window != null ==> unchanged(window))
    {
      if key == enterKey {
        window := NewWindow();
        window.Show();
      } else if key == exitKey {
        mainWindow := null;
        if window != null {
          window.Close();
        }
      }
    }
  }
}
