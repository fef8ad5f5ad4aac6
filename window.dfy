/**
 * The main window's observable status.  Electron's window calls are modelled
 * by their effect on three attributes: visible, minimized and focused (`show`
 * shows and focuses, `hide` and `minimize` also blur); a window whose close
 * went ahead is `Closed`, and these calls on it change nothing.
 */
module Window {

  datatype Window = Closed | Open(visible: bool, minimized: bool, focused: bool)

  /** The window as `new BrowserWindow({show: false})` leaves it. */
  const Created: Window := Open(false, false, false)

  function Show(w: Window): Window {
    match w
    case Closed => Closed
    case Open(_, m, _) => Open(true, m, true)
  }

  function Hide(w: Window): Window {
    match w
    case Closed => Closed
    case Open(_, m, _) => Open(false, m, false)
  }

  function Focus(w: Window): Window {
    match w
    case Closed => Closed
    case Open(v, m, _) => Open(v, m, true)
  }

  function Blur(w: Window): Window {
    match w
    case Closed => Closed
    case Open(v, m, _) => Open(v, m, false)
  }

  function Minimize(w: Window): Window {
    match w
    case Closed => Closed
    case Open(v, _, _) => Open(v, true, false)
  }

  function Restore(w: Window): Window {
    match w
    case Closed => Closed
    case Open(v, _, f) => Open(v, false, f)
  }

  /**
   * The startup choice: unless launching minimized the new window is shown
   * and focused, otherwise it is minimized and blurred.
   */
  function Launch(startMinimized: bool): (w: Window)
    ensures w.Open?
    ensures !startMinimized ==> w.visible && w.focused && !w.minimized
    ensures startMinimized ==> w.minimized && !w.focused && !w.visible
  {
    if !startMinimized then Focus(Show(Created)) else Blur(Minimize(Created))
  }

  /**
   * Bringing a window to the front (restore when minimized, show, focus)
   * leaves it visible, focused and not minimized, whatever it was before.
   */
  function BringToFront(w: Window): (r: Window)
    ensures w.Open? <==> r.Open?
    ensures r.Open? ==> r.visible && r.focused && !r.minimized
  {
    var w' := if w.Open? && w.minimized then Restore(w) else w;
    Focus(Show(w'))
  }
}
