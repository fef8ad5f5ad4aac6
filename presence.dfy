/**
 * The main process's presence and flag state machine, as values: the process
 * flags, the tray reference, the window overlay icon, the dock badge, the
 * window status, the quit flag and a log of effects sent outside the process
 * state.  Every event handler is a transition function from the state before
 * the event to the state after it.
 */
module Presence {
  import opened Base
  import opened Settings
  import opened Window
  import opened Links
  import opened Input

  /** The two images a tray can show. */
  datatype TrayImage = NeutralIcon | NotificationIcon

  /**
   * The module-level `tray` variable: `null`, a live tray showing an image,
   * or a tray that was destroyed while the variable still refers to it.
   */
  datatype TrayRef = NoTray | Live(image: TrayImage) | Destroyed

  /** The window's overlay icon: cleared (`null`) or the notification variant. */
  datatype Overlay = NoOverlay | NotificationOverlay

  /** The payload of a `message-indicator` message; the count may be missing. */
  datatype Detail = Detail(messageCount: Option<int>)

  /** Effects that leave the main process. */
  datatype Effect =
    | IndicatorForwarded(detail: Detail)   // `message-indicator` re-sent to the window
    | LinksDispatched(argv: seq<string>)   // the link handler called with an argument vector
    | ShiftReturnSent                      // a Shift+Return injected into a web contents
    | SendClicked                          // the page's send button clicked

  datatype State = State(
    platform: Platform,
    flags: Flags,
    tray: TrayRef,
    overlay: Overlay,
    dockBadge: string,
    dockMenu: bool,       // the tray menu has been installed as the dock menu
    window: Window,
    openDialogs: nat,     // exit confirmations shown and not yet answered
    quit: bool,
    log: seq<Effect>)

  /** The dock badge glyph shown while messages are unread. */
  const DockDot: string := "·"

  /**
   * What every reachable state satisfies: the tray and overlay exist only off
   * macOS, the dock badge only on macOS and only as the dot or empty, and the
   * notification variants of tray and overlay are shown only while the
   * notification-badge flag is on, and a closed window has no overlay.
   */
  predicate Consistent(p: State) {
    (p.platform == Darwin ==> p.tray == NoTray && p.overlay == NoOverlay) &&
    (p.platform == Other ==> p.dockBadge == "") &&
    (p.dockBadge == "" || p.dockBadge == DockDot) &&
    (p.tray == Live(NotificationIcon) ==> p.flags.notificationBadge) &&
    (p.overlay == NotificationOverlay ==> p.flags.notificationBadge) &&
    (p.window.Closed? ==> p.overlay == NoOverlay)
  }

  /** `if (tray) tray.destroy()`: the variable keeps referring to the dead tray. */
  function DestroyTray(t: TrayRef): TrayRef {
    if t.Live? then Destroyed else t
  }

  /** `if (tray) tray.setImage(img)`; a destroyed tray shows nothing. */
  function SetTrayImage(t: TrayRef, img: TrayImage): TrayRef {
    if t.Live? then Live(img) else t
  }

  /** `detail.messageCount` is truthy: present and non-zero. */
  predicate Unread(d: Detail) {
    d.messageCount.Some? && d.messageCount.value != 0
  }

  /** The number of link dispatches in a log. */
  function CountDispatches(log: seq<Effect>): nat {
    if log == [] then 0
    else CountDispatches(log[..|log| - 1]) + (if log[|log| - 1].LinksDispatched? then 1 else 0)
  }

  lemma {:induction false} CountAppend(a: seq<Effect>, b: seq<Effect>)
    ensures CountDispatches(a + b) == CountDispatches(a) + CountDispatches(b)
    decreases |b|
  {
    if b == [] {
      assert a + b == a;
    } else {
      assert (a + b)[..|a + b| - 1] == a + b[..|b| - 1];
      CountAppend(a, b[..|b| - 1]);
    }
  }

  /**
   * The state once the application is ready: flags resolved from the store,
   * no tray, no overlay, no dock badge, the window shown or minimized as the
   * launch setting says, and the launch arguments dispatched to the link
   * handler when one of them is a link.
   */
  function Started(platform: Platform, store: Store, downloads: string, argv: seq<string>): (p: State)
    ensures Consistent(p)
    ensures p.flags == Resolve(store, downloads)
    ensures p.window == Launch(p.flags.startMinimized)
    ensures p.tray == NoTray && p.overlay == NoOverlay && p.dockBadge == "" && !p.dockMenu
    ensures p.openDialogs == 0 && !p.quit
    ensures CountDispatches(p.log) == (if HasLink(argv) then 1 else 0)
    ensures forall i :: 0 <= i < |p.log| ==> p.log[i] == LinksDispatched(argv)
  {
    var flags := Resolve(store, downloads);
    var log := if HasLink(argv) then [LinksDispatched(argv)] else [];
    assert HasLink(argv) ==> log[..0] == [];
    State(platform, flags, NoTray, NoOverlay, "", false, Launch(flags.startMinimized), 0, false, log)
  }

  /**
   * The window's `close` event.  Close-to-tray wins: the close is cancelled and
   * the window hidden, with no dialog even when the exit prompt is on.  Else the
   * exit prompt cancels the close and opens the confirmation.  Else the close
   * goes ahead and a live tray is destroyed (its reference is not cleared);
   * the overlay goes with the window.
   */
  function OnClose(p: State): (t: State)
    requires p.window.Open?
    ensures t == p.(window := t.window, tray := t.tray, openDialogs := t.openDialogs, overlay := t.overlay)
    ensures t.window.Open? ==> t.overlay == p.overlay
    ensures t.window.Closed? ==> t.overlay == NoOverlay
    ensures p.flags.closeToTray ==>
      t.window == Open(false, p.window.minimized, false) && t.tray == p.tray && t.openDialogs == p.openDialogs
    ensures t.openDialogs == p.openDialogs + (if !p.flags.closeToTray && p.flags.showExitPrompt then 1 else 0)
    ensures t.openDialogs > p.openDialogs ==> t.window == p.window && t.tray == p.tray
    ensures t.window.Closed? <==> !p.flags.closeToTray && !p.flags.showExitPrompt
    ensures t.window.Closed? ==> !t.tray.Live? && (t.tray == NoTray <==> p.tray == NoTray)
    ensures Consistent(p) ==> Consistent(t)
  {
    if p.flags.closeToTray then p.(window := Hide(p.window))
    else if p.flags.showExitPrompt then p.(openDialogs := p.openDialogs + 1)
    else p.(tray := DestroyTray(p.tray), window := Closed, overlay := NoOverlay)
  }

  /**
   * The answer to the exit confirmation.  "OK" (response 0) turns the exit
   * prompt off, destroys a live tray and quits; any other answer leaves the
   * state exactly as it was.
   */
  function OnExitResponse(p: State, response: int): (t: State)
    requires p.openDialogs > 0
    ensures t.openDialogs == p.openDialogs - 1
    ensures response != 0 ==> t == p.(openDialogs := p.openDialogs - 1)
    ensures response == 0 ==>
      t == p.(openDialogs := t.openDialogs, flags := t.flags, tray := t.tray, quit := t.quit) &&
      t.quit && t.flags == p.flags.(showExitPrompt := false) && !t.tray.Live? &&
      (t.tray == NoTray <==> p.tray == NoTray)
    ensures Consistent(p) ==> Consistent(t)
  {
    var q := p.(openDialogs := p.openDialogs - 1);
    if response == 0 then
      q.(flags := q.flags.(showExitPrompt := false), tray := DestroyTray(q.tray), quit := true)
    else q
  }

  /** The three plain flag setters on the command bus. */
  datatype FlagSetter = ExitPrompt | CloseToTray | PreventEnter

  /** The flag a setter writes. */
  function SetterFlag(f: Flags, s: FlagSetter): bool {
    match s
    case ExitPrompt => f.showExitPrompt
    case CloseToTray => f.closeToTray
    case PreventEnter => f.preventEnter
  }

  /** A flag setter stores the value in its flag and changes nothing else. */
  function OnSetFlag(p: State, s: FlagSetter, v: bool): (t: State)
    ensures t == p.(flags := t.flags)
    ensures SetterFlag(t.flags, s) == v
    ensures forall s' :: s' != s ==> SetterFlag(t.flags, s') == SetterFlag(p.flags, s')
    ensures t.flags.(showExitPrompt := p.flags.showExitPrompt, closeToTray := p.flags.closeToTray,
                     preventEnter := p.flags.preventEnter) == p.flags
    ensures Consistent(p) ==> Consistent(t)
  {
    match s
    case ExitPrompt => p.(flags := p.flags.(showExitPrompt := v))
    case CloseToTray => p.(flags := p.flags.(closeToTray := v))
    case PreventEnter => p.(flags := p.flags.(preventEnter := v))
  }

  /**
   * `notificationBadge`: stores the flag; turning it off resets a live tray
   * to the neutral icon and clears the window's overlay.  The dock badge is
   * not touched.  With the window closed, the overlay call throws (the last
   * step of the handler), so only the flag and the tray change.
   */
  function OnNotificationBadge(p: State, v: bool): (t: State)
    ensures t == p.(flags := t.flags, tray := t.tray, overlay := t.overlay)
    ensures t.flags == p.flags.(notificationBadge := v)
    ensures v ==> t.tray == p.tray && t.overlay == p.overlay
    ensures !v ==> t.overlay == (if p.window.Open? then NoOverlay else p.overlay) && t.tray != Live(NotificationIcon)
    ensures !v ==> (t.tray.Live? <==> p.tray.Live?) && (!p.tray.Live? ==> t.tray == p.tray)
    ensures Consistent(p) ==> Consistent(t)
  {
    var q := p.(flags := p.flags.(notificationBadge := v));
    if !v then
      q.(tray := SetTrayImage(q.tray, NeutralIcon), overlay := if q.window.Open? then NoOverlay else q.overlay)
    else q
  }

  /**
   * `trayIcon`: enabling creates a neutral tray off macOS only when the
   * reference is null, and only installs the dock menu on macOS; disabling
   * destroys a live tray and always clears the reference.
   */
  function OnTrayIcon(p: State, enabled: bool): (t: State)
    ensures t == p.(tray := t.tray, dockMenu := t.dockMenu)
    ensures !enabled ==> t.tray == NoTray && t.dockMenu == p.dockMenu
    ensures enabled && p.platform == Darwin ==> t.tray == p.tray && t.dockMenu
    ensures enabled && p.platform == Other ==> t.dockMenu == p.dockMenu
    ensures enabled && p.platform == Other && p.tray == NoTray ==> t.tray == Live(NeutralIcon)
    ensures enabled && p.tray != NoTray ==> t.tray == p.tray
    ensures Consistent(p) ==> Consistent(t)
  {
    if enabled then
      if p.platform != Darwin then
        if p.tray == NoTray then p.(tray := Live(NeutralIcon)) else p
      else p.(dockMenu := true)
    else p.(tray := NoTray)
  }

  /** Double-clicking a live tray shows (and so focuses) the window. */
  function OnTrayDoubleClick(p: State): (t: State)
    requires p.tray.Live?
    ensures t == p.(window := t.window)
    ensures t.window.Open? <==> p.window.Open?
    ensures t.window.Open? ==> t.window.visible && t.window.focused && t.window.minimized == p.window.minimized
    ensures Consistent(p) ==> Consistent(t)
  {
    p.(window := Show(p.window))
  }

  /**
   * `message-indicator`: the detail is first forwarded to the window; with
   * the window closed that call throws and nothing happens.  With the badge
   * flag on, unread messages put the dot on the dock (macOS) or the
   * notification variants on the tray and overlay (elsewhere); no unread
   * messages reset the same fields to neutral.  With the flag off nothing
   * else changes.
   */
  function OnMessageIndicator(p: State, d: Detail): (t: State)
    ensures p.window.Closed? ==> t == p
    ensures t == p.(log := t.log, tray := t.tray, overlay := t.overlay, dockBadge := t.dockBadge)
    ensures p.window.Open? ==> t.log == p.log + [IndicatorForwarded(d)]
    ensures p.window.Open? && !p.flags.notificationBadge ==>
      t.tray == p.tray && t.overlay == p.overlay && t.dockBadge == p.dockBadge
    ensures p.window.Open? && p.flags.notificationBadge && p.platform == Darwin ==>
      t.dockBadge == (if Unread(d) then DockDot else "") && t.tray == p.tray && t.overlay == p.overlay
    ensures p.window.Open? && p.flags.notificationBadge && p.platform == Other ==>
      t.dockBadge == p.dockBadge &&
      t.tray == SetTrayImage(p.tray, if Unread(d) then NotificationIcon else NeutralIcon) &&
      t.overlay == (if Unread(d) then NotificationOverlay else NoOverlay)
    ensures Consistent(p) ==> Consistent(t)
  {
    var q := p.(log := p.log + [IndicatorForwarded(d)]);
    if p.window.Closed? then p
    else if !q.flags.notificationBadge then q
    else if Unread(d) then
      match q.platform
      case Darwin => q.(dockBadge := DockDot)
      case Other => q.(tray := SetTrayImage(q.tray, NotificationIcon), overlay := NotificationOverlay)
    else
      match q.platform
      case Darwin => q.(dockBadge := "")
      case Other => q.(tray := SetTrayImage(q.tray, NeutralIcon), overlay := NoOverlay)
  }

  /**
   * `second-instance`: with no window nothing happens.  Otherwise the window is
   * restored if minimized, shown and focused, and the forwarded arguments go to
   * the link handler when one of them is a link.
   */
  function OnSecondInstance(p: State, argv: seq<string>): (t: State)
    ensures p.window.Closed? ==> t == p
    ensures t == p.(window := t.window, log := t.log)
    ensures t.window.Open? <==> p.window.Open?
    ensures p.window.Open? ==> t.window.visible && t.window.focused && !t.window.minimized
    ensures t.log == p.log + (if p.window.Open? && HasLink(argv) then [LinksDispatched(argv)] else [])
    ensures Consistent(p) ==> Consistent(t)
  {
    if p.window.Closed? then p
    else
      p.(window := BringToFront(p.window),
         log := p.log + if HasLink(argv) then [LinksDispatched(argv)] else [])
  }

  /** A key event on a web contents: only the log can change. */
  function OnInput(p: State, input: KeyInput): (t: State)
    ensures t == p.(log := t.log)
    ensures EnterAction(p.flags.preventEnter, input) == PassThrough ==> t == p
    ensures EnterAction(p.flags.preventEnter, input) == SendShiftReturn ==> t.log == p.log + [ShiftReturnSent]
    ensures EnterAction(p.flags.preventEnter, input) == ClickSend ==> t.log == p.log + [SendClicked]
    ensures Consistent(p) ==> Consistent(t)
  {
    match EnterAction(p.flags.preventEnter, input)
    case PassThrough => p
    case SendShiftReturn => p.(log := p.log + [ShiftReturnSent])
    case ClickSend => p.(log := p.log + [SendClicked])
  }

  // ---- Properties relating several events ----

  /**
   * A second instance causes exactly one link dispatch when the window exists
   * and an argument is a link, and none otherwise; no window is created.
   */
  lemma SecondInstanceDispatchesOnce(p: State, argv: seq<string>)
    ensures var t := OnSecondInstance(p, argv);
      CountDispatches(t.log) == CountDispatches(p.log) + (if p.window.Open? && HasLink(argv) then 1 else 0) &&
      (p.window.Closed? ==> t.window.Closed?)
  {
    var t := OnSecondInstance(p, argv);
    var added := if p.window.Open? && HasLink(argv) then [LinksDispatched(argv)] else [];
    CountAppend(p.log, added);
    if added != [] {
      assert added[..0] == [];
    }
  }

  /** Cold start and a second instance dispatch the same arguments in the same way. */
  lemma ColdStartMatchesSecondInstance(platform: Platform, store: Store, downloads: string, argv: seq<string>, p: State)
    requires p.window.Open?
    ensures var t := OnSecondInstance(p, argv);
      t.log == p.log + Started(platform, store, downloads, argv).log
  {
  }

  /** Declining the exit confirmation returns to the state before the close request. */
  lemma ExitDeclinedRestores(p: State, response: int)
    requires p.window.Open? && !p.flags.closeToTray && p.flags.showExitPrompt
    requires response != 0
    ensures OnExitResponse(OnClose(p), response) == p
  {
  }

  /**
   * Accepting it turns the prompt off, leaves no live tray and quits, with the
   * window untouched (the quit itself is Electron's).
   */
  lemma ExitAcceptedQuits(p: State)
    requires p.window.Open? && !p.flags.closeToTray && p.flags.showExitPrompt
    ensures var t := OnExitResponse(OnClose(p), 0);
      t.quit && !t.flags.showExitPrompt && !t.tray.Live? && t.window == p.window && t.openDialogs == p.openDialogs
  {
  }

  /** Repeating a message-indicator event changes nothing but the log. */
  lemma MessageIndicatorIdempotent(p: State, d: Detail)
    ensures var once := OnMessageIndicator(p, d);
      OnMessageIndicator(once, d) ==
        once.(log := once.log + if p.window.Open? then [IndicatorForwarded(d)] else [])
  {
  }

  /** Only whether messages are unread matters, not the count itself. */
  lemma OnlyUnreadMatters(p: State, d1: Detail, d2: Detail)
    requires Unread(d1) == Unread(d2)
    ensures OnMessageIndicator(p, d1).(log := p.log) == OnMessageIndicator(p, d2).(log := p.log)
  {
  }

  /**
   * Off macOS, turning the badge flag off after an unread indicator resets the
   * tray and overlay to neutral without another indicator event.
   */
  lemma BadgeDisableResetsTray(p: State, d: Detail)
    requires p.platform == Other && p.flags.notificationBadge && Unread(d)
    ensures var t := OnNotificationBadge(OnMessageIndicator(p, d), false);
      t.overlay == (if p.window.Open? then NoOverlay else p.overlay) &&
      (p.tray.Live? ==> t.tray == Live(NeutralIcon)) && (!p.tray.Live? ==> t.tray == p.tray)
  {
  }

  /** On macOS the same toggle leaves the dock dot in place. */
  lemma DockDotSurvivesDisable(p: State, d: Detail)
    requires p.platform == Darwin && p.flags.notificationBadge && Unread(d)
    ensures OnNotificationBadge(OnMessageIndicator(p, d), false).dockBadge ==
      (if p.window.Open? then DockDot else p.dockBadge)
  {
  }

  /** A second enable is a no-op. */
  lemma TrayEnableIdempotent(p: State)
    ensures OnTrayIcon(OnTrayIcon(p, true), true) == OnTrayIcon(p, true)
  {
  }

  /** Disabling clears the reference, so enabling again creates a fresh tray. */
  lemma TrayDisableReArms(p: State)
    requires p.platform == Other
    ensures OnTrayIcon(OnTrayIcon(p, false), true).tray == Live(NeutralIcon)
  {
  }

  /**
   * A close that goes ahead destroys the tray without clearing the reference,
   * so a later enable does not create a new one.
   */
  lemma ClosedTrayIsNotRecreated(p: State)
    requires p.window.Open? && !p.flags.closeToTray && !p.flags.showExitPrompt && p.tray.Live?
    ensures OnTrayIcon(OnClose(p), true).tray == Destroyed
  {
  }
}
