/**
 * The main process as an object: the `app` flags, the module-level `tray`,
 * the window, its overlay and the dock are fields that the event handlers
 * update in place.  Each handler is proved to move the object from one
 * abstract state to the one its transition function in `Presence` gives, and
 * to keep `Presence.Consistent`.
 */
module MainProcess {
  import opened Base
  import opened Settings
  import opened Window
  import opened Links
  import opened Input
  import opened Presence

  class App {
    const platform: Platform
    /** The options the main window was created with. */
    const options: WindowOptions
    var flags: Flags
    var tray: TrayRef
    var overlay: Overlay
    var dockBadge: string
    var dockMenu: bool
    var window: Window
    var openDialogs: nat
    var quit: bool
    var log: seq<Effect>

    /** The abstract state of the process. */
    function Snapshot(): State
      reads this
    {
      State(platform, flags, tray, overlay, dockBadge, dockMenu, window, openDialogs, quit, log)
    }

    ghost predicate Valid()
      reads this
    {
      Consistent(Snapshot())
    }

    /**
     * The `ready` event: the window is created from the stored settings and
     * saved bounds, the launch arguments are checked for links, the flags are
     * read and the window is shown or minimized.
     */
    constructor Ready(platform: Platform, store: Store, saved: Bounds, downloads: string, argv: seq<string>)
      ensures Valid()
      ensures Snapshot() == Started(platform, store, downloads, argv)
      ensures options == MainWindowOptions(platform, store, saved)
    {
      this.platform := platform;
      options := MainWindowOptions(platform, store, saved);
      var link := FindLinkArg(argv);
      log := if link.Some? then [LinksDispatched(argv)] else [];
      var resolved := Resolve(store, downloads);
      flags := resolved;
      var w := Created;
      if !resolved.startMinimized {
        w := Focus(Show(w));
      } else {
        w := Blur(Minimize(w));
      }
      window := w;
      tray, overlay, dockBadge, dockMenu := NoTray, NoOverlay, "", false;
      openDialogs, quit := 0, false;
    }

    /** The window's `close` event. */
    method Close()
      requires Valid() && window.Open?
      modifies this
      ensures Valid() && Snapshot() == OnClose(old(Snapshot()))
    {
      if flags.closeToTray {
        window := Hide(window);
      } else if flags.showExitPrompt {
        openDialogs := openDialogs + 1;
      } else {
        if tray.Live? {
          tray := Destroyed;
        }
        window := Closed;
        overlay := NoOverlay;
      }
    }

    /** The user's answer to the exit confirmation (the button index). */
    method ExitResponse(response: int)
      requires Valid() && openDialogs > 0
      modifies this
      ensures Valid() && Snapshot() == OnExitResponse(old(Snapshot()), response)
    {
      openDialogs := openDialogs - 1;
      if response == 0 {
        flags := flags.(showExitPrompt := false);
        if tray.Live? {
          tray := Destroyed;
        }
        quit := true;
      }
    }

    /** `exitPrompt`, `closeToTray` and `preventEnter` from the command bus. */
    method SetFlag(s: FlagSetter, v: bool)
      requires Valid()
      modifies this
      ensures Valid() && Snapshot() == OnSetFlag(old(Snapshot()), s, v)
    {
      match s
      case ExitPrompt => flags := flags.(showExitPrompt := v);
      case CloseToTray => flags := flags.(closeToTray := v);
      case PreventEnter => flags := flags.(preventEnter := v);
    }

    /** `notificationBadge` from the command bus. */
    method NotificationBadge(v: bool)
      requires Valid()
      modifies this
      ensures Valid() && Snapshot() == OnNotificationBadge(old(Snapshot()), v)
    {
      flags := flags.(notificationBadge := v);
      if !flags.notificationBadge {
        if tray.Live? {
          tray := Live(NeutralIcon);
        }
        if window.Open? {
          overlay := NoOverlay;
        }
      }
    }

    /** `trayIcon` from the command bus. */
    method TrayIcon(enabled: bool)
      requires Valid()
      modifies this
      ensures Valid() && Snapshot() == OnTrayIcon(old(Snapshot()), enabled)
    {
      if enabled {
        if platform != Darwin {
          if tray == NoTray {
            tray := Live(NeutralIcon);
          }
        } else {
          dockMenu := true;
        }
      } else {
        tray := NoTray;
      }
    }

    /** The tray's `double-click` event. */
    method TrayDoubleClick()
      requires Valid() && tray.Live?
      modifies this
      ensures Valid() && Snapshot() == OnTrayDoubleClick(old(Snapshot()))
    {
      window := Show(window);
    }

    /** `message-indicator` from the command bus; with the window closed the forwarding call throws first. */
    method MessageIndicator(detail: Detail)
      requires Valid()
      modifies this
      ensures Valid() && Snapshot() == OnMessageIndicator(old(Snapshot()), detail)
    {
      if window.Open? {
        log := log + [IndicatorForwarded(detail)];
        if flags.notificationBadge {
          var unread := detail.messageCount.Some? && detail.messageCount.value != 0;
          if unread {
            match platform
            case Darwin =>
              dockBadge := DockDot;
            case Other =>
              if tray.Live? {
                tray := Live(NotificationIcon);
              }
              overlay := NotificationOverlay;
          } else {
            match platform
            case Darwin =>
              dockBadge := "";
            case Other =>
              if tray.Live? {
                tray := Live(NeutralIcon);
              }
              overlay := NoOverlay;
          }
        }
      }
    }

    /** The `second-instance` event with the other process's arguments. */
    method SecondInstance(argv: seq<string>)
      requires Valid()
      modifies this
      ensures Valid() && Snapshot() == OnSecondInstance(old(Snapshot()), argv)
    {
      if window.Open? {
        if window.minimized {
          window := Restore(window);
        }
        window := Show(window);
        window := Focus(window);
        var link := FindLinkArg(argv);
        if link.Some? {
          log := log + [LinksDispatched(argv)];
        }
      }
    }

    /** A web contents' `before-input-event`; the result says whether the event is suppressed. */
    method BeforeInputEvent(input: KeyInput) returns (suppressed: bool)
      requires Valid()
      modifies this
      ensures Valid() && Snapshot() == OnInput(old(Snapshot()), input)
      ensures suppressed == Suppressed(EnterAction(old(flags.preventEnter), input))
    {
      suppressed := false;
      if flags.preventEnter {
        if input.key == "Enter" && !input.shift && !input.control {
          log := log + [ShiftReturnSent];
          suppressed := true;
          return;
        }
        if input.key == "Enter" && input.control {
          log := log + [SendClicked];
          suppressed := true;
          return;
        }
      }
    }
  }
}
