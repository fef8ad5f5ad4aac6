# Altus main process: presence and flag state machine

This project models the main process of Altus, a desktop messaging shell built on Electron.
It covers the part of `src/index.js` that is a small single-threaded state machine:

- the process flags kept on the `app` object (exit prompt, close to tray, prevent Enter,
  notification badge, launch minimized, and the rest read at startup);
- the module-level `tray` reference: null, live with an image, or destroyed but still referenced;
- the window's overlay icon, the macOS dock badge and dock menu, and the window's status;
- the quit flag and the pending exit confirmations;
- a log of effects that leave the process: the indicator forwarded to the window,
  link-handler dispatches, the Shift+Return injected into a web page, and the send
  button being clicked.

Every handler runs to completion on one event loop. Each event is therefore one
transition function, in module `Presence`, from the state before the event to the
state after it. The class `MainProcess.App` holds the same state as mutable fields.
Each of its methods is proved to perform exactly its transition and to keep the
invariant `Presence.Consistent`. That invariant says:

- the tray and the overlay exist only off macOS;
- the dock badge is set only on macOS, and only to the dot or to empty;
- the notification variants of the tray and the overlay show only while the
  notification-badge flag is on;
- a closed window has no overlay.

The pure decisions are plain functions:

- module `Settings`: how the stored settings resolve to flags with defaults, and the
  main window's frame and geometry options;
- module `Window`: the startup choice between showing and minimizing;
- module `Input`: how the Enter key is classified;
- module `Links`: how link arguments are recognised. `String.prototype.includes` and
  `Array.prototype.find` are loops there, proved against `IsInfix` and `HasLink`.

Modelling choices:

- Electron's window calls are modelled by their effect on three attributes: visible,
  minimized and focused. `show` shows and focuses, `hide` and `minimize` also blur,
  and `restore` clears minimized.
- A window whose close went ahead is `Closed`. The overlay icon belongs to the window
  and goes with it. A call on a closed window throws in Electron and ends the handler:
  - `message-indicator` does nothing at all, since forwarding to the window is its first step;
  - `notificationBadge` still stores the flag and resets the tray, but skips the final
    overlay call.
- The exit dialog, which is asynchronous, is a counter of open confirmations. Its
  answer is a method parameter.
- The process arguments, the stored settings, the saved window bounds and the
  downloads folder (`app.getPath("downloads")`) are parameters.
- The platform is fixed when the object is created.
- Settings entries are `{value}` objects. The boolean ones are a map from key to value;
  the one string entry read here, `defaultDownloadDir`, is in a second map. A key is
  present exactly when `settings.get(key)` returns an entry, so a stored `false` wins
  over the default.
- Turning the notification badge off does not touch the dock badge
  (src/index.js:295-301); `Presence.DockDotSurvivesDisable` shows the dot staying.

## Model

| member | source | states |
|---|---|---|
| `Links.Includes` | src/index.js:158 | returns true exactly when the pattern occurs somewhere in the argument |
| `Links.FindLinkArg` | src/index.js:158 | finds an argument iff some argument contains "whatsapp"; the one found is the first such, and it is non-empty (so the JavaScript test is truthy) |
| `Settings.Resolve` | src/index.js:179-202 | each flag is its stored entry's value when the entry exists, else false, except `showSaveDialog`, which defaults to true; the download directory falls back to the downloads folder |
| `Settings.EmptyStoreGivesDefaults` | src/index.js:179-202 | with an empty store every flag is off except the save dialog |
| `Settings.StoredFalseIsKept` | src/index.js:197-199 | a stored false for `showSaveDialog` overrides its true default |
| `Settings.ResolveIsLocal` | src/index.js:179-199 | writing one flag's entry sets exactly that flag and no other; writing any other key changes no flag |
| `Settings.MainWindowOptions` | src/index.js:72-105 | fixed minimum size 400x200, hidden at creation, title-bar style equals frame; on macOS always framed, elsewhere unframed iff `customTitlebar` is stored true; size and position come from the saved bounds iff their remember setting is on, else null |
| `Settings.SavedBoundsNeedRemember` | src/index.js:79-92 | with both remember settings off, the saved bounds do not affect the options |
| `Settings.GeometryComesFromSavedBounds` | src/index.js:89-92 | every non-null geometry option equals the saved bound |
| `Window.Launch` | src/index.js:209-215 | not launching minimized shows and focuses the window; launching minimized leaves it minimized, unfocused and not shown |
| `Window.BringToFront` | src/index.js:153-157 | restoring if minimized, then showing and focusing, leaves an open window visible, focused and not minimized |
| `Input.EnterAction` | src/index.js:402-421 | with prevent-Enter on, Enter without Shift or Ctrl becomes Shift+Return, and Ctrl+Enter clicks send; the input passes through iff the setting is off, the key is not Enter, or Shift is held without Ctrl |
| `Input.InjectedKeyPassesThrough` | src/index.js:404-408 | the injected Shift+Return is not intercepted again |
| `Input.OffMeansUntouched` | src/index.js:403 | with the setting off every input passes through |
| `Presence.Started` | src/index.js:164-215 | after `ready` the flags are the resolved settings; there is no tray, overlay or dock badge; the window follows the launch choice; exactly one link dispatch happens iff a launch argument is a link; the invariant holds |
| `Presence.OnClose` | src/index.js:111-121 | close-to-tray hides the window with no dialog, even when the exit prompt is on; otherwise the exit prompt opens one confirmation and changes nothing else; the window closes iff neither flag is set, and then no live tray remains but the reference is not cleared, and the window's overlay is gone; flags, log and quit are untouched |
| `Presence.OnExitResponse` | src/index.js:53-69 | response 0 turns the prompt off, destroys a live tray and quits, and nothing else changes; any other response changes nothing but the count of open dialogs |
| `Presence.OnSetFlag` | src/index.js:278-288 | a setter stores its value in its own flag and changes no other flag or state |
| `Presence.OnNotificationBadge` | src/index.js:295-301 | the flag takes the value; turning it off resets a live tray to the neutral icon and clears the overlay of an open window; turning it on changes nothing else; the dock badge is never touched |
| `Presence.OnTrayIcon` | src/index.js:303-323 | off macOS, enabling creates a neutral tray only when the reference is null; on macOS it only installs the dock menu; disabling always leaves the reference null; nothing else changes |
| `Presence.OnTrayDoubleClick` | src/index.js:310-312 | double-clicking the tray shows and focuses an open window, leaves minimized unchanged, and changes no other state |
| `Presence.OnMessageIndicator` | src/index.js:325-350 | with the window closed nothing happens; otherwise the detail is always forwarded; with the flag off nothing else changes; with it on, unread messages set the dock dot (macOS) or the notification tray icon and overlay (elsewhere), and no unread messages reset the same fields to neutral |
| `Presence.OnSecondInstance` | src/index.js:150-162 | with no window nothing happens; otherwise the window ends up visible, focused and not minimized, and the full argument vector is dispatched once iff some argument is a link |
| `Presence.OnInput` | src/index.js:402-421 | a key event changes only the effect log: it records the injected key or the send click, or nothing when the input passes through |
| `Presence.SecondInstanceDispatchesOnce` | src/index.js:150-162 | the number of link dispatches grows by exactly one iff the window exists and an argument is a link; no window is created |
| `Presence.ColdStartMatchesSecondInstance` | src/index.js:150-175 | a link at launch is dispatched exactly as a second instance with an open window dispatches it |
| `Presence.ExitDeclinedRestores` | src/index.js:53-69 | a close that opens the confirmation, followed by any answer other than OK, returns to the exact prior state |
| `Presence.ExitAcceptedQuits` | src/index.js:62-66 | OK after the confirmation quits with the prompt off and no live tray, leaving the window as it was |
| `Presence.MessageIndicatorIdempotent` | src/index.js:325-350 | repeating the same indicator changes nothing but the log (and not even that with the window closed) |
| `Presence.OnlyUnreadMatters` | src/index.js:328 | two indicators have the same effect on tray, overlay and dock when both or neither have unread messages |
| `Presence.BadgeDisableResetsTray` | src/index.js:295-301 | off macOS, disabling the badge after an unread indicator resets the tray and, for an open window, the overlay to neutral |
| `Presence.DockDotSurvivesDisable` | src/index.js:295-301 | on macOS, disabling the badge after an unread indicator with the window open leaves the dock dot |
| `Presence.TrayEnableIdempotent` | src/index.js:304-313 | a second enable is a no-op |
| `Presence.TrayDisableReArms` | src/index.js:317-321 | off macOS, disable followed by enable yields a fresh neutral tray |
| `Presence.ClosedTrayIsNotRecreated` | src/index.js:118-120 | after a close that destroyed the tray, enabling the tray does not create a new one, because the reference was not cleared |
| `MainProcess.App.Ready` | src/index.js:164-215 | the object starts in the state `Presence.Started` gives, with the window options `Settings.MainWindowOptions` gives |
| `MainProcess.App.Close` | src/index.js:111-121 | performs `Presence.OnClose` in place and keeps the invariant |
| `MainProcess.App.ExitResponse` | src/index.js:61-68 | performs `Presence.OnExitResponse` in place and keeps the invariant |
| `MainProcess.App.SetFlag` | src/index.js:278-288 | performs `Presence.OnSetFlag` in place and keeps the invariant |
| `MainProcess.App.NotificationBadge` | src/index.js:295-301 | performs `Presence.OnNotificationBadge` in place and keeps the invariant |
| `MainProcess.App.TrayIcon` | src/index.js:303-323 | performs `Presence.OnTrayIcon` in place and keeps the invariant |
| `MainProcess.App.TrayDoubleClick` | src/index.js:310-312 | performs `Presence.OnTrayDoubleClick` in place and keeps the invariant |
| `MainProcess.App.MessageIndicator` | src/index.js:325-350 | performs `Presence.OnMessageIndicator` in place and keeps the invariant |
| `MainProcess.App.SecondInstance` | src/index.js:150-162 | performs `Presence.OnSecondInstance` in place and keeps the invariant |
| `MainProcess.App.BeforeInputEvent` | src/index.js:402-421 | performs `Presence.OnInput` in place and reports suppression exactly when the Enter classification is not a pass-through |

## Left out

- Electron itself (`BrowserWindow`, `Tray`, `dialog`, `Menu`, `shell.openExternal`, `loadFile`, `webContents.send`) is not modelled. It appears only as abstract state or as entries in the effect log. Some things follow from that:
  - the tray's tooltip and context menu are not recorded;
  - a method called on a tray that was destroyed but is still referenced throws in Electron, which skips the rest of the handler. In the model that call changes nothing and the rest of the handler still runs. For example, the overlay calls after `tray.setImage` (src/index.js:298-299, 334-335, 344-345) are applied;
  - the effect of `app.quit()` (it closes windows, which fires `close` again) is only a flag.
- The single-instance lock and the early `app.exit(0)` of a second process (src/index.js:145-148) are out. The model is the primary process, in which the handlers are registered.
- Events that arrive before `ready` are out, and so is the `activate` handler, which re-creates the window on macOS (src/index.js:424-428). After that re-creation the command-bus handlers still refer to the first window, and the model keeps a single window.
- Persistence through `electron-store` is out, including the overwrite of `windowState` on resize and move (src/index.js:123-129). It is disk I/O through a library that is not part of this model.
- Partition pruning, cache clearing, session flush and the link handler's own logic (`./util/pruneUnusedPartitions`, `./util/clearCache`, `./ipcHandlers/main/flushSessionData`, `./util/handleWhatsappLinks`) are out. Those files are not part of this model, so only the call to the link handler is recorded.
- Settings import and export, close-tab prompting, zoom, `click-menu-item`, `getMenu` and `createCloneableMenuItem` are out. So are i18n and menu construction, the context menu (src/index.js:360-400), `AutoLaunch`, `electronDL`, `setAsDefaultProtocolClient` and `electron-reload`. These are foreign libraries or UI.
- The window-control commands (`minimize-window`, `maximize-window`, `restore-window`, `close-window`), `autoHideMenuBar`, `open-link` and the `blur` and `focus` relays to the renderer are out. They are direct Electron calls with no decision in them.
- `Presence.OnMessageIndicator`: the message count is modelled as an optional integer, so JavaScript truthiness of other values (NaN, strings) is not modelled.
- JavaScript's loose typing of the values sent with flag-setting commands is not modelled: the values are booleans.
