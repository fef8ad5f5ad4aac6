/**
 * Reading the persisted `settings` store at startup: every process flag takes
 * the stored entry's value when the entry exists (even when that value is
 * false) and a fixed default otherwise; the main window's frame and geometry
 * options are computed from the same store and the saved window bounds.
 */
module Settings {
  import opened Base

  /**
   * The `settings` store.  Every entry is `{value}`; the entries read here as
   * booleans are in `bools`, the string-valued one (`defaultDownloadDir`) in
   * `texts`.  A key is present exactly when `settings.get(key)` is an object.
   */
  datatype Store = Store(bools: map<string, bool>, texts: map<string, string>)

  /** The process-wide flags the main process keeps on the `app` object. */
  datatype Flags = Flags(
    showExitPrompt: bool,
    closeToTray: bool,
    preventEnter: bool,
    notificationBadge: bool,
    startMinimized: bool,
    autoLaunch: bool,
    showSaveDialog: bool,
    defaultDownloadDir: string)

  /** The store keys of the boolean flags, in the order they are read. */
  const FlagKeys: seq<string> :=
    ["exitPrompt", "closeToTray", "preventEnter", "notificationBadge",
     "launchMinimized", "autoLaunch", "showSaveDialog"]

  /** The flag that a store key is read into. */
  function FlagFor(f: Flags, key: string): bool
    requires key in FlagKeys
  {
    match key
    case "exitPrompt" => f.showExitPrompt
    case "closeToTray" => f.closeToTray
    case "preventEnter" => f.preventEnter
    case "notificationBadge" => f.notificationBadge
    case "launchMinimized" => f.startMinimized
    case "autoLaunch" => f.autoLaunch
    case _ => f.showSaveDialog
  }

  /** The value a flag takes when its entry is missing. */
  function DefaultFor(key: string): bool {
    key == "showSaveDialog"
  }

  /** `settings.get(key) ? settings.get(key).value : otherwise`, for a boolean entry. */
  function BoolOr(s: Store, key: string, otherwise: bool): bool {
    if key in s.bools then s.bools[key] else otherwise
  }

  /**
   * The flags read when the application becomes ready; `downloads` is the
   * platform's downloads folder, the fallback for the download directory.
   */
  function Resolve(s: Store, downloads: string): (f: Flags)
    ensures forall k :: k in FlagKeys ==>
      FlagFor(f, k) == (if k in s.bools then s.bools[k] else DefaultFor(k))
    ensures f.defaultDownloadDir ==
      (if "defaultDownloadDir" in s.texts then s.texts["defaultDownloadDir"] else downloads)
  {
    Flags(
      BoolOr(s, "exitPrompt", false),
      BoolOr(s, "closeToTray", false),
      BoolOr(s, "preventEnter", false),
      BoolOr(s, "notificationBadge", false),
      BoolOr(s, "launchMinimized", false),
      BoolOr(s, "autoLaunch", false),
      BoolOr(s, "showSaveDialog", true),
      if "defaultDownloadDir" in s.texts then s.texts["defaultDownloadDir"] else downloads)
  }

  /** With nothing stored, every flag is off except the save dialog. */
  lemma EmptyStoreGivesDefaults(downloads: string)
    ensures Resolve(Store(map[], map[]), downloads) ==
      Flags(false, false, false, false, false, false, true, downloads)
  {
  }

  /** A stored `false` wins over the `true` default of `showSaveDialog`. */
  lemma StoredFalseIsKept(s: Store, downloads: string)
    requires "showSaveDialog" in s.bools && !s.bools["showSaveDialog"]
    ensures !Resolve(s, downloads).showSaveDialog
  {
  }

  /**
   * Writing one flag entry changes that flag to the written value and no
   * other flag; writing any other boolean key changes nothing.
   */
  lemma ResolveIsLocal(s: Store, key: string, v: bool, downloads: string)
    ensures key in FlagKeys ==> FlagFor(Resolve(Store(s.bools[key := v], s.texts), downloads), key) == v
    ensures forall k :: k in FlagKeys && k != key ==>
      FlagFor(Resolve(Store(s.bools[key := v], s.texts), downloads), k) == FlagFor(Resolve(s, downloads), k)
    ensures key !in FlagKeys ==> Resolve(Store(s.bools[key := v], s.texts), downloads) == Resolve(s, downloads)
  {
  }

  /** Saved window bounds; each is `null` until the window has been moved or resized. */
  datatype Bounds = Bounds(width: Option<int>, height: Option<int>, x: Option<int>, y: Option<int>)

  /** The options the main window is created with. */
  datatype WindowOptions = WindowOptions(
    minWidth: int,
    minHeight: int,
    width: Option<int>,
    height: Option<int>,
    x: Option<int>,
    y: Option<int>,
    backgroundColor: string,
    title: string,
    show: bool,
    frame: bool,
    titleBarStyle: bool)

  /** The window gets a native frame unless a custom title bar is asked for; macOS always has one. */
  function HasFrame(platform: Platform, s: Store): bool {
    if platform != Darwin then
      if "customTitlebar" in s.bools then !s.bools["customTitlebar"] else true
    else true
  }

  /** The options `createMainWindow` passes to the window constructor. */
  function MainWindowOptions(platform: Platform, s: Store, saved: Bounds): (o: WindowOptions)
    ensures o.minWidth == 400 && o.minHeight == 200 && !o.show
    ensures o.backgroundColor == "#383c49" && o.title == "WhatsApp Dev"
    ensures o.titleBarStyle == o.frame
    ensures platform == Darwin ==> o.frame
    ensures platform == Other ==>
      (!o.frame <==> "customTitlebar" in s.bools && s.bools["customTitlebar"])
    ensures BoolOr(s, "rememberWindowSize", false) ==> o.width == saved.width && o.height == saved.height
    ensures !BoolOr(s, "rememberWindowSize", false) ==> o.width == None && o.height == None
    ensures BoolOr(s, "rememberWindowPosition", false) ==> o.x == saved.x && o.y == saved.y
    ensures !BoolOr(s, "rememberWindowPosition", false) ==> o.x == None && o.y == None
  {
    var hasFrame := HasFrame(platform, s);
    var rememberSize := BoolOr(s, "rememberWindowSize", false);
    var rememberPosition := BoolOr(s, "rememberWindowPosition", false);
    WindowOptions(
      400, 200,
      if rememberSize then saved.width else None,
      if rememberSize then saved.height else None,
      if rememberPosition then saved.x else None,
      if rememberPosition then saved.y else None,
      "#383c49", "WhatsApp Dev",
      false, hasFrame, hasFrame)
  }

  /** Saved bounds matter only through the two "remember" settings. */
  lemma SavedBoundsNeedRemember(platform: Platform, s: Store, b1: Bounds, b2: Bounds)
    requires !BoolOr(s, "rememberWindowSize", false) && !BoolOr(s, "rememberWindowPosition", false)
    ensures MainWindowOptions(platform, s, b1) == MainWindowOptions(platform, s, b2)
  {
  }

  /** Geometry never comes from anywhere but the saved bounds. */
  lemma GeometryComesFromSavedBounds(platform: Platform, s: Store, saved: Bounds)
    ensures var o := MainWindowOptions(platform, s, saved);
      (o.width.Some? ==> o.width == saved.width) && (o.height.Some? ==> o.height == saved.height) &&
      (o.x.Some? ==> o.x == saved.x) && (o.y.Some? ==> o.y == saved.y)
  {
  }
}
