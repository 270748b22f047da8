/** `TelegramWebAppManager` (`src/app/utils/telegramWebApp.js`): the object that
    finds `window.Telegram.WebApp` once, sets it up, and offers feature-guarded
    actions that report success as a boolean. */
module Bridge {
  import opened Js
  import opened Host

  /** A call the manager makes on the Telegram object. */
  datatype BridgeCall =
    | Expand
    | RequestFullscreen
    | EnableClosingConfirmation
    | DisableClosingConfirmation
    | SetHeaderColor(color: string)
    | SetBackgroundColor(color: string)
    | Ready
    | OnEvent(eventType: string)

  /** The memoised `initPromise`: none yet, waiting for the Telegram object, or
      resolved with a boolean. */
  datatype PromiseState = NoPromise | Pending | Settled(value: bool)

  const DefaultHeaderColor: string := "#7370fd"
  const DefaultBackgroundColor: string := "#ffffff"

  // ---------------------------------------------------------------------------
  // The calls each step makes

  /** The calls one guarded action makes: the call when the property is a
      function (it counts as made even when it throws), none otherwise. */
  function GuardedCalls(f: HostFn, call: BridgeCall): (r: seq<BridgeCall>)
    ensures |r| <= 1
    ensures r == [call] <==> IsFunction(f)
  {
    if IsFunction(f) then [call] else []
  }

  /** The calls `setThemeColors(header, background)` makes: the header call
      when that setter exists, then the background call when that setter
      exists and the header call did not throw. */
  function ThemeCalls(w: WebApp, header: string, background: string): (r: seq<BridgeCall>)
    ensures SetHeaderColor(header) in r <==> IsFunction(w.setHeaderColor)
    ensures SetBackgroundColor(background) in r <==>
      IsFunction(w.setBackgroundColor) && w.setHeaderColor != Callable(true)
    ensures |r| <= 2
  {
    if w.setHeaderColor == Callable(true) then [SetHeaderColor(header)]
    else GuardedCalls(w.setHeaderColor, SetHeaderColor(header))
         + GuardedCalls(w.setBackgroundColor, SetBackgroundColor(background))
  }

  /** The calls `setupEventListeners` makes: `onEvent` is not guarded, so a
      missing one makes no call and a throwing one stops after the first. */
  function EventCalls(w: WebApp): (r: seq<BridgeCall>)
    ensures w.onEvent.Absent? ==> r == []
    ensures w.onEvent == Callable(false) ==> r == [OnEvent("viewportChanged"), OnEvent("themeChanged")]
    ensures w.onEvent == Callable(true) ==> r == [OnEvent("viewportChanged")]
  {
    match w.onEvent
    case Absent => []
    case Callable(throws) =>
      if throws then [OnEvent("viewportChanged")] else [OnEvent("viewportChanged"), OnEvent("themeChanged")]
  }

  /** The calls `setupWebApp` makes on an object, in order. */
  function SetupCalls(w: WebApp): seq<BridgeCall> {
    GuardedCalls(w.expand, Expand)
    + GuardedCalls(w.requestFullscreen, RequestFullscreen)
    + GuardedCalls(w.enableClosingConfirmation, EnableClosingConfirmation)
    + ThemeCalls(w, DefaultHeaderColor, DefaultBackgroundColor)
    + GuardedCalls(w.ready, Ready)
    + EventCalls(w)
  }

  /** The calls of `setupWebApp` on a Telegram object that provides every
      function and never throws: the whole sequence, in source order. */
  lemma SetupOnFullClient(w: WebApp)
    requires w.expand == w.requestFullscreen == w.enableClosingConfirmation == Callable(false)
    requires w.setHeaderColor == w.setBackgroundColor == w.ready == w.onEvent == Callable(false)
    ensures SetupCalls(w) == [Expand, RequestFullscreen, EnableClosingConfirmation,
                              SetHeaderColor("#7370fd"), SetBackgroundColor("#ffffff"), Ready,
                              OnEvent("viewportChanged"), OnEvent("themeChanged")]
  {
  }

  /** Whether the object offers the function a call goes to. */
  predicate Offers(w: WebApp, c: BridgeCall) {
    match c
    case Expand => IsFunction(w.expand)
    case RequestFullscreen => IsFunction(w.requestFullscreen)
    case EnableClosingConfirmation => IsFunction(w.enableClosingConfirmation)
    case DisableClosingConfirmation => IsFunction(w.disableClosingConfirmation)
    case SetHeaderColor(_) => IsFunction(w.setHeaderColor)
    case SetBackgroundColor(_) => IsFunction(w.setBackgroundColor)
    case Ready => IsFunction(w.ready)
    case OnEvent(_) => IsFunction(w.onEvent)
  }

  /** Setup never calls a function the object does not offer, never disables
      closing confirmation, and makes at most eight calls. */
  lemma SetupCallsAreGuarded(w: WebApp)
    ensures forall c :: c in SetupCalls(w) ==> Offers(w, c)
    ensures DisableClosingConfirmation !in SetupCalls(w)
    ensures |SetupCalls(w)| <= 8
  {
    var parts := [GuardedCalls(w.expand, Expand), GuardedCalls(w.requestFullscreen, RequestFullscreen),
                  GuardedCalls(w.enableClosingConfirmation, EnableClosingConfirmation),
                  ThemeCalls(w, DefaultHeaderColor, DefaultBackgroundColor),
                  GuardedCalls(w.ready, Ready), EventCalls(w)];
    assert SetupCalls(w) == parts[0] + parts[1] + parts[2] + parts[3] + parts[4] + parts[5];
    forall c | c in SetupCalls(w) ensures Offers(w, c) {
      if c in ThemeCalls(w, DefaultHeaderColor, DefaultBackgroundColor) {
        assert c == SetHeaderColor(DefaultHeaderColor) || c == SetBackgroundColor(DefaultBackgroundColor);
      }
    }
  }

  // ---------------------------------------------------------------------------
  // Support information

  datatype Features = Features(
    expand: bool, requestFullscreen: bool, enableClosingConfirmation: bool,
    setHeaderColor: bool, setBackgroundColor: bool, hapticFeedback: bool, ready: bool)

  datatype SupportInfo =
    | Unavailable
    | Available(isInitialized: bool, platform: Option<string>, version: Option<string>, features: Features)

  // ---------------------------------------------------------------------------
  // The manager

  class TelegramWebAppManager {
    var webApp: Option<WebApp>
    var isInitialized: bool
    var initPromise: PromiseState

    /** The states `init` can reach: initialised exactly when the promise
        resolved `true`, and the Telegram object is held exactly then. */
    ghost predicate Valid()
      reads this
    {
      (isInitialized <==> initPromise == Settled(true)) && (webApp.Some? <==> isInitialized)
    }

    constructor()
      ensures Valid()
      ensures webApp.None? && !isInitialized && initPromise == NoPromise
    {
      webApp := None;
      isInitialized := false;
      initPromise := NoPromise;
    }

    /** `checkAndInit` on a found object: store it, set it up, mark initialised,
        resolve `true`. */
    method Adopt(tg: WebApp) returns (calls: seq<BridgeCall>)
      modifies this
      ensures Valid()
      ensures webApp == Some(tg) && isInitialized && initPromise == Settled(true)
      ensures calls == SetupCalls(tg)
    {
      webApp := Some(tg);
      calls := SetupWebApp();
      isInitialized := true;
      initPromise := Settled(true);
    }

    /** `init()`. A second call returns the memoised promise and starts
        nothing. A first call resolves `false` without a window, adopts the
        Telegram object when it is already there (`present`), and otherwise
        leaves the promise pending for polling to finish. */
    method Init(hasWindow: bool, present: Option<WebApp>) returns (calls: seq<BridgeCall>)
      requires Valid()
      modifies this
      ensures Valid()
      ensures old(initPromise) != NoPromise ==>
        calls == [] && webApp == old(webApp) && isInitialized == old(isInitialized) && initPromise == old(initPromise)
      ensures old(initPromise) == NoPromise && !hasWindow ==>
        calls == [] && webApp.None? && !isInitialized && initPromise == Settled(false)
      ensures old(initPromise) == NoPromise && hasWindow && present.Some? ==>
        calls == SetupCalls(present.value) && webApp == present && isInitialized && initPromise == Settled(true)
      ensures old(initPromise) == NoPromise && hasWindow && present.None? ==>
        calls == [] && webApp.None? && !isInitialized && initPromise == Pending
    {
      calls := [];
      if initPromise != NoPromise {
        return;
      }
      if !hasWindow {
        initPromise := Settled(false);
        return;
      }
      if present.Some? {
        calls := Adopt(present.value);
      } else {
        initPromise := Pending;
      }
    }

    /** The end of polling: the 100 ms interval found the object (`found`), or
        the 5 s timeout fired first. Only a pending promise is affected. */
    method FinishPolling(found: Option<WebApp>) returns (calls: seq<BridgeCall>)
      requires Valid()
      modifies this
      ensures Valid()
      ensures old(initPromise) != Pending ==>
        calls == [] && webApp == old(webApp) && isInitialized == old(isInitialized) && initPromise == old(initPromise)
      ensures old(initPromise) == Pending && found.Some? ==>
        calls == SetupCalls(found.value) && webApp == found && isInitialized && initPromise == Settled(true)
      ensures old(initPromise) == Pending && found.None? ==>
        calls == [] && webApp.None? && !isInitialized && initPromise == Settled(false)
    {
      calls := [];
      if initPromise != Pending {
        return;
      }
      if found.Some? {
        calls := Adopt(found.value);
      } else {
        initPromise := Settled(false);
      }
    }

    /** The shape shared by the guarded actions: `false` without an object;
        otherwise `true` exactly when the property is a function that returned. */
    method Guarded(f: HostFn, call: BridgeCall) returns (ok: bool, calls: seq<BridgeCall>)
      requires webApp.Some?
      ensures ok <==> Succeeds(f)
      ensures calls == GuardedCalls(f, call)
    {
      if IsFunction(f) {
        calls := [call];
        ok := !f.throws;
      } else {
        calls := [];
        ok := false;
      }
    }

    /** `expand()`. */
    method ExpandApp() returns (ok: bool, calls: seq<BridgeCall>)
      ensures webApp.None? ==> !ok && calls == []
      ensures webApp.Some? ==> (ok <==> Succeeds(webApp.value.expand)) && calls == GuardedCalls(webApp.value.expand, Expand)
    {
      if webApp.None? {
        return false, [];
      }
      ok, calls := Guarded(webApp.value.expand, Expand);
    }

    /** `requestFullscreen()`. */
    method RequestFullscreenMode() returns (ok: bool, calls: seq<BridgeCall>)
      ensures webApp.None? ==> !ok && calls == []
      ensures webApp.Some? ==>
        (ok <==> Succeeds(webApp.value.requestFullscreen))
        && calls == GuardedCalls(webApp.value.requestFullscreen, RequestFullscreen)
    {
      if webApp.None? {
        return false, [];
      }
      ok, calls := Guarded(webApp.value.requestFullscreen, RequestFullscreen);
    }

    /** `enableClosingConfirmation()`. */
    method EnableConfirmation() returns (ok: bool, calls: seq<BridgeCall>)
      ensures webApp.None? ==> !ok && calls == []
      ensures webApp.Some? ==>
        (ok <==> Succeeds(webApp.value.enableClosingConfirmation))
        && calls == GuardedCalls(webApp.value.enableClosingConfirmation, EnableClosingConfirmation)
    {
      if webApp.None? {
        return false, [];
      }
      ok, calls := Guarded(webApp.value.enableClosingConfirmation, EnableClosingConfirmation);
    }

    /** `disableClosingConfirmation()`. */
    method DisableConfirmation() returns (ok: bool, calls: seq<BridgeCall>)
      ensures webApp.None? ==> !ok && calls == []
      ensures webApp.Some? ==>
        (ok <==> Succeeds(webApp.value.disableClosingConfirmation))
        && calls == GuardedCalls(webApp.value.disableClosingConfirmation, DisableClosingConfirmation)
    {
      if webApp.None? {
        return false, [];
      }
      ok, calls := Guarded(webApp.value.disableClosingConfirmation, DisableClosingConfirmation);
    }

    /** `ready()`. */
    method ReadyApp() returns (ok: bool, calls: seq<BridgeCall>)
      ensures webApp.None? ==> !ok && calls == []
      ensures webApp.Some? ==> (ok <==> Succeeds(webApp.value.ready)) && calls == GuardedCalls(webApp.value.ready, Ready)
    {
      if webApp.None? {
        return false, [];
      }
      ok, calls := Guarded(webApp.value.ready, Ready);
    }

    /** `setThemeColors(headerColor = '#7370fd', backgroundColor = '#ffffff')`:
        `None` is an omitted colour. The result is `true` exactly when both
        setters exist and neither threw. */
    method SetThemeColors(headerColor: Option<string>, backgroundColor: Option<string>)
      returns (ok: bool, calls: seq<BridgeCall>)
      ensures webApp.None? ==> !ok && calls == []
      ensures webApp.Some? ==> (ok <==> Succeeds(webApp.value.setHeaderColor) && Succeeds(webApp.value.setBackgroundColor))
      ensures webApp.Some? ==> calls == ThemeCalls(webApp.value,
        if headerColor.Some? then headerColor.value else DefaultHeaderColor,
        if backgroundColor.Some? then backgroundColor.value else DefaultBackgroundColor)
    {
      if webApp.None? {
        return false, [];
      }
      var w := webApp.value;
      var header := if headerColor.Some? then headerColor.value else DefaultHeaderColor;
      var background := if backgroundColor.Some? then backgroundColor.value else DefaultBackgroundColor;
      var success := true;
      calls := [];
      if IsFunction(w.setHeaderColor) {
        calls := calls + [SetHeaderColor(header)];
        if w.setHeaderColor.throws {
          return false, calls;
        }
      } else {
        success := false;
      }
      if IsFunction(w.setBackgroundColor) {
        calls := calls + [SetBackgroundColor(background)];
        if w.setBackgroundColor.throws {
          return false, calls;
        }
      } else {
        success := false;
      }
      ok := success;
    }

    /** `setupEventListeners()`. */
    method SetupEventListeners() returns (calls: seq<BridgeCall>)
      ensures webApp.None? ==> calls == []
      ensures webApp.Some? ==> calls == EventCalls(webApp.value)
    {
      calls := [];
      if webApp.None? {
        return;
      }
      var w := webApp.value;
      if w.onEvent.Absent? {
        return;
      }
      calls := calls + [OnEvent("viewportChanged")];
      if w.onEvent.throws {
        return;
      }
      calls := calls + [OnEvent("themeChanged")];
    }

    /** `setupWebApp()`: nothing without an object; otherwise each step in
        order, each catching its own errors. */
    method SetupWebApp() returns (calls: seq<BridgeCall>)
      ensures webApp.None? ==> calls == []
      ensures webApp.Some? ==> calls == SetupCalls(webApp.value)
    {
      if webApp.None? {
        return [];
      }
      var _, expandCalls := ExpandApp();
      var _, fullscreenCalls := RequestFullscreenMode();
      var _, confirmationCalls := EnableConfirmation();
      var _, themeCalls := SetThemeColors(None, None);
      var _, readyCalls := ReadyApp();
      var eventCalls := SetupEventListeners();
      calls := expandCalls + fullscreenCalls + confirmationCalls + themeCalls + readyCalls + eventCalls;
    }

    /** `isReady()`, as a boolean. */
    function IsReady(): (r: bool)
      reads this
      ensures r <==> isInitialized && webApp.Some?
    {
      isInitialized && webApp.Some?
    }

    /** `getSupportInfo()`, without the viewport and colour scheme state. */
    function GetSupportInfo(): (r: SupportInfo)
      reads this
      ensures webApp.None? <==> r == Unavailable
      ensures webApp.Some? ==>
        r.isInitialized == isInitialized && r.platform == webApp.value.platform && r.version == webApp.value.version
      ensures webApp.Some? ==> r.features == Features(
        IsFunction(webApp.value.expand), IsFunction(webApp.value.requestFullscreen),
        IsFunction(webApp.value.enableClosingConfirmation), IsFunction(webApp.value.setHeaderColor),
        IsFunction(webApp.value.setBackgroundColor), webApp.value.hapticFeedback.Some?,
        IsFunction(webApp.value.ready))
    {
      match webApp
      case None => Unavailable
      case Some(w) =>
        Available(isInitialized, w.platform, w.version,
          Features(IsFunction(w.expand), IsFunction(w.requestFullscreen), IsFunction(w.enableClosingConfirmation),
                   IsFunction(w.setHeaderColor), IsFunction(w.setBackgroundColor), w.hapticFeedback.Some?,
                   IsFunction(w.ready)))
    }
  }

  /** In every reachable state the manager is ready exactly when `init`
      resolved `true`. */
  lemma ReadyIffResolvedTrue(m: TelegramWebAppManager)
    requires m.Valid()
    ensures m.IsReady() <==> m.initPromise == Settled(true)
  {
  }
}
