/** The host the utilities run in: the browser `window`, `navigator` and the
    `window.Telegram.WebApp` object, as a record of what is present. */
module Host {
  import opened Js

  /** A property of a host object that the code calls: absent (not a function),
      or a function that either returns or throws. */
  datatype HostFn = Absent | Callable(throws: bool)

  /** `typeof f === 'function'`. */
  predicate IsFunction(f: HostFn) {
    f.Callable?
  }

  /** The function exists and returned normally. */
  predicate Succeeds(f: HostFn) {
    f == Callable(false)
  }

  /** `WebApp.HapticFeedback`. */
  datatype HapticApi = HapticApi(impactOccurred: HostFn, notificationOccurred: HostFn, selectionChanged: HostFn)

  /** `window.Telegram.WebApp`, with the properties the utilities read. */
  datatype WebApp = WebApp(
    platform: Option<string>,
    version: Option<string>,
    isExpanded: Option<bool>,
    hapticFeedback: Option<HapticApi>,
    expand: HostFn,
    requestFullscreen: HostFn,
    enableClosingConfirmation: HostFn,
    disableClosingConfirmation: HostFn,
    setHeaderColor: HostFn,
    setBackgroundColor: HostFn,
    ready: HostFn,
    onEvent: HostFn)

  /** The environment: whether `window` exists, whether `'vibrate' in navigator`,
      whether the user agent names an iOS device, and the Telegram object. */
  datatype HostEnv = HostEnv(hasWindow: bool, hasVibrateApi: bool, isIOS: bool, telegram: Option<WebApp>)

  /** `typeof window !== 'undefined' ? window.Telegram?.WebApp : null`. */
  function TelegramWebApp(env: HostEnv): (w: Option<WebApp>)
    ensures w.Some? <==> env.hasWindow && env.telegram.Some?
    ensures w.Some? ==> w == env.telegram
  {
    if env.hasWindow then env.telegram else None
  }

  /** `platform === 'unknown' || platform === 'desktop'`; a missing platform is neither. */
  predicate IsDesktop(platform: Option<string>) {
    platform == Some("unknown") || platform == Some("desktop")
  }
}
