/** Tactile feedback through `WebApp.HapticFeedback`
    (`src/app/utils/hapticFeedback.js`): a class whose `webApp` and
    `isSupported` are fixed when it is constructed, its guarded forwarding
    methods, the `withHapticFeedback` click wrapper and the named helpers. */
module Haptic {
  import opened Js
  import opened Host

  /** The host call a feedback request ends in, if any. */
  datatype HapticCall = Skipped | HostImpact(style: string) | HostNotification(kind: string) | HostSelection

  /** A feedback request: an impact of a style, a notification of a type, or a selection change. */
  datatype HapticRequest = ImpactRequest(style: string) | NotificationRequest(kind: string) | SelectionRequest

  /** `checkSupport`: a window, a Telegram object with `HapticFeedback`, and a
      platform other than `unknown` and `desktop`. */
  predicate CheckSupport(hasWindow: bool, webApp: Option<WebApp>) {
    hasWindow && webApp.Some? && webApp.value.hapticFeedback.Some? && !IsDesktop(webApp.value.platform)
  }

  /** The call a supported instance makes through one host function: none when
      the function is missing (the `TypeError` is caught), otherwise the call,
      whose exception, if any, is caught as well. */
  function Through(f: HostFn, call: HapticCall): (r: HapticCall)
    ensures r == Skipped <==> f.Absent? || call == Skipped
    ensures r != Skipped ==> r == call
  {
    if f.Callable? then call else Skipped
  }

  datatype HapticSupportInfo = HapticSupportInfo(
    isSupported: bool, hasWebApp: bool, hasHapticFeedback: bool, platform: string, version: string)

  class HapticFeedback {
    /** The Telegram object as seen at construction. */
    const webApp: Option<WebApp>
    /** `checkSupport()` as evaluated at construction; never re-evaluated. */
    const isSupported: bool

    /** What construction guarantees: support implies a Telegram object with
        `HapticFeedback` on a non-desktop platform. */
    ghost predicate Valid() {
      isSupported ==> CheckSupport(true, webApp)
    }

    constructor(env: HostEnv)
      ensures Valid()
      ensures webApp == TelegramWebApp(env)
      ensures isSupported == CheckSupport(env.hasWindow, TelegramWebApp(env))
    {
      webApp := TelegramWebApp(env);
      isSupported := CheckSupport(env.hasWindow, TelegramWebApp(env));
    }

    /** `impactOccurred(style = 'medium')`: `None` is an omitted style. */
    function ImpactOccurred(style: Option<string>): (r: HapticCall)
      requires Valid()
      ensures !isSupported ==> r == Skipped
      ensures r != Skipped ==> isSupported && r == HostImpact(if style.Some? then style.value else "medium")
      ensures isSupported ==> (r != Skipped <==> webApp.value.hapticFeedback.value.impactOccurred.Callable?)
    {
      if !isSupported then Skipped
      else Through(webApp.value.hapticFeedback.value.impactOccurred,
              HostImpact(if style.Some? then style.value else "medium"))
    }

    /** `notificationOccurred(type = 'success')`. */
    function NotificationOccurred(kind: Option<string>): (r: HapticCall)
      requires Valid()
      ensures !isSupported ==> r == Skipped
      ensures r != Skipped ==> isSupported && r == HostNotification(if kind.Some? then kind.value else "success")
      ensures isSupported ==> (r != Skipped <==> webApp.value.hapticFeedback.value.notificationOccurred.Callable?)
    {
      if !isSupported then Skipped
      else Through(webApp.value.hapticFeedback.value.notificationOccurred,
              HostNotification(if kind.Some? then kind.value else "success"))
    }

    /** `selectionChanged()`. */
    function SelectionChanged(): (r: HapticCall)
      requires Valid()
      ensures !isSupported ==> r == Skipped
      ensures r != Skipped ==> isSupported && r == HostSelection
      ensures isSupported ==> (r != Skipped <==> webApp.value.hapticFeedback.value.selectionChanged.Callable?)
    {
      if !isSupported then Skipped
      else Through(webApp.value.hapticFeedback.value.selectionChanged, HostSelection)
    }

    /** Carries out a request with its kind as an explicit argument. */
    function Perform(request: HapticRequest): (r: HapticCall)
      requires Valid()
      ensures !isSupported ==> r == Skipped
      ensures request.ImpactRequest? ==> r == ImpactOccurred(Some(request.style))
      ensures request.NotificationRequest? ==> r == NotificationOccurred(Some(request.kind))
      ensures request.SelectionRequest? ==> r == SelectionChanged()
    {
      match request
      case ImpactRequest(style) => ImpactOccurred(Some(style))
      case NotificationRequest(kind) => NotificationOccurred(Some(kind))
      case SelectionRequest => SelectionChanged()
    }

    /** `getSupportInfo`: presence flags, and `'unknown'` for a missing or empty
        platform or version. */
    function GetSupportInfo(): (r: HapticSupportInfo)
      ensures r.isSupported == isSupported
      ensures r.hasWebApp <==> webApp.Some?
      ensures r.hasHapticFeedback <==> webApp.Some? && webApp.value.hapticFeedback.Some?
      ensures r.platform == (if webApp.Some? then Or(webApp.value.platform, "unknown") else "unknown")
      ensures r.version == (if webApp.Some? then Or(webApp.value.version, "unknown") else "unknown")
      ensures r.platform != "" && r.version != ""
    {
      HapticSupportInfo(
        isSupported,
        webApp.Some?,
        webApp.Some? && webApp.value.hapticFeedback.Some?,
        if webApp.Some? then Or(webApp.value.platform, "unknown") else "unknown",
        if webApp.Some? then Or(webApp.value.version, "unknown") else "unknown")
    }
  }

  // ---------------------------------------------------------------------------
  // Request types

  /** The `switch` on a type name shared by `vibrate` and `withHapticFeedback`:
      impact styles, notification types and `selection`; anything else is
      unrecognised. */
  function Classify(hapticType: string): (r: Option<HapticRequest>)
    ensures hapticType in {"light", "medium", "heavy", "rigid", "soft"} <==> r == Some(ImpactRequest(hapticType))
    ensures hapticType in {"success", "error", "warning"} <==> r == Some(NotificationRequest(hapticType))
    ensures hapticType == "selection" <==> r == Some(SelectionRequest)
  {
    if hapticType in {"light", "medium", "heavy", "rigid", "soft"} then Some(ImpactRequest(hapticType))
    else if hapticType in {"success", "error", "warning"} then Some(NotificationRequest(hapticType))
    else if hapticType == "selection" then Some(SelectionRequest)
    else None
  }

  /** The effects of one click on a wrapped handler: the feedback, then how
      many times the original `onClick` ran. */
  datatype ClickEffects = ClickEffects(feedback: HapticCall, onClickCalls: nat)

  /** The request `withHapticFeedback` makes: an unrecognised type becomes a
      light impact; an omitted type is `'light'`. */
  function WrapperRequest(hapticType: Option<string>): (r: HapticRequest)
    ensures hapticType.None? ==> r == ImpactRequest("light")
    ensures hapticType.Some? && Classify(hapticType.value).Some? ==> r == Classify(hapticType.value).value
    ensures hapticType.Some? && Classify(hapticType.value).None? ==> r == ImpactRequest("light")
  {
    var t := if hapticType.Some? then hapticType.value else "light";
    match Classify(t)
    case Some(request) => request
    case None => ImpactRequest("light")
  }

  /** A click on `withHapticFeedback(onClick, hapticType)`: feedback first, then
      `onClick` once if one was given. */
  function WithHapticFeedback(h: HapticFeedback, hapticType: Option<string>, hasOnClick: bool): (r: ClickEffects)
    requires h.Valid()
    ensures r.feedback == h.Perform(WrapperRequest(hapticType))
    ensures r.onClickCalls == if hasOnClick then 1 else 0
  {
    ClickEffects(h.Perform(WrapperRequest(hapticType)), if hasOnClick then 1 else 0)
  }

  /** Unlike `vibrate`, the wrapper never falls through: an unrecognised type
      gives the same feedback as a light impact. */
  lemma WrapperAlwaysRequests(h: HapticFeedback, hapticType: string)
    requires h.Valid()
    requires Classify(hapticType).None?
    ensures WithHapticFeedback(h, Some(hapticType), false).feedback == h.ImpactOccurred(Some("light"))
  {
  }

  // ---------------------------------------------------------------------------
  // Named helpers

  datatype HapticPreset =
    | HapticLight | HapticMedium | HapticHeavy | HapticRigid | HapticSoft
    | HapticSuccess | HapticError | HapticWarning
    | HapticButtonTap | HapticToggle | HapticNavigation | HapticConfirm

  /** The request each named helper makes. */
  function PresetRequest(p: HapticPreset): HapticRequest {
    match p
    case HapticLight => ImpactRequest("light")
    case HapticMedium => ImpactRequest("medium")
    case HapticHeavy => ImpactRequest("heavy")
    case HapticRigid => ImpactRequest("rigid")
    case HapticSoft => ImpactRequest("soft")
    case HapticSuccess => NotificationRequest("success")
    case HapticError => NotificationRequest("error")
    case HapticWarning => NotificationRequest("warning")
    case HapticButtonTap => ImpactRequest("light")
    case HapticToggle => SelectionRequest
    case HapticNavigation => ImpactRequest("medium")
    case HapticConfirm => ImpactRequest("heavy")
  }

  /** The type name each helper stands for. */
  function PresetType(p: HapticPreset): string {
    match p
    case HapticLight => "light"
    case HapticMedium => "medium"
    case HapticHeavy => "heavy"
    case HapticRigid => "rigid"
    case HapticSoft => "soft"
    case HapticSuccess => "success"
    case HapticError => "error"
    case HapticWarning => "warning"
    case HapticButtonTap => "light"
    case HapticToggle => "selection"
    case HapticNavigation => "medium"
    case HapticConfirm => "heavy"
  }

  /** Every helper makes exactly the request its type name classifies to, so a
      helper is the same as the wrapper with that type: button tap is a light
      impact, toggle a selection, navigation a medium impact, confirm a heavy one. */
  lemma PresetsAgreeWithTypes(p: HapticPreset)
    ensures Classify(PresetType(p)) == Some(PresetRequest(p))
    ensures WrapperRequest(Some(PresetType(p))) == PresetRequest(p)
  {
  }
}
