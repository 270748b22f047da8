/** Vibration (`src/app/utils/vibration.js`): the support check, the fixed
    pattern table, the `vibrate` decision tree that picks Telegram haptics,
    `navigator.vibrate` or nothing, the `withVibration` click wrapper and the
    named helpers. */
module Vibration {
  import opened Js
  import opened Host
  import opened Haptic

  /** `isVibrationSupported`: no window means no support; otherwise the
      standard API, or a Telegram object on a device that is not iOS. */
  predicate IsVibrationSupported(env: HostEnv) {
    env.hasWindow && (env.hasVibrateApi || (env.telegram.Some? && !env.isIOS))
  }

  // ---------------------------------------------------------------------------
  // Patterns

  datatype PatternName = ButtonTap | Success | Error | Toggle | Navigation | Confirm | Light | Medium | Heavy

  /** `VIBRATION_PATTERNS`: durations in milliseconds. */
  function Pattern(n: PatternName): seq<int> {
    match n
    case ButtonTap => [50]
    case Success => [100, 50, 100]
    case Error => [200]
    case Toggle => [30, 30, 30]
    case Navigation => [80]
    case Confirm => [150, 50, 150]
    case Light => [25]
    case Medium => [50]
    case Heavy => [100]
  }

  /** Every pattern is non-empty, every duration positive and at most 200 ms. */
  lemma PatternsArePositive(n: PatternName)
    ensures |Pattern(n)| > 0
    ensures forall i :: 0 <= i < |Pattern(n)| ==> 0 < Pattern(n)[i] <= 200
  {
  }

  // ---------------------------------------------------------------------------
  // vibrate

  /** What one `vibrate` call does: a haptic request through the
      `HapticFeedback` instance, `navigator.vibrate(pattern)`, or nothing. */
  datatype Outcome = HapticTier(call: HapticCall) | StandardTier(pattern: seq<int>) | Silent

  /** The haptic tier is taken when the type is truthy and recognised and the
      live environment has `window.Telegram.WebApp.HapticFeedback`. */
  predicate TakesHapticTier(env: HostEnv, hapticType: Option<string>) {
    Truthy(hapticType) && Classify(hapticType.value).Some?
    && TelegramWebApp(env).Some? && TelegramWebApp(env).value.hapticFeedback.Some?
  }

  /** The Telegram object, when present, vetoes vibration on desktop platforms
      and when `isExpanded` is exactly `false`. */
  predicate TelegramVetoes(env: HostEnv) {
    TelegramWebApp(env).Some?
    && (IsDesktop(TelegramWebApp(env).value.platform) || TelegramWebApp(env).value.isExpanded == Some(false))
  }

  /** `vibrate(pattern = BUTTON_TAP, force = false, hapticType = null)`, with the
      live environment `env` and the `HapticFeedback` instance `haptic` as
      separate inputs. `None` stands for an omitted pattern and a null type.
      The haptic methods swallow host errors, so the catch around the haptic
      dispatch never runs and there is no fallback after a haptic attempt. */
  function Vibrate(env: HostEnv, haptic: HapticFeedback, pattern: Option<seq<int>>, force: bool,
                   hapticType: Option<string>): (r: Outcome)
    requires haptic.Valid()
    ensures TakesHapticTier(env, hapticType) ==> r == HapticTier(haptic.Perform(Classify(hapticType.value).value))
    ensures r.HapticTier? ==> TakesHapticTier(env, hapticType)
    ensures r.StandardTier? <==>
      !TakesHapticTier(env, hapticType) && (IsVibrationSupported(env) || force)
      && !TelegramVetoes(env) && env.hasVibrateApi
    ensures r.StandardTier? ==> r.pattern == (if pattern.Some? then pattern.value else Pattern(ButtonTap))
  {
    if Truthy(hapticType) && TelegramWebApp(env).Some? && TelegramWebApp(env).value.hapticFeedback.Some?
       && Classify(hapticType.value).Some?
    then HapticTier(haptic.Perform(Classify(hapticType.value).value))
    else if !IsVibrationSupported(env) && !force then Silent
    else if TelegramWebApp(env).Some? && IsDesktop(TelegramWebApp(env).value.platform) then Silent
    else if TelegramWebApp(env).Some? && TelegramWebApp(env).value.isExpanded == Some(false) then Silent
    else if env.hasVibrateApi then StandardTier(if pattern.Some? then pattern.value else Pattern(ButtonTap))
    else Silent
  }

  /** With `HapticFeedback` present, every recognised type becomes exactly one
      request of its own kind and `navigator.vibrate` is not called. */
  lemma HapticTypesDispatch(env: HostEnv, haptic: HapticFeedback, pattern: Option<seq<int>>, force: bool, t: string)
    requires haptic.Valid()
    requires TelegramWebApp(env).Some? && TelegramWebApp(env).value.hapticFeedback.Some?
    ensures t in {"light", "medium", "heavy", "rigid", "soft"} ==>
      Vibrate(env, haptic, pattern, force, Some(t)) == HapticTier(haptic.ImpactOccurred(Some(t)))
    ensures t in {"success", "error", "warning"} ==>
      Vibrate(env, haptic, pattern, force, Some(t)) == HapticTier(haptic.NotificationOccurred(Some(t)))
    ensures t == "selection" ==>
      Vibrate(env, haptic, pattern, force, Some(t)) == HapticTier(haptic.SelectionChanged())
  {
  }

  /** A null, empty or unrecognised type falls through to the standard path:
      the result is that of a call without a type. */
  lemma UnrecognisedTypeFallsThrough(env: HostEnv, haptic: HapticFeedback, pattern: Option<seq<int>>, force: bool,
                                     hapticType: Option<string>)
    requires haptic.Valid()
    requires !Truthy(hapticType) || Classify(hapticType.value).None?
    ensures Vibrate(env, haptic, pattern, force, hapticType) == Vibrate(env, haptic, pattern, force, None)
  {
  }

  /** Without support and without `force`, nothing vibrates unless haptics do. */
  lemma UnsupportedIsSilent(env: HostEnv, haptic: HapticFeedback, pattern: Option<seq<int>>, hapticType: Option<string>)
    requires haptic.Valid()
    requires !IsVibrationSupported(env) && !TakesHapticTier(env, hapticType)
    ensures Vibrate(env, haptic, pattern, false, hapticType) == Silent
  {
  }

  /** A desktop Telegram client or a collapsed app suppresses the standard
      path even when forced; an unknown `isExpanded` does not. */
  lemma TelegramSuppresses(env: HostEnv, haptic: HapticFeedback, pattern: Option<seq<int>>)
    requires haptic.Valid()
    requires TelegramWebApp(env).Some?
    ensures IsDesktop(TelegramWebApp(env).value.platform) ==> Vibrate(env, haptic, pattern, true, None) == Silent
    ensures TelegramWebApp(env).value.isExpanded == Some(false) ==> Vibrate(env, haptic, pattern, true, None) == Silent
    ensures !IsDesktop(TelegramWebApp(env).value.platform) && TelegramWebApp(env).value.isExpanded.None?
            && env.hasVibrateApi ==>
      Vibrate(env, haptic, pattern, true, None) == StandardTier(if pattern.Some? then pattern.value else Pattern(ButtonTap))
  {
  }

  /** Forcing only widens the standard path: whatever vibrates unforced also
      vibrates forced, and the haptic tier does not depend on `force`. */
  lemma ForceIsMonotonic(env: HostEnv, haptic: HapticFeedback, pattern: Option<seq<int>>, hapticType: Option<string>)
    requires haptic.Valid()
    ensures Vibrate(env, haptic, pattern, false, hapticType) != Silent ==>
      Vibrate(env, haptic, pattern, true, hapticType) == Vibrate(env, haptic, pattern, false, hapticType)
  {
  }

  // ---------------------------------------------------------------------------
  // withVibration and the named helpers

  /** The effects of one click on a `withVibration` handler: the vibration, and
      the argument list of each call of `onClick`. */
  datatype VibratedClick = VibratedClick(outcome: Outcome, onClickCalls: seq<seq<Option<Value>>>)

  /** `withVibration(onClick, pattern = BUTTON_TAP, hapticType = 'light')`
      called with `args`: one unforced `vibrate`, then, if `onClick` is given,
      one call of it with the wrapper's first argument alone. */
  function WithVibration(env: HostEnv, haptic: HapticFeedback, hasOnClick: bool, pattern: Option<seq<int>>,
                         hapticType: Option<string>, args: seq<Option<Value>>): (r: VibratedClick)
    requires haptic.Valid()
    ensures r.outcome == Vibrate(env, haptic, pattern, false, Some(if hapticType.Some? then hapticType.value else "light"))
    ensures |r.onClickCalls| == if hasOnClick then 1 else 0
    ensures forall call :: call in r.onClickCalls ==> call == [Param(args, 0)]
  {
    VibratedClick(Vibrate(env, haptic, pattern, false, Some(if hapticType.Some? then hapticType.value else "light")),
                  if hasOnClick then [[Param(args, 0)]] else [])
  }

  /** Only the first argument reaches `onClick`: from its second parameter on,
      `onClick` sees `undefined`, and two argument lists that agree on their
      first element give the same click. */
  lemma WrapperForwardsFirstArgument(env: HostEnv, haptic: HapticFeedback, hasOnClick: bool, pattern: Option<seq<int>>,
                                     hapticType: Option<string>, args: seq<Option<Value>>, other: seq<Option<Value>>)
    requires haptic.Valid()
    requires Param(args, 0) == Param(other, 0)
    ensures forall call, i: nat :: call in WithVibration(env, haptic, hasOnClick, pattern, hapticType, args).onClickCalls && 1 <= i ==>
      Param(call, i).None?
    ensures WithVibration(env, haptic, hasOnClick, pattern, hapticType, args)
         == WithVibration(env, haptic, hasOnClick, pattern, hapticType, other)
  {
  }

  /** A handler wrapped with only a pattern, as the pages do, gives a light
      impact whenever `HapticFeedback` is present, never its pattern. */
  lemma WrappedHandlersPreferHaptics(env: HostEnv, haptic: HapticFeedback, n: PatternName, args: seq<Option<Value>>)
    requires haptic.Valid()
    requires TelegramWebApp(env).Some? && TelegramWebApp(env).value.hapticFeedback.Some?
    ensures WithVibration(env, haptic, true, Some(Pattern(n)), None, args).outcome == HapticTier(haptic.ImpactOccurred(Some("light")))
  {
  }

  datatype VibrationPreset = VibrateSuccess | VibrateError | VibrateToggle | VibrateNavigation
                           | VibrateConfirm | VibrateLight | VibrateMedium | VibrateHeavy

  /** The (pattern, haptic type) pair each `vibrateX` helper passes. */
  function PresetArgs(p: VibrationPreset): (PatternName, string) {
    match p
    case VibrateSuccess => (Success, "success")
    case VibrateError => (Error, "error")
    case VibrateToggle => (Toggle, "selection")
    case VibrateNavigation => (Navigation, "medium")
    case VibrateConfirm => (Confirm, "heavy")
    case VibrateLight => (Light, "light")
    case VibrateMedium => (Medium, "medium")
    case VibrateHeavy => (Heavy, "heavy")
  }

  /** `vibrateX()`: an unforced `vibrate` with the helper's pair. */
  function VibratePreset(env: HostEnv, haptic: HapticFeedback, p: VibrationPreset): (r: Outcome)
    requires haptic.Valid()
    ensures r == Vibrate(env, haptic, Some(Pattern(PresetArgs(p).0)), false, Some(PresetArgs(p).1))
  {
    Vibrate(env, haptic, Some(Pattern(PresetArgs(p).0)), false, Some(PresetArgs(p).1))
  }

  /** Every helper's type is recognised, so with `HapticFeedback` present a
      helper never reaches `navigator.vibrate`; without it, it vibrates its own
      pattern whenever the standard path is open. */
  lemma PresetsUseHapticsFirst(env: HostEnv, haptic: HapticFeedback, p: VibrationPreset)
    requires haptic.Valid()
    ensures Classify(PresetArgs(p).1).Some?
    ensures TelegramWebApp(env).Some? && TelegramWebApp(env).value.hapticFeedback.Some? ==>
      VibratePreset(env, haptic, p).HapticTier?
    ensures VibratePreset(env, haptic, p).StandardTier? ==> VibratePreset(env, haptic, p).pattern == Pattern(PresetArgs(p).0)
  {
  }
}
