# Playable template core, modelled in Dafny

A model of the logic of a small PIXI playable-ad template. The template is built from a few
small state machines and a handful of pure calculations:

- **Scene host** (`Scenes`). It caches lazily created scenes by scene type (`Main`, `Final`) and
  holds one current scene. A switch fades the old scene out, detaches and destroys it, then
  attaches the new scene, fades it in and only then records it as current. Opacity is counted
  in twentieths (0..20), so each fade frame moves it by exactly one step.
- **Overlay manager** (`Popups`). It has one slot for the open popup and remembers the last
  viewport size. Popups are abstract identities. The `hide`, `resize` and `show` calls the
  manager makes on them go into a log.
- **Popup animation** (`PopupAnimation`). One timeline drives a panel's opacity and scale:
  - the reveal is an ease-out rise to 1.2 followed by a linear settle to 1;
  - the dismissal is linear;
  - the resting scale caps a 300×300 panel at 1.2 times one viewport axis (the height in
    landscape, the width otherwise) and is never above 1; the other axis may overflow.
- **Button** (`Buttons`). It covers:
  - a disabled flag that gates the pointer handlers;
  - the press scale and a per-frame smoothing step;
  - darkened colours for the disabled look;
  - the frame callbacks the button registers and must remove.
- **Helpers**:
  - `Screen`: orientation and device-size classification;
  - `Fitting`: the fit-to-screen scale;
  - `Fonts`: the font stack and font table;
  - `Labels`: the label pulse, whose timer is an explicit event;
  - `Score`: the score counter.

Frame and timer callbacks are explicit step methods:

- `SceneManager.FadeOutScene` and `FadeInScene` run their frames as loop iterations;
- `PopupUI.UpdateAnim` is one tick;
- `ButtonUI.AnimationFrame` is one frame;
- `LabelUI.FireTimeout` is a timer firing.

## Model

| member | source | states |
|---|---|---|
| Scenes.SceneManager.constructor | src/core/SceneManager.ts:22-28 | The cache is empty, there is no current scene or type, and there are no children; the host invariant holds. |
| Scenes.SceneManager.CreateScene | src/core/SceneManager.ts:30-39 | Returns a new, opaque, live scene of the requested type with no listeners. |
| Scenes.SceneManager.EnsureScene | src/core/SceneManager.ts:41-53 | A cached live entry is returned unchanged, and neither the cache nor the log changes. Otherwise a fresh scene is stored under the type and subscribed exactly once. Either way the entry under the type is the returned scene. |
| Scenes.SceneManager.FadeOutScene | src/core/SceneManager.ts:97-114 | The frames written start at full opacity, fall by exactly one twentieth per frame and end at exactly 0 (21 values, all in range). The scene's other state is untouched. |
| Scenes.SceneManager.FadeInScene | src/core/SceneManager.ts:116-133 | The frames start at 0, rise by exactly one twentieth per frame and end at exactly full opacity. |
| Scenes.Without | src/core/SceneManager.ts:70 | Detaching removes the scene from the children and keeps every other child. |
| Scenes.SceneManager.Retire | src/core/SceneManager.ts:68-73 | The outgoing scene ends transparent and destroyed, and is no longer a child. The log gains fade-out, detach and destroy, in that order. |
| Scenes.SceneManager.Present | src/core/SceneManager.ts:76-80 | The incoming scene is appended to the children and ends fully opaque. Only after the fade-in is it recorded as the current scene and type. |
| Scenes.SceneManager.SwitchScene | src/core/SceneManager.ts:59-81 | Switching to the current type changes nothing (no creation, fade or destroy). Otherwise the target becomes current and is the cache entry for its type. The new scene is fresh, has one listener and no recorded resizes. The previous scene is transparent and destroyed, and every other entry stays destroyed and keeps its listeners and resizes. There is no fade-out when nothing was current. The log is create, then (if there was a previous scene) fade-out/detach/destroy, then attach, then fade-in. The current scene is the only live entry and the only child. |
| Scenes.SceneManager.GetCurrentScene | src/core/SceneManager.ts:83-85 | A non-null current scene is cached, live, opaque and the only child. It is null exactly when there is no current type. |
| Scenes.SceneManager.GetCurrentSceneType | src/core/SceneManager.ts:87-89 | The current type's entry is live, and every other cached entry is destroyed. |
| Scenes.SceneManager.Resize | src/core/SceneManager.ts:91-95 | Every cached entry receives the size, destroyed entries included. Opacity, destroyed flags and listeners are kept. |
| Scenes.SceneManager.Destroy | src/core/SceneManager.ts:135-143 | Every previously cached scene is destroyed and keeps its listeners and resizes. The cache is empty and the current scene, the current type and the children are reset. The event log is unchanged. |
| Popups.ResizeSlot | src/core/PopupManager.ts:23-29 | The size is always stored. It is forwarded as a resize call only to the open popup, and with no popup open the log is unchanged. |
| Popups.HideCurrentSlot | src/core/PopupManager.ts:41-46 | An empty slot is left exactly as it was. A full slot logs one hide of its popup and is emptied. |
| Popups.ShowSlot | src/core/PopupManager.ts:31-39 | The popup becomes current. The log is the hide of the previous popup (if any), then a resize of the new popup with the stored size, then its show. |
| Popups.ShowHidesCurrentFirst | src/core/PopupManager.ts:32-34 | Over a full slot, the old popup's hide precedes the new popup's resize and show. |
| Popups.ReshowIsNotNoop | src/core/PopupManager.ts:31-38 | Showing the popup that is already open still hides it, resizes it and shows it again. |
| Popups.ResizeWhileHiddenThenShow | src/core/PopupManager.ts:23-38 | A size given while the slot is empty is the one the next popup is laid out with, and nothing is forwarded before that. |
| Popups.ShowThenHideEmptiesSlot | src/core/PopupManager.ts:31-46 | Show followed by hide empties the slot and logs resize, show and hide of that popup, in order. |
| Popups.OperationsKeepConsistent | src/core/PopupManager.ts:23-46 | Resize, hide and show all keep the slot invariant: an open popup is the most recently shown one, and no hide has been logged since. |
| Popups.PopupManager.constructor | src/core/PopupManager.ts:10-14 | The slot is empty, the stored size is 0×0 and the log is empty. |
| Popups.PopupManager.Resize | src/core/PopupManager.ts:23-29 | The new state is `ResizeSlot` of the old one. |
| Popups.PopupManager.HideCurrent | src/core/PopupManager.ts:41-46 | The new state is `HideCurrentSlot` of the old one. |
| Popups.PopupManager.Show | src/core/PopupManager.ts:31-39 | The new state is `ShowSlot` of the old one. |
| Popups.PopupManager.IsPopupOpened | src/core/PopupManager.ts:48-50 | True exactly when the slot holds a popup; a function, so it changes nothing. |
| PopupAnimation.Duration | src/ui/molecules/PopupUI.ts:63-67 | 0.5 for a 0→1 reveal and 0.2 for every other pair. |
| PopupAnimation.NormalizedTime | src/ui/molecules/PopupUI.ts:86-88 | Never above 1. It is exactly 1 iff the elapsed time has reached the duration, and non-negative for non-negative elapsed time. |
| PopupAnimation.HideScale | src/ui/molecules/PopupUI.ts:104-107 | 1 at t = 0, 0 at t = 1, and within [0, 1] on [0, 1]. |
| PopupAnimation.Interpolate | src/ui/molecules/PopupUI.ts:109-111 | Opacity is `from` at t = 0 and exactly `to` at t = 1. On [0, 1] it lies between the two. |
| PopupAnimation.ShowScaleKeyPoints | src/ui/molecules/PopupUI.ts:92-103 | The reveal curve is 0 at t = 0, 1.2 at t = 0.7 and 1 at t = 1. |
| PopupAnimation.ShowScaleContinuous | src/ui/molecules/PopupUI.ts:94-103 | Both phases give 1.2 at the phase boundary. |
| PopupAnimation.ShowScaleRises | src/ui/molecules/PopupUI.ts:96-98 | The reveal curve is non-decreasing on [0, 0.7]. |
| PopupAnimation.ShowScaleSettles | src/ui/molecules/PopupUI.ts:99-103 | The reveal curve is non-increasing on [0.7, 1] and stays at or above 1 there. |
| PopupAnimation.ShowScaleBounded | src/ui/molecules/PopupUI.ts:92-103 | On [0, 1] the reveal curve stays within [0, 1.2]. |
| PopupAnimation.BaseScale | src/ui/molecules/PopupUI.ts:32-42 | The resting scale is at most 1. It is 1 iff 300 fits within 1.2 times the limiting axis (height in landscape, width otherwise). Otherwise it scales 300 to exactly that limit, and it is positive when the limit is. |
| PopupAnimation.PopupUI.constructor | src/ui/molecules/PopupUI.ts:16-26 | A new panel is transparent, at scale 0 and idle. |
| PopupAnimation.PopupUI.Resize | src/ui/molecules/PopupUI.ts:28-47 | Centres the panel and stores `BaseScale` for the screen's orientation. The panel takes the new scale only when idle after a reveal. |
| PopupAnimation.PopupUI.StartAnim | src/ui/molecules/PopupUI.ts:57-81 | Stores from, to and the callback, resets elapsed time and sets the duration. Opacity becomes `from`; scale becomes 0 for a reveal and the resting scale for a dismissal. A running timeline and its callback are replaced. The panel position is kept. |
| PopupAnimation.PopupUI.Show | src/ui/molecules/PopupUI.ts:49-51 | A 0.5 s reveal from transparent and scale 0, with no callback; the panel position is kept. |
| PopupAnimation.PopupUI.Hide | src/ui/molecules/PopupUI.ts:53-55 | A 0.2 s dismissal from opaque and the resting scale; the given callback is stored; the panel position is kept. |
| PopupAnimation.PopupUI.UpdateAnim | src/ui/molecules/PopupUI.ts:83-119 | The clock advances by delta/60. Opacity and scale are the curves at the capped time. The ticker stops exactly when t reaches 1, and the stored callback then runs once. A finished reveal rests at opacity 1 and the resting scale; a finished dismissal at 0 and 0. The panel position is kept. |
| Buttons.ScaleChannel | src/ui/atoms/ButtonUI.ts:305-307 | The channel times the factor, rounded down, is a byte no larger than the channel. |
| Buttons.Pack | src/ui/atoms/ButtonUI.ts:309 | Repacking three bytes gives a 24-bit colour whose channels are exactly those bytes. |
| Buttons.DarkenColor | src/ui/atoms/ButtonUI.ts:300-310 | Each output channel is the floor of the input channel times the factor, and at most the input channel. The result fits in 24 bits. |
| Buttons.SmoothStep | src/ui/atoms/ButtonUI.ts:314-319 | One frame never overshoots the target. It lands exactly on it when the distance was below 0.001, and otherwise removes at least 15% of the distance. |
| Buttons.SmoothedStaysAtTarget | src/ui/atoms/ButtonUI.ts:312-324 | Once on target, the scale stays there for any number of frames. |
| Buttons.SmoothingContracts | src/ui/atoms/ButtonUI.ts:312-324 | After n frames the distance to the target is at most 0.85^n times the starting distance. |
| Buttons.SmoothingSettles | src/ui/atoms/ButtonUI.ts:312-324 | From distance d, n ≥ 1 frames with n × 0.00015 ≥ d land exactly on the target. |
| Buttons.AfterShowHand | src/ui/atoms/ButtonUI.ts:126-142 | As written: showing the hand registers one more callback and holds it, without removing a held one. |
| Buttons.AfterHideHand | src/ui/atoms/ButtonUI.ts:144-152 | Hiding removes the held callback, if any; afterwards none is held. |
| Buttons.ShowHandTwiceLeaks | src/ui/atoms/ButtonUI.ts:126-152 | Show, show, hide leaves one hand callback registered that the button no longer holds. |
| Buttons.AfterShowHandReplacing | src/ui/atoms/ButtonUI.ts:126-142 | The corrected show first removes a held callback, then registers and holds one. |
| Buttons.ReplacingShowHandNeverLeaks | src/ui/atoms/ButtonUI.ts:126-152 | With the corrected show, show and hide keep exactly the held callback registered, and hiding leaves none. |
| Buttons.ButtonUI.constructor | src/ui/atoms/ButtonUI.ts:70-102 | The disabled colours are the background darkened by 6/10 and the text darkened by 7/10. The scales start at 1, the press-scale callback is registered and no hand callback is. The button starts disabled iff the option asks for it. With no options given, the defaults apply: white text on a black background, pressed scale 0.9, enabled, no background texture. |
| Buttons.ButtonUI.Disable | src/ui/atoms/ButtonUI.ts:108-113 | Sets the flag, turns pointer events off and shows the darkened colours (no fill for a textured background). Nothing else changes. |
| Buttons.ButtonUI.Enable | src/ui/atoms/ButtonUI.ts:115-120 | Clears the flag, turns pointer events on and shows the original colours. Nothing else changes. |
| Buttons.ButtonUI.IsDisabled | src/ui/atoms/ButtonUI.ts:122-124 | True exactly when pointer events are off. |
| Buttons.ButtonUI.OnDown | src/ui/atoms/ButtonUI.ts:250-254 | Disabled: no state changes at all. Enabled: the target becomes the pressed scale and one click sound is logged; the hand, its visibility, the frame callback and the destroyed flag are kept. |
| Buttons.ButtonUI.OnUp | src/ui/atoms/ButtonUI.ts:256-260 | Disabled: no state changes at all. Enabled: the target becomes 1 and exactly one click is logged; the hand, its visibility, the frame callback and the destroyed flag are kept. |
| Buttons.ButtonUI.OnHover | src/ui/atoms/ButtonUI.ts:240-243 | Changes nothing in either state. |
| Buttons.ButtonUI.OnOut | src/ui/atoms/ButtonUI.ts:245-248 | Changes nothing in either state. |
| Buttons.ButtonUI.AnimationFrame | src/ui/atoms/ButtonUI.ts:312-324 | The render scale becomes `SmoothStep` of its old value towards the unchanged target; the hand and the destroyed flag are kept. |
| Buttons.ButtonUI.ShowHand | src/ui/atoms/ButtonUI.ts:126-142 | Corrected as in the finding below: the hand is visible and the callbacks follow `AfterShowHandReplacing`, so exactly one hand callback is registered and held. The destroyed flag is kept. |
| Buttons.ButtonUI.HideHand | src/ui/atoms/ButtonUI.ts:144-152 | The hand is hidden, the callbacks follow `AfterHideHand`, and no hand callback stays registered. That holds only because `ShowHand` is the corrected one (see Findings); the destroyed flag and the rest are kept. |
| Buttons.ButtonUI.Destroy | src/ui/atoms/ButtonUI.ts:326-337 | Both callbacks are removed: the press-scale callback is unregistered and no hand callback stays registered, the latter given the corrected `ShowHand` (see Findings). The log, the scales and the disabled flag are kept. |
| Screen.ScreenAdapter.constructor | src/core/ScreenAdapter.ts:6-16 | Width and height start at 0. |
| Screen.ScreenAdapter.UpdateDimensions | src/core/ScreenAdapter.ts:25-28 | Sets width and height exactly and nothing else. |
| Screen.ScreenAdapter.IsLandscape | src/core/ScreenAdapter.ts:30-32 | A landscape viewport is never square. |
| Screen.ScreenAdapter.IsPortrait | src/core/ScreenAdapter.ts:34-36 | A portrait viewport is never square. |
| Screen.ScreenAdapter.IsMobile | src/core/ScreenAdapter.ts:38-40 | A mobile width is below the desktop threshold. |
| Screen.ScreenAdapter.IsMobileXs | src/core/ScreenAdapter.ts:38-44 | An extra-small width is also a mobile width. |
| Screen.ScreenAdapter.IsTablet | src/core/ScreenAdapter.ts:46-48 | A tablet width is never a mobile width. |
| Screen.ScreenAdapter.IsDesktop | src/core/ScreenAdapter.ts:50-52 | A desktop width is neither mobile nor tablet. |
| Screen.ScreenAdapter.GetScreenType | src/core/ScreenAdapter.ts:58-62 | Returns the bucket whose predicate holds, for each of the three buckets. |
| Screen.ScreenAdapter.GetOrientation | src/core/ScreenAdapter.ts:64-66 | Landscape iff width > height, so a square viewport is portrait. |
| Screen.ScreenAdapter.OrientationExclusive | src/core/ScreenAdapter.ts:30-36 | Landscape and portrait never both hold. Neither holds for a square, and one of them holds otherwise. |
| Screen.ScreenAdapter.DeviceBucketsPartition | src/core/ScreenAdapter.ts:38-52 | Exactly one of mobile, tablet and desktop holds for any width. |
| Fitting.FitToScreen | src/helpers/fitToScreen.ts:19-56 | Mode none gives the original scale, or 1 when that is 0. Without upscaling the result is at most 1 and at most the raw ratio, and equals one of them. With upscaling it is the raw ratio unclamped. |
| Fitting.BothIsTightest | src/helpers/fitToScreen.ts:46-48 | The combined mode is at most each single-axis result and equals one of them. |
| Fitting.WidthModeIgnoresHeight | src/helpers/fitToScreen.ts:38-40 | The width mode depends only on the width inputs; the height inputs may be anything, a zero element height included. |
| Fitting.HeightModeIgnoresWidth | src/helpers/fitToScreen.ts:42-44 | The height mode depends only on the height inputs; the width inputs may be anything, a zero element width included. |
| Fitting.DefaultsFitBothAxesWithoutUpscale | src/helpers/fitToScreen.ts:24-29 | With only the sizes given (ratios 1, original scale 1, both axes, no upscale), the result is the tighter of the two screen-to-element ratios, capped at 1. |
| Fitting.PositiveInputsGivePositiveScale | src/helpers/fitToScreen.ts:32-53 | Positive sizes and ratios give a positive scale. |
| Fonts.FontConfigs | src/core/Fonts.ts:36-55 | Each entry's family is its key. Only Marvin has a font file, and every entry is weight 400, style normal. |
| Fonts.GetFontStack | src/core/Fonts.ts:104-107 | The stack is the primary family, then the fallbacks without it, joined by ", ". It starts with the primary's name and the separator. |
| Fonts.StackListsEachFamilyOnce | src/core/Fonts.ts:105 | The primary and each fallback appear exactly once in the stack's family list. |
| Fonts.FallbackOrderIsKept | src/core/Fonts.ts:105 | The fallbacks keep the order Arial, sans-serif, with the primary removed. |
| Fonts.DefaultStackIsMarvinStack | src/core/Fonts.ts:57 | The default stack equals the constant "Marvin, Arial, sans-serif". |
| Fonts.ArialStack | src/core/Fonts.ts:102 | The Arial stack is "Arial, sans-serif". |
| Labels.Pulse | src/ui/atoms/LabelUI.ts:45-53 | The target becomes its old value times the factor. One timer is scheduled that captured the old target, and earlier timers are kept. |
| Labels.Fire | src/ui/atoms/LabelUI.ts:50-52 | A firing timer writes back the target it captured and leaves the other timers in order. |
| Labels.PulseThenFireRestores | src/ui/atoms/LabelUI.ts:45-53 | A pulse followed by its own timer restores the state exactly. |
| Labels.OverlappingPulsesLastFireWins | src/ui/atoms/LabelUI.ts:46-52 | With two overlapping pulses, the timer that fires last decides the target. First-then-second leaves the first dip; second-then-first restores the original. |
| Labels.LabelUI.constructor | src/ui/atoms/LabelUI.ts:23-39 | The target and render scale start at 1, with no timers pending. |
| Labels.LabelUI.PulseScale | src/ui/atoms/LabelUI.ts:45-53 | The new state is `Pulse` of the old one (defaults 0.95 and 100 ms), and the render scale stays 1. |
| Labels.LabelUI.FireTimeout | src/ui/atoms/LabelUI.ts:50-52 | The new state is `Fire` of the old one, and the render scale stays 1. |
| Score.ScoreManager.constructor | src/core/ScoreManager.ts:10-12 | The score starts at the default, which is 0. |
| Score.ScoreManager.ResetScore | src/core/ScoreManager.ts:33-35 | The score is put back to the default. |
| Score.ScoreManager.GetScoreDefault | src/core/ScoreManager.ts:21-23 | Always 0. |
| Score.ScoreManager.GetCurrentScore | src/core/ScoreManager.ts:25-27 | A read-only query of the current score. |
| Score.ScoreManager.AddScore | src/core/ScoreManager.ts:29-31 | The score grows by exactly the value; the default is a constant and cannot change. |

## Left out

- Scheduling: `requestAnimationFrame`, the PIXI `Ticker`, `setTimeout`, `async`/`await` and promises.
  - Every frame or timer firing is an explicit method call.
  - `SwitchScene` runs a whole switch at once, so two switches in flight cannot interleave.
  - `PopupManager.show` and `hideCurrent` are likewise taken to complete each call before the next.
- Floating point.
  - Scene opacity is an integer count of twentieths. In IEEE doubles the repeated ±0.05 steps land near 0 and 1 rather than on them, and the clamp then decides.
  - The popup curves, the smoothing step, the score and the fit-to-screen scale are exact `real` arithmetic.
- Buttons.DarkenColor: uses the exact factors 6/10 and 7/10. In IEEE doubles `90 * 0.7` is just below 63, so channels 90, 170 and 180 darken one step lower than the exact value.
- Fitting.FitToScreen: requires non-zero element sizes on the axes its mode uses. Division by zero yields an IEEE infinity or NaN, which the model does not represent.
- Scene and popup content: the concrete main scene, final scene and result popup are out, as are graphics, text styles, filters, sprites, cursor and pivot.
  - A scene is an identity with a type, an opacity, a destroyed flag, a listener count and a resize log.
  - A popup is an identity in the manager's log.
- Scenes.SceneManager.Resize: takes resizing a cached scene that was already destroyed to succeed and only records the size. The concrete scenes' `resize` touches children that `destroy({ children: true })` has torn down, and whether that throws depends on PIXI internals that are not part of this model.
- The switch request a scene can emit is out; scenes are only subscribed to it (a listener count).
- The host's own container teardown in `destroy` is out. The model empties the children and stops there.
- `createScene`'s unknown-type error cannot happen, because the scene type is a closed datatype.
- The popup's optional `resize`: the manager logs a resize call for every popup.
- Singleton access (`getInstance` of the screen adapter, popup manager and score manager): each is one explicitly constructed object.
- The popup reads the shared screen adapter passed to its constructor.
- `ScreenAdapter.getAspectRatio`: it divides by a possibly zero height.
- The hand cue's `Math.sin` pulse and its sprite placement: only registration and removal of its frame callback are modelled.
- The click sound and the `click` emission are events in the button's log. The sound library is not part of this model.
- `setText` on buttons and labels, and text rendering, are out.
- Font loading (`loadFonts`, `loadFont`, the `FontFace` API). `MARVIN_FONT_URL` stands for the bundled font's URL.
- Colours are non-negative integers. Channel extraction is written as floor division and remainder. That agrees with JavaScript's 32-bit shift-and-mask for every such colour, because the 32-bit wrap leaves the low 24 bits alone.
- `LabelUI` never registers its frame callback, so its render scale is pinned to 1 as an invariant.
- Bootstrap, asset loading and sound, which are outside the core.

## Findings

| source | as written | input that shows it | evidently intended | confidence | as-written member | corrected member |
|---|---|---|---|---|---|---|
| src/ui/atoms/ButtonUI.ts:126-142 | `showHand` overwrites the held hand callback with a new one and registers it, without removing the callback it already held | `showHand(); showHand(); hideHand()` leaves one pulse callback registered on the shared ticker that the button can no longer remove, even from `destroy` | remove a held hand callback before registering a new one, so that show/hide keep at most one registered and hide leaves none | high; not executed | Buttons.ShowHandTwiceLeaks | Buttons.ReplacingShowHandNeverLeaks |

`Buttons.AfterShowHand` models `showHand` as written. `Buttons.ButtonUI.ShowHand` follows the corrected `Buttons.AfterShowHandReplacing`, so the button's invariant keeps at most one hand callback registered.
