# LayeredMusic fade state machine in Dafny

This project models the Unity component `LayeredMusic`. It plays three
looping music layers (the audio sources `MXL1`..`MXL3`) in sync. A key press
fades a layer in or out. It models:

- the state the component is in once `Start` has found its sources: every
  volume 0, `isRunning` false;
- the per-frame `Update`, which reads the global `isRunning` flag once and
  then, for each pressed key, starts `FadeIn` if that layer's volume is
  exactly 0 and `FadeOut` otherwise;
- the `FadeIn` and `FadeOut` coroutines. Each one sets the flag and runs its
  `t = 0` iteration as soon as it starts. After that, once per frame, it does
  `t += deltaTime`, sets `normalizedTime = t / duration`, and sets
  `volume = Lerp(volume, target, normalizedTime)`. The lerp starts again from
  the current volume each time. When `t >= duration` the coroutine clears the
  flag. A fade-out also snaps its volume to exactly 0.

Files:

- `mathf.dfy` (module `Mathf`): `Mathf.Clamp01` and `Mathf.Lerp` over the reals.
- `fading.dfy` (module `Fading`): the state machine as pure functions over a
  `State` value (volumes, flag, `normalizedTime`, suspended coroutines).
  A suspended coroutine is a `Fade` record: layer, direction, loop variable
  `t` and duration. A frame (`Frame`) is `Update` followed by one resumption
  of every coroutine that was suspended before that `Update`. A coroutine
  started in `Update` has already run its first iteration and resumes in the
  next frame.
- `fade_properties.dfy` (module `FadeProperties`): the invariant, per-layer
  direction and isolation, and the end of every fade.
- `layered_music.dfy` (module `Component`): the class `LayeredMusic`. Its
  `volumes` array and its fields are updated in place. Every method is proved
  to match the corresponding `Fading` function.
- `scenarios.dfy` (module `Scenarios`): exact frame-by-frame traces.

Layers are indexed 0..2; key n drives index n - 1. Keys are passed to
`Update` as the set of layer indices pressed in that frame; other values are
ignored, as keys other than 1..3 are.

Three behaviours of the code, each stated by a member of the model:

- Only a fade-out snaps its volume to its target (LayeredMusic.cs:157). A
  fade-in ends at whatever the last lerp gave. The comment at
  LayeredMusic.cs:151-155 expects a fade-in to end within about 0.000001 of
  1.0. Over the reals, a layer never reaches 1.0 (`Fading.Inv` keeps every
  volume in [0, 1)). With 2 s fades and 0.5 s frames, layer 1 reads 0,
  0.25, 0.625 and 0.90625 after each frame, and its fade-in ends at 0.90625
  (`Scenarios.FadeInTrace`).
- A press fades a layer out only if its volume is not exactly 0. A fade-in
  lifts a silent layer off 0 only when it is resumed at least once before
  its loop ends, that is, when the frame time is shorter than `inDuration`
  (`FadeProperties.FadeInArmsFadeOut`, `FadeProperties.FadeInKeepsFadeOut`).
  With a 0.1 s fade-in and 0.1 s frames, the loop ends at the first
  resumption, the volume stays 0, and the next press on that key starts
  another fade-in (`Scenarios.ShortFadeIn`).
- The comment at LayeredMusic.cs:47 says the flag keeps a coroutine from
  being triggered again before it finishes. The flag is one for all layers,
  and it is read once per `Update`. Several keys pressed in one frame each
  start a fade. Whichever coroutine ends first clears the flag for everyone.
  So two coroutines can run on one layer at once, even in opposite
  directions (`Scenarios.GlobalFlagTrace`).

## Model

| member | source | states |
|---|---|---|
| `Mathf.Lerp` | LayeredMusic.cs:131 | the result lies between the two endpoints; at fraction 0 it is the start, at 1 the target; below 1 it equals the target only if the start already does |
| `Fading.Initial` | LayeredMusic.cs:51-107 | the state a successful `Start` leaves: three volumes, each 0, the flag clear and no coroutine suspended |
| `Fading.Resume` | LayeredMusic.cs:125-162 | one pass of a fade coroutine. A fade-in step past `t = 0` lifts a volume in [0, 1) above 0. If `t < duration` it stays suspended, keeps the flag, sets `normalizedTime` in [0, 1), and moves its own layer's volume toward the target without passing it; at `t = 0` nothing moves. Otherwise it is gone and the flag is clear; a fade-out leaves its volume exactly 0 and a fade-in leaves it as it was. Other layers never change, and a volume in [0, 1) stays there |
| `Fading.Start` | LayeredMusic.cs:125-148 | starting either coroutine (`FadeIn` at lines 125-132, `FadeOut` at 140-148) sets the flag, sets `normalizedTime` to 0, changes no volume, and adds exactly one suspended coroutine at `t = 0` with the given direction and duration |
| `Fading.TriggerLayer` | LayeredMusic.cs:115-116 | a press on a layer starts exactly one coroutine: a fade-in when its volume is exactly 0, a fade-out otherwise, with the matching configured duration; without a press nothing changes; no volume changes |
| `Fading.Update` | LayeredMusic.cs:110-123 | while the flag is set the state is unchanged. Otherwise one coroutine is appended per pressed key, in key order, each chosen from its layer's volume at the start of the frame. The flag is then set exactly when something started. No volume changes |
| `Fading.StepFades` | LayeredMusic.cs:129-160 | resuming coroutines in order keeps the number of layers; the survivors are appended after the coroutines already suspended, at most one per resumed coroutine; resuming never sets the flag. Its other properties are the `StepFades*` lemmas below |
| `Fading.Step` | LayeredMusic.cs:129-160 | resuming the first `n` suspended coroutines leaves the others, in order, after the survivors, never sets the flag and never adds a coroutine. `StepKeepsInv` proves it keeps the invariant |
| `Fading.Frame` | LayeredMusic.cs:110-162 | a frame keeps three layers and well-formed coroutines; what it promises is proved by `FrameKeepsInv`, `FrameToward`, `FrameUntouched`, `FrameStartsLast`, `IdleFrame` and `QuietFrame` |
| `Fading.Run` | LayeredMusic.cs:110-162 | frames without key presses keep three layers; what they promise is proved by `RunClock`, `RunAdvance`, `AllFadesEnd`, `FadesEndWithin` and `IdleRun` |
| `FadeProperties.StepFadesSound` | LayeredMusic.cs:129-159 | resuming coroutines keeps every volume in [0, 1) and every survivor suspended with `t < duration`; the flag is still set only if it was set and no coroutine ended |
| `FadeProperties.StepFadesToward` | LayeredMusic.cs:129-147 | if every resumed coroutine on a layer has the same direction, the layer's volume moves toward that direction's target and never past it: non-decreasing for fade-ins, non-increasing for fade-outs |
| `FadeProperties.StepFadesUntouched` | LayeredMusic.cs:125-148 | a layer that no resumed coroutine drives keeps its volume |
| `FadeProperties.StepFadesClock` | LayeredMusic.cs:129 | a shared lower bound only: if every resumed coroutine has `t >= lo`, every coroutine suspended afterwards has `t >= lo + dt` (the statement for each coroutine is `StepFadesAdvance`) |
| `FadeProperties.StepFadesAdvance` | LayeredMusic.cs:129 | every coroutine newly suspended by a resumption is one of the resumed coroutines, with the same layer, direction and duration and its own `t` advanced by exactly the frame time, and still short of its duration |
| `FadeProperties.InitialInv` | LayeredMusic.cs:51-107 | the state after `Start` satisfies the invariant: every volume 0, flag clear, no coroutine |
| `FadeProperties.UpdateKeepsInv` | LayeredMusic.cs:113-121 | `Update` keeps the invariant |
| `FadeProperties.StepKeepsInv` | LayeredMusic.cs:127-159 | resuming any prefix of the coroutines keeps the invariant (volumes in [0, 1); a set flag means some coroutine is suspended) |
| `FadeProperties.FrameKeepsInv` | LayeredMusic.cs:110-162 | every frame, whatever keys are pressed, keeps the invariant |
| `FadeProperties.FrameToward` | LayeredMusic.cs:129-147 | over a frame, a layer whose coroutines all fade in does not get quieter, one whose coroutines all fade out does not get louder, and neither passes its target |
| `FadeProperties.FrameUntouched` | LayeredMusic.cs:125-148 | over a frame, a layer with no coroutine keeps its volume whatever keys are pressed; a fade starting in that frame changes nothing yet |
| `FadeProperties.FadeInArmsFadeOut` | LayeredMusic.cs:115-116 | a fade-in started on a silent layer and resumed with a frame time shorter than `inDuration` lifts the layer above 0, so the next press on it asks for a fade-out |
| `FadeProperties.FadeInKeepsFadeOut` | LayeredMusic.cs:115-116 | a layer above 0 whose coroutines all fade in stays above 0 over a frame, whatever keys are pressed, so the next press on it still asks for a fade-out |
| `FadeProperties.FrameStartsLast` | LayeredMusic.cs:110-133 | when the flag is clear, the coroutines a frame's `Update` starts are not resumed in that frame: they are the last suspended coroutines, in key order |
| `FadeProperties.IdleFrame` | LayeredMusic.cs:110-123 | with nothing suspended and no key pressed, a frame leaves the state as it was |
| `FadeProperties.QuietFrame` | LayeredMusic.cs:113-121 | a frame with no key pressed only resumes the suspended coroutines |
| `FadeProperties.RunClock` | LayeredMusic.cs:144 | over frames without key presses the invariant holds and, if every coroutine suspended at the start has `t >= lo`, every one suspended at the end has `t >= lo` plus the total elapsed time (a shared bound; the statement for each coroutine is `RunAdvance`) |
| `FadeProperties.RunAdvance` | LayeredMusic.cs:129 | over frames without key presses (the loop step of line 129, and of line 144 for fade-outs), every coroutine suspended at the end is one that was suspended at the start, with its own `t` advanced by exactly the total elapsed time |
| `FadeProperties.IdleRun` | LayeredMusic.cs:110-123 | an idle component stays exactly as it is over any number of frames without key presses |
| `FadeProperties.AllFadesEnd` | LayeredMusic.cs:129-135 | without key presses, once the frame times add up to both configured durations, no coroutine is left and the flag is clear |
| `FadeProperties.FadesEndWithin` | LayeredMusic.cs:33-38 | with a fixed frame time `dt > 0` and no key presses, every fade has ended and the flag is clear after any `n` frames with `n * dt >= 10` s, the upper end of the duration range |
| `Scenarios.FadeInTrace` | LayeredMusic.cs:115-135 | a 2 s fade-in with 0.5 s frames, whatever the fade-out duration: the volume is exactly 0, 0.25, 0.625, 0.90625, then 0.90625 with the flag clear and nothing suspended; the next press on that key starts a fade-out |
| `Scenarios.ShortFadeIn` | LayeredMusic.cs:115-137 | a 0.1 s fade-in with 0.1 s frames ends at its first resumption with the volume still 0 and the flag clear, and the next press on that key starts another fade-in |
| `Scenarios.GlobalFlagTrace` | LayeredMusic.cs:113-120 | with a 2 s fade-in and a 1 s fade-out, from the state `FadeInTrace` reaches after five frames, two keys in one frame start two coroutines. The fade-out ends first and clears the flag while the other layer's fade-in is still suspended. A press on that layer then adds a fade-out beside the running fade-in |
| `Scenarios.FadeOutEndsFirst` | LayeredMusic.cs:157-159 | the frame in which one coroutine ends snaps its layer to 0 and clears the flag though another coroutine stays suspended |
| `Scenarios.SecondFadeOnLayer` | LayeredMusic.cs:113-118 | with the flag clear, a press on a layer that already has a suspended fade-in starts a second coroutine on that layer |
| `Component.LayeredMusic.constructor` | LayeredMusic.cs:51-107 | the component starts valid with every volume 0, the flag clear and no coroutine |
| `Component.LayeredMusic.ResumeFade` | LayeredMusic.cs:129-160 | in-place version of `Fading.Resume` on the volume array and fields |
| `Component.LayeredMusic.StartFade` | LayeredMusic.cs:125-148 | in-place version of `Fading.Start`, for `FadeIn` (lines 125-132) and `FadeOut` (lines 140-148) |
| `Component.LayeredMusic.Trigger` | LayeredMusic.cs:115-116 | in-place version of `Fading.TriggerLayer` |
| `Component.LayeredMusic.Update` | LayeredMusic.cs:110-123 | in-place `Fading.Update`. Keeps the invariant. While the flag is set the object and its volumes are unchanged. No volume changes |
| `Component.LayeredMusic.ResumeAll` | LayeredMusic.cs:129-160 | resumes the given coroutines one after the other in place; the result is `Fading.StepFades` on the state before |
| `Component.LayeredMusic.Step` | LayeredMusic.cs:129-160 | resumes the first `n` suspended coroutines in place. The result is `Fading.Step`, and the invariant is kept |
| `Component.LayeredMusic.Frame` | LayeredMusic.cs:110-162 | one frame in place. The result is `Fading.Frame`, and the invariant is kept |

## Left out

- Finding the sources, `GetComponent<AudioSource>`, `loop`, `Play()`, and the `Debug.LogError` / `Application.Quit` path when a source is missing (LayeredMusic.cs:60-104). The constructor models only the state a successful `Start` leaves.
- That all layers start playing at the same moment, so their playback positions stay aligned. Playback is done by the audio engine, not by this component.
- `Input.GetKeyDown`: the keys of a frame are a parameter.
- Unity's coroutine scheduler. Coroutines are resumed in the order they were started, which Unity does not document. `StopCoroutine("FadeIn")` and `StopCoroutine("FadeOut")` (LayeredMusic.cs:136, 160) are left out because they stop nothing: stopping by name only affects coroutines started by name, and these were started from an `IEnumerator` (LayeredMusic.cs:115-120). Other running fades of the same name are therefore not stopped either.
- Floating-point arithmetic. Volumes, times and durations are reals, so the model says a fade-in never reaches exactly 1.0 rather than modelling rounding residues.
- Audio output and the mixer-group idea in the header comment (LayeredMusic.cs:22).
- Durations outside the editor range [0.1, 10.0] (LayeredMusic.cs:33-38): the class and `Fading.Update` require that range.
- Negative `Time.deltaTime`: every step requires `dt >= 0`.
- FadeProperties.AllFadesEnd: stated for frames without key presses, because a press can start a new fade at any time.
- FadeProperties.FadesEndWithin: stated for frames without key presses, for the same reason: a press in the last frame starts a new fade.
