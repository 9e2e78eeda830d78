/**
  The fade state machine of the `LayeredMusic` component, as pure functions
  over a snapshot of its state.

  The component holds three looping audio sources (`MXL1`..`MXL3`, indices
  0..2 here), one global `isRunning` flag, the shared `normalizedTime` field,
  and the fade coroutines that are suspended at their `yield`. A coroutine is
  a `Fade` record: its layer, its direction, its loop counter `t` and its
  duration. One Unity frame is `Update` (the key presses of that frame)
  followed by one resumption of every coroutine that was already suspended
  before that `Update`.
 */
module Fading {
  import opened Mathf

  /** The number of layers the component drives. */
  const LayerCount := 3

  datatype Direction = In | Out

  /** `FadeIn` is started with `finish` 1.0; `FadeOut` lerps toward 0.0. */
  function Target(d: Direction): real
  {
    if d == In then 1.0 else 0.0
  }

  /** The serialized fade durations, in seconds. */
  datatype Config = Config(inDuration: real, outDuration: real)

  /** The editor range of both durations. */
  predicate ValidConfig(c: Config)
  {
    0.1 <= c.inDuration <= 10.0 && 0.1 <= c.outDuration <= 10.0
  }

  /** `Update` passes `inDuration` to `FadeIn` and `outDuration` to `FadeOut`. */
  function Duration(c: Config, d: Direction): real
  {
    if d == In then c.inDuration else c.outDuration
  }

  /** A suspended fade coroutine: its source, its direction, its loop variable and its duration. */
  datatype Fade = Fade(layer: nat, dir: Direction, t: real, duration: real)

  /** The component's mutable state. */
  datatype State = State(volumes: seq<real>, isRunning: bool, normalizedTime: real, fades: seq<Fade>)

  /** The state once `Start` has found the three sources: every volume 0, not running, no fade. */
  function Initial(): (r: State)
    ensures |r.volumes| == LayerCount && forall i | 0 <= i < |r.volumes| :: r.volumes[i] == 0.0
    ensures !r.isRunning && r.fades == []
  {
    State([0.0, 0.0, 0.0], false, 0.0, [])
  }

  // ---------------------------------------------------------------------------
  // Invariants

  /** A suspended coroutine: it has passed its loop test, so `t < duration`. */
  ghost predicate Running(f: Fade, c: Config)
  {
    f.layer < LayerCount && 0.0 <= f.t < f.duration && f.duration == Duration(c, f.dir)
  }

  ghost predicate AllRunning(p: seq<Fade>, c: Config)
  {
    forall k | 0 <= k < |p| :: Running(p[k], c)
  }

  /**
    Everything but the coupling of the flag to the coroutines: three volumes,
    each in [0, 1) (a volume never reaches 1.0, see `Resume`), and
    `normalizedTime` in [0, 1).
   */
  ghost predicate Sound(s: State, c: Config)
  {
    && ValidConfig(c)
    && |s.volumes| == LayerCount
    && (forall i | 0 <= i < |s.volumes| :: 0.0 <= s.volumes[i] < 1.0)
    && 0.0 <= s.normalizedTime < 1.0
    && AllRunning(s.fades, c)
  }

  /** The reachable states: a set `isRunning` means some coroutine is still suspended. */
  ghost predicate Inv(s: State, c: Config)
  {
    Sound(s, c) && (s.isRunning ==> s.fades != [])
  }

  /** What the functions below need to index `volumes` and divide by a duration. */
  ghost predicate Resumable(s: State)
  {
    forall k | 0 <= k < |s.fades| :: s.fades[k].layer < |s.volumes| && 0.0 <= s.fades[k].t
  }

  /** `after` lies between `before` and `target`: one step of a fade moves a volume toward its target and never past it. */
  ghost predicate Toward(before: real, after: real, target: real)
  {
    (before <= target ==> before <= after <= target) && (target <= before ==> target <= after <= before)
  }

  // ---------------------------------------------------------------------------
  // The coroutines

  /**
    One pass of a fade coroutine from its loop test, with its loop variable
    already at `f.t`. While `t < duration` it sets `normalizedTime` to
    `t / duration`, re-seeds the lerp from the current volume and yields, so
    it stays suspended (appended to `fades`). Otherwise the loop is over: a
    fade-out snaps its volume to exactly 0, a fade-in leaves it as computed,
    and either one clears the global flag.
   */
  function Resume(s: State, f: Fade): (r: State)
    requires f.layer < |s.volumes| && 0.0 <= f.t
    ensures |r.volumes| == |s.volumes|
    ensures forall j | 0 <= j < |s.volumes| && j != f.layer :: r.volumes[j] == s.volumes[j]
    ensures f.t < f.duration ==>
      && r.fades == s.fades + [f]
      && r.isRunning == s.isRunning
      && 0.0 <= r.normalizedTime < 1.0
      && Toward(s.volumes[f.layer], r.volumes[f.layer], Target(f.dir))
    ensures f.t == 0.0 < f.duration ==> r.volumes == s.volumes && r.normalizedTime == 0.0
    ensures f.duration <= f.t ==>
      && r.fades == s.fades
      && !r.isRunning
      && r.normalizedTime == s.normalizedTime
      && r.volumes[f.layer] == (if f.dir == Out then 0.0 else s.volumes[f.layer])
    ensures 0.0 <= s.volumes[f.layer] < 1.0 ==> 0.0 <= r.volumes[f.layer] < 1.0
    // a fade-in step past its first iteration lifts a silent layer off 0
    ensures f.dir == In && 0.0 < f.t < f.duration && 0.0 <= s.volumes[f.layer] < 1.0 ==> 0.0 < r.volumes[f.layer]
  {
    if f.t < f.duration then
      var x := f.t / f.duration;
      var v := Lerp(s.volumes[f.layer], Target(f.dir), x);
      s.(volumes := s.volumes[f.layer := v], normalizedTime := x, fades := s.fades + [f])
    else
      var v := if f.dir == Out then 0.0 else s.volumes[f.layer];
      s.(volumes := s.volumes[f.layer := v], isRunning := false)
  }

  /**
    `StartCoroutine(FadeIn(..))` or `StartCoroutine(FadeOut(..))`: the
    coroutine sets the flag and runs up to its first `yield`, which is the
    `t = 0` iteration.
   */
  function Start(s: State, layer: nat, dir: Direction, duration: real): (r: State)
    requires layer < |s.volumes| && 0.0 < duration
    ensures r.volumes == s.volumes
    ensures r.isRunning && r.normalizedTime == 0.0
    ensures r.fades == s.fades + [Fade(layer, dir, 0.0, duration)]
  {
    Resume(s.(isRunning := true), Fade(layer, dir, 0.0, duration))
  }

  // ---------------------------------------------------------------------------
  // Update

  /** The fade a key press on layer `i` asks for: in if the volume is exactly 0, out otherwise. */
  function Requested(s: State, c: Config, i: nat): Fade
    requires i < |s.volumes|
  {
    var dir := if s.volumes[i] == 0.0 then In else Out;
    Fade(i, dir, 0.0, Duration(c, dir))
  }

  /**
    The two conditions of `Update` for one key: a fade-in when the volume is
    exactly 0, then, tested afresh, a fade-out when it is not. The fade-in's
    first iteration leaves the volume at 0, so a press starts exactly one fade.
   */
  function TriggerLayer(s: State, c: Config, pressed: set<int>, i: nat): (r: State)
    requires i < |s.volumes| && ValidConfig(c)
    ensures r.volumes == s.volumes
    ensures r.isRunning == (s.isRunning || i in pressed)
    ensures r.normalizedTime == if i in pressed then 0.0 else s.normalizedTime
    ensures r.fades == s.fades + if i in pressed then [Requested(s, c, i)] else []
  {
    var s1 := if i in pressed && s.volumes[i] == 0.0 then Start(s, i, In, c.inDuration) else s;
    if i in pressed && s1.volumes[i] != 0.0 then Start(s1, i, Out, c.outDuration) else s1
  }

  /** The fades one `Update` starts: one per pressed layer, in key order. */
  function Requests(s: State, c: Config, pressed: set<int>): seq<Fade>
    requires |s.volumes| == LayerCount
  {
    (if 0 in pressed then [Requested(s, c, 0)] else [])
    + (if 1 in pressed then [Requested(s, c, 1)] else [])
    + (if 2 in pressed then [Requested(s, c, 2)] else [])
  }

  /**
    `Update`: the flag is read once, before the keys are looked at; so while
    it is set nothing happens, and when it is clear every key pressed in the
    same frame starts its fade. No volume changes in the frame a fade starts.
   */
  function Update(s: State, c: Config, pressed: set<int>): (r: State)
    requires |s.volumes| == LayerCount && ValidConfig(c)
    ensures r.volumes == s.volumes
    ensures s.isRunning ==> r == s
    ensures !s.isRunning ==>
      var started := Requests(s, c, pressed);
      r == s.(isRunning := started != [],
              normalizedTime := if started == [] then s.normalizedTime else 0.0,
              fades := s.fades + started)
  {
    if !s.isRunning then
      var s0 := TriggerLayer(s, c, pressed, 0);
      var s1 := TriggerLayer(s0, c, pressed, 1);
      assert Requested(s0, c, 1) == Requested(s, c, 1);
      var s2 := TriggerLayer(s1, c, pressed, 2);
      assert Requested(s1, c, 2) == Requested(s, c, 2);
      s2
    else
      s
  }

  // ---------------------------------------------------------------------------
  // Resuming the coroutines

  /** A resumed coroutine first runs `t += Time.deltaTime`. */
  function Advance(f: Fade, dt: real): Fade
  {
    f.(t := f.t + dt)
  }

  /** Resumes the coroutines `p`, in order, on top of `a`; the ones still suspended are appended to `a.fades`. */
  function StepFades(a: State, p: seq<Fade>, dt: real): (r: State)
    requires 0.0 <= dt
    requires forall k | 0 <= k < |p| :: p[k].layer < |a.volumes| && 0.0 <= p[k].t
    ensures |r.volumes| == |a.volumes|
    ensures Resumable(a) ==> Resumable(r)
    // the survivors are appended, in order, after the coroutines already in `a`
    ensures |a.fades| <= |r.fades| <= |a.fades| + |p| && r.fades[..|a.fades|] == a.fades
    // resuming never sets the flag
    ensures !a.isRunning ==> !r.isRunning
    decreases |p|
  {
    if p == [] then a
    else Resume(StepFades(a, p[..|p| - 1], dt), Advance(p[|p| - 1], dt))
  }

  /** Resumes the first `n` suspended coroutines with frame time `dt`; the rest keep their place after the survivors. */
  function Step(s: State, dt: real, n: nat): (r: State)
    requires 0.0 <= dt && n <= |s.fades| && Resumable(s)
    ensures |r.volumes| == |s.volumes| && Resumable(r)
    // the coroutines not resumed keep their order, after the survivors
    ensures |s.fades| - n <= |r.fades| <= |s.fades| && r.fades[|r.fades| - (|s.fades| - n)..] == s.fades[n..]
    ensures !s.isRunning ==> !r.isRunning
  {
    var a := StepFades(s.(fades := []), s.fades[..n], dt);
    var rest := s.fades[n..];
    assert forall k | 0 <= k < |rest| :: rest[k] == s.fades[n + k];
    a.(fades := a.fades + rest)
  }

  /**
    One frame: `Update` with the keys pressed in it, then one resumption of
    every coroutine that was suspended before that `Update` (a coroutine
    started in `Update` has already run its first iteration).
   */
  function Frame(s: State, c: Config, pressed: set<int>, dt: real): (r: State)
    requires |s.volumes| == LayerCount && ValidConfig(c) && Resumable(s) && 0.0 <= dt
    ensures |r.volumes| == LayerCount && Resumable(r)
  {
    var u := Update(s, c, pressed);
    assert Resumable(u) by {
      assert u.fades == s.fades || u.fades == s.fades + Requests(s, c, pressed);
    }
    Step(u, dt, |s.fades|)
  }

  /** Frames in which no key is pressed, with frame times `dts`. */
  function Run(s: State, c: Config, dts: seq<real>): (r: State)
    requires |s.volumes| == LayerCount && ValidConfig(c) && Resumable(s)
    requires forall k | 0 <= k < |dts| :: 0.0 <= dts[k]
    ensures |r.volumes| == LayerCount && Resumable(r)
    decreases |dts|
  {
    if dts == [] then s else Run(Frame(s, c, {}, dts[0]), c, dts[1..])
  }
}
