/**
  What the fade state machine guarantees: the invariant every frame keeps,
  the direction of each fade, the isolation of layers, and the end of every
  fade once enough time has passed without a key press.
 */
module FadeProperties {
  import opened Fading

  // ---------------------------------------------------------------------------
  // Resuming coroutines

  /** Resuming running coroutines keeps every volume in [0, 1); the flag stays set only if none of them finished. */
  lemma {:induction false} StepFadesSound(a: State, p: seq<Fade>, c: Config, dt: real)
    requires Sound(a, c) && AllRunning(p, c) && 0.0 <= dt
    ensures Sound(StepFades(a, p, dt), c)
    ensures StepFades(a, p, dt).isRunning ==> a.isRunning && |StepFades(a, p, dt).fades| == |a.fades| + |p|
    decreases |p|
  {
    if p != [] {
      var q := p[..|p| - 1];
      StepFadesSound(a, q, c, dt);
      var b := StepFades(a, q, dt);
      var f := Advance(p[|p| - 1], dt);
      var r := Resume(b, f);
      if f.t < f.duration {
        assert Running(f, c);
        assert forall k | 0 <= k < |r.fades| :: r.fades[k] == if k < |b.fades| then b.fades[k] else f;
      }
    }
  }

  /** When every coroutine for layer `i` heads the same way, that layer's volume only moves toward that direction's target. */
  lemma {:induction false} StepFadesToward(a: State, p: seq<Fade>, c: Config, dt: real, i: nat, d: Direction)
    requires Sound(a, c) && AllRunning(p, c) && 0.0 <= dt && i < LayerCount
    requires forall k | 0 <= k < |p| && p[k].layer == i :: p[k].dir == d
    ensures Toward(a.volumes[i], StepFades(a, p, dt).volumes[i], Target(d))
    decreases |p|
  {
    if p != [] {
      var q := p[..|p| - 1];
      StepFadesToward(a, q, c, dt, i, d);
      StepFadesSound(a, q, c, dt);
    }
  }

  /** A layer no coroutine drives keeps its volume. */
  lemma {:induction false} StepFadesUntouched(a: State, p: seq<Fade>, dt: real, i: nat)
    requires 0.0 <= dt && i < |a.volumes|
    requires forall k | 0 <= k < |p| :: p[k].layer < |a.volumes| && 0.0 <= p[k].t && p[k].layer != i
    ensures StepFades(a, p, dt).volumes[i] == a.volumes[i]
    decreases |p|
  {
    if p != [] {
      StepFadesUntouched(a, p[..|p| - 1], dt, i);
    }
  }

  /** Every coroutine still suspended after a resumption has advanced its loop variable by the frame time. */
  lemma {:induction false} StepFadesClock(a: State, p: seq<Fade>, dt: real, lo: real)
    requires 0.0 <= dt
    requires forall k | 0 <= k < |p| :: p[k].layer < |a.volumes| && lo <= p[k].t && 0.0 <= p[k].t
    requires forall k | 0 <= k < |a.fades| :: lo + dt <= a.fades[k].t
    ensures forall k | 0 <= k < |StepFades(a, p, dt).fades| :: lo + dt <= StepFades(a, p, dt).fades[k].t
    decreases |p|
  {
    if p != [] {
      StepFadesClock(a, p[..|p| - 1], dt, lo);
    }
  }

  /** `f` is one of the coroutines `fs` with its loop variable advanced by `x`. */
  ghost predicate AdvancedFrom(f: Fade, fs: seq<Fade>, x: real)
  {
    exists j | 0 <= j < |fs| :: f == Advance(fs[j], x)
  }

  /**
    Every coroutine a resumption leaves suspended is one of the resumed ones
    with its own loop variable advanced by the frame time, still short of its
    duration.
   */
  lemma {:induction false} StepFadesAdvance(a: State, p: seq<Fade>, dt: real)
    requires 0.0 <= dt
    requires forall k | 0 <= k < |p| :: p[k].layer < |a.volumes| && 0.0 <= p[k].t
    ensures forall k | |a.fades| <= k < |StepFades(a, p, dt).fades| ::
      StepFades(a, p, dt).fades[k].t < StepFades(a, p, dt).fades[k].duration
    ensures forall k | |a.fades| <= k < |StepFades(a, p, dt).fades| :: AdvancedFrom(StepFades(a, p, dt).fades[k], p, dt)
    decreases |p|
  {
    if p != [] {
      var q := p[..|p| - 1];
      StepFadesAdvance(a, q, dt);
      var b := StepFades(a, q, dt);
      var f := Advance(p[|p| - 1], dt);
      var r := Resume(b, f);
      forall k | |a.fades| <= k < |r.fades|
        ensures r.fades[k].t < r.fades[k].duration
        ensures AdvancedFrom(r.fades[k], p, dt)
      {
        if k < |b.fades| {
          assert r.fades[k] == b.fades[k];
          var j :| 0 <= j < |q| && b.fades[k] == Advance(q[j], dt);
          assert q[j] == p[j];
        } else {
          assert r.fades[k] == f == Advance(p[|p| - 1], dt);
        }
      }
    } else {
      assert StepFades(a, p, dt) == a;
    }
  }

  // ---------------------------------------------------------------------------
  // The invariant of the component

  lemma InitialInv(c: Config)
    requires ValidConfig(c)
    ensures Inv(Initial(), c)
    ensures forall i | 0 <= i < LayerCount :: Initial().volumes[i] == 0.0
    ensures !Initial().isRunning && Initial().fades == []
  {
  }

  /** `Update` keeps the invariant: what it starts is a set of coroutines at `t = 0` with the configured durations. */
  lemma UpdateKeepsInv(s: State, c: Config, pressed: set<int>)
    requires Inv(s, c)
    ensures Inv(Update(s, c, pressed), c)
  {
  }

  /** Resuming any prefix of the coroutines keeps the invariant. */
  lemma StepKeepsInv(s: State, c: Config, dt: real, n: nat)
    requires Inv(s, c) && 0.0 <= dt && n <= |s.fades|
    ensures Inv(Step(s, dt, n), c)
  {
    var a := StepFades(s.(fades := []), s.fades[..n], dt);
    StepFadesSound(s.(fades := []), s.fades[..n], c, dt);
    var rest := s.fades[n..];
    var r := Step(s, dt, n);
    assert forall k | 0 <= k < |r.fades| :: r.fades[k] == if k < |a.fades| then a.fades[k] else s.fades[n + k - |a.fades|];
  }

  /** Every frame keeps the invariant: volumes stay in [0, 1) and the flag implies a suspended coroutine. */
  lemma FrameKeepsInv(s: State, c: Config, pressed: set<int>, dt: real)
    requires Inv(s, c) && 0.0 <= dt
    ensures Inv(Frame(s, c, pressed, dt), c)
  {
    UpdateKeepsInv(s, c, pressed);
    StepKeepsInv(Update(s, c, pressed), c, dt, |s.fades|);
  }

  // ---------------------------------------------------------------------------
  // One frame, layer by layer

  /**
    While every coroutine that drives layer `i` is a fade-in, the layer's
    volume does not decrease over a frame; while every one is a fade-out, it
    does not increase; in both cases it does not pass the target.
   */
  lemma FrameToward(s: State, c: Config, pressed: set<int>, dt: real, i: nat, d: Direction)
    requires Inv(s, c) && 0.0 <= dt && i < LayerCount
    requires forall k | 0 <= k < |s.fades| && s.fades[k].layer == i :: s.fades[k].dir == d
    ensures Toward(s.volumes[i], Frame(s, c, pressed, dt).volumes[i], Target(d))
  {
    var u := Update(s, c, pressed);
    UpdateKeepsInv(s, c, pressed);
    assert u.fades[..|s.fades|] == s.fades;
    StepFadesToward(u.(fades := []), s.fades, c, dt, i, d);
  }

  /** A frame leaves the volume of every layer that no earlier coroutine drives as it was, whatever keys are pressed. */
  lemma FrameUntouched(s: State, c: Config, pressed: set<int>, dt: real, i: nat)
    requires Inv(s, c) && 0.0 <= dt && i < LayerCount
    requires forall k | 0 <= k < |s.fades| :: s.fades[k].layer != i
    ensures Frame(s, c, pressed, dt).volumes[i] == s.volumes[i]
  {
    var u := Update(s, c, pressed);
    assert u.fades[..|s.fades|] == s.fades;
    StepFadesUntouched(u.(fades := []), s.fades, dt, i);
  }

  /**
    A fade-in started on a silent layer and resumed while its loop variable
    is still below the duration, that is, when the frame time is shorter
    than `inDuration`, lifts the layer off 0, so a later press on that layer
    asks for a fade-out. With a frame time of at least `inDuration` the
    first resumption ends the loop, the volume stays 0 and the next press
    fades in again (`Scenarios.ShortFadeIn`).
   */
  lemma FadeInArmsFadeOut(s: State, c: Config, i: nat, dt: real)
    requires Sound(s, c) && i < LayerCount && s.volumes[i] == 0.0
    requires 0.0 < dt < c.inDuration
    ensures var r := Resume(s, Advance(Fade(i, In, 0.0, c.inDuration), dt));
      0.0 < r.volumes[i] && Requested(r, c, i).dir == Out
  {
  }

  /**
    Once a layer is off 0, it stays off 0 over a frame in which every
    coroutine on it fades in, so the next press on it asks for a fade-out.
   */
  lemma FadeInKeepsFadeOut(s: State, c: Config, pressed: set<int>, dt: real, i: nat)
    requires Inv(s, c) && 0.0 <= dt && i < LayerCount && 0.0 < s.volumes[i]
    requires forall k | 0 <= k < |s.fades| && s.fades[k].layer == i :: s.fades[k].dir == In
    ensures 0.0 < Frame(s, c, pressed, dt).volumes[i]
    ensures Requested(Frame(s, c, pressed, dt), c, i).dir == Out
  {
    FrameToward(s, c, pressed, dt, i, In);
  }

  /**
    The coroutines started in a frame's `Update` are not resumed in that
    frame: they come last, in key order, after the survivors.
   */
  lemma FrameStartsLast(s: State, c: Config, pressed: set<int>, dt: real)
    requires Inv(s, c) && 0.0 <= dt && !s.isRunning
    ensures var r := Frame(s, c, pressed, dt);
      var started := Requests(s, c, pressed);
      |started| <= |r.fades| <= |s.fades| + |started| && r.fades[|r.fades| - |started|..] == started
  {
    var u := Update(s, c, pressed);
    assert u.fades[|s.fades|..] == Requests(s, c, pressed);
  }

  /** With no coroutine suspended and no key pressed, a frame changes nothing. */
  lemma IdleFrame(s: State, c: Config, dt: real)
    requires Inv(s, c) && 0.0 <= dt && s.fades == []
    ensures Frame(s, c, {}, dt) == s
  {
    assert Requests(s, c, {}) == [];
    assert Update(s, c, {}) == s;
  }

  /** An idle component stays idle over any number of frames without key presses. */
  lemma {:induction false} IdleRun(s: State, c: Config, dts: seq<real>)
    requires Inv(s, c) && s.fades == []
    requires forall k | 0 <= k < |dts| :: 0.0 <= dts[k]
    ensures Run(s, c, dts) == s
    decreases |dts|
  {
    if dts != [] {
      IdleFrame(s, c, dts[0]);
      IdleRun(s, c, dts[1..]);
    }
  }

  /** A frame in which no key is pressed only resumes the coroutines. */
  lemma QuietFrame(s: State, c: Config, dt: real)
    requires Inv(s, c) && 0.0 <= dt
    ensures Frame(s, c, {}, dt) == StepFades(s.(fades := []), s.fades, dt)
  {
    assert Requests(s, c, {}) == [];
    assert s.fades[..|s.fades|] == s.fades;
    var a := StepFades(s.(fades := []), s.fades, dt);
    assert a.fades + s.fades[|s.fades|..] == a.fades;
  }

  // ---------------------------------------------------------------------------
  // Every fade ends

  /** The first coroutine in resumption order; total, so that a claim about it can be stated where the sequence may be empty. */
  function First(p: seq<Fade>): Fade
  {
    if p == [] then Fade(0, In, 0.0, 0.0) else p[0]
  }

  function Sum(dts: seq<real>): real
    decreases |dts|
  {
    if dts == [] then 0.0 else dts[0] + Sum(dts[1..])
  }

  /** `n` frames of the same duration `dt`. */
  function Repeat(dt: real, n: nat): (r: seq<real>)
    ensures |r| == n && forall k | 0 <= k < n :: r[k] == dt
  {
    if n == 0 then [] else [dt] + Repeat(dt, n - 1)
  }

  lemma {:induction false} SumRepeat(dt: real, n: nat)
    ensures Sum(Repeat(dt, n)) == n as real * dt
  {
    if n > 0 {
      SumRepeat(dt, n - 1);
      assert Repeat(dt, n)[1..] == Repeat(dt, n - 1);
    }
  }

  /** Over quiet frames the invariant holds and every suspended coroutine's loop variable grows by the time elapsed. */
  lemma {:induction false} RunClock(s: State, c: Config, dts: seq<real>, lo: real)
    requires Inv(s, c)
    requires forall k | 0 <= k < |dts| :: 0.0 <= dts[k]
    requires forall k | 0 <= k < |s.fades| :: lo <= s.fades[k].t
    ensures Inv(Run(s, c, dts), c)
    ensures forall k | 0 <= k < |Run(s, c, dts).fades| :: lo + Sum(dts) <= Run(s, c, dts).fades[k].t
    decreases |dts|
  {
    if dts != [] {
      var dt := dts[0];
      QuietFrame(s, c, dt);
      FrameKeepsInv(s, c, {}, dt);
      StepFadesClock(s.(fades := []), s.fades, dt, lo);
      RunClock(Frame(s, c, {}, dt), c, dts[1..], lo + dt);
    }
  }

  /** Over quiet frames every suspended coroutine is one suspended at the start, with its own loop variable advanced by the time elapsed. */
  lemma {:induction false} RunAdvance(s: State, c: Config, dts: seq<real>)
    requires Inv(s, c)
    requires forall k | 0 <= k < |dts| :: 0.0 <= dts[k]
    ensures forall k | 0 <= k < |Run(s, c, dts).fades| :: AdvancedFrom(Run(s, c, dts).fades[k], s.fades, Sum(dts))
    decreases |dts|
  {
    var r := Run(s, c, dts);
    if dts == [] {
      forall k | 0 <= k < |r.fades|
        ensures AdvancedFrom(r.fades[k], s.fades, Sum(dts))
      {
        assert r.fades[k] == Advance(s.fades[k], 0.0);
      }
    } else {
      var dt := dts[0];
      var s1 := Frame(s, c, {}, dt);
      QuietFrame(s, c, dt);
      FrameKeepsInv(s, c, {}, dt);
      StepFadesAdvance(s.(fades := []), s.fades, dt);
      RunAdvance(s1, c, dts[1..]);
      assert r == Run(s1, c, dts[1..]);
      forall k | 0 <= k < |r.fades|
        ensures AdvancedFrom(r.fades[k], s.fades, Sum(dts))
      {
        AdvanceTwice(r.fades[k], s1.fades, s.fades, dt, Sum(dts[1..]));
      }
    }
  }

  /** Advancing by `dt` and then by `x` is advancing by `dt + x`. */
  lemma AdvanceTwice(f: Fade, mid: seq<Fade>, fs: seq<Fade>, dt: real, x: real)
    requires AdvancedFrom(f, mid, x)
    requires forall k | 0 <= k < |mid| :: AdvancedFrom(mid[k], fs, dt)
    ensures AdvancedFrom(f, fs, dt + x)
  {
    var m :| 0 <= m < |mid| && f == Advance(mid[m], x);
    var j :| 0 <= j < |fs| && mid[m] == Advance(fs[j], dt);
    assert f == Advance(fs[j], dt + x);
  }

  /**
    Without key presses, once the frame times add up to both configured
    durations every coroutine has finished and the flag is clear.
   */
  lemma AllFadesEnd(s: State, c: Config, dts: seq<real>)
    requires Inv(s, c)
    requires forall k | 0 <= k < |dts| :: 0.0 <= dts[k]
    requires c.inDuration <= Sum(dts) && c.outDuration <= Sum(dts)
    ensures Run(s, c, dts).fades == [] && !Run(s, c, dts).isRunning
  {
    RunClock(s, c, dts, 0.0);
    var r := Run(s, c, dts);
    // a coroutine still suspended would have t < duration <= Sum(dts) <= t
    assert r.fades != [] ==> Running(First(r.fades), c) && Sum(dts) <= First(r.fades).t;
  }

  /** With a fixed frame time `dt > 0`, every fade has ended within `n` frames once `n * dt` reaches the 10 s upper bound of the durations. */
  lemma FadesEndWithin(s: State, c: Config, dt: real, n: nat)
    requires Inv(s, c) && 0.0 < dt && 10.0 <= n as real * dt
    ensures Run(s, c, Repeat(dt, n)).fades == [] && !Run(s, c, Repeat(dt, n)).isRunning
  {
    SumRepeat(dt, n);
    AllFadesEnd(s, c, Repeat(dt, n));
  }
}
