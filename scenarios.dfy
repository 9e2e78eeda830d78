/**
  Frame-by-frame traces of the component from its initial state, with a
  fixed frame time. They pin down the shape of the re-seeded lerp and the
  consequences of a single global `isRunning` flag. Key n drives layer n,
  the source `MXLn`, at index n - 1.
 */
module Scenarios {
  import opened Mathf
  import opened Fading

  /**
    Layer 1 (index 0) faded in over 2 s with 0.5 s frames, for any fade-out duration. The volume
    after each frame is 0, 0.25, 0.625, 0.90625: every step lerps from the
    current volume, so the fade is not a straight ramp and ends short of 1.0.
    The frame in which `t` reaches 2 s ends the coroutine and clears the
    flag without touching the volume; the next press on that key fades out.
   */
  lemma FadeInTrace(c: Config)
    requires ValidConfig(c) && c.inDuration == 2.0
    ensures
      var s1 := Frame(Initial(), c, {0}, 0.5);
      var s2 := Frame(s1, c, {}, 0.5);
      var s3 := Frame(s2, c, {}, 0.5);
      var s4 := Frame(s3, c, {}, 0.5);
      var s5 := Frame(s4, c, {}, 0.5);
      && s1 == State([0.0, 0.0, 0.0], true, 0.0, [Fade(0, In, 0.0, 2.0)])
      && s2 == State([0.25, 0.0, 0.0], true, 0.25, [Fade(0, In, 0.5, 2.0)])
      && s3 == State([0.625, 0.0, 0.0], true, 0.5, [Fade(0, In, 1.0, 2.0)])
      && s4 == State([0.90625, 0.0, 0.0], true, 0.75, [Fade(0, In, 1.5, 2.0)])
      && s5 == State([0.90625, 0.0, 0.0], false, 0.75, [])
      && Frame(s5, c, {0}, 0.5) == State([0.90625, 0.0, 0.0], true, 0.0, [Fade(0, Out, 0.0, c.outDuration)])
  {
    var s1 := Frame(Initial(), c, {0}, 0.5);
    assert s1 == State([0.0, 0.0, 0.0], true, 0.0, [Fade(0, In, 0.0, 2.0)]);
    FadeInStep(c, 0.0, 0.0, 0.0, 0.25, 0.25);
    var s2 := State([0.25, 0.0, 0.0], true, 0.25, [Fade(0, In, 0.5, 2.0)]);
    assert Frame(s1, c, {}, 0.5) == s2;
    FadeInStep(c, 0.25, 0.25, 0.5, 0.5, 0.625);
    var s3 := State([0.625, 0.0, 0.0], true, 0.5, [Fade(0, In, 1.0, 2.0)]);
    assert Frame(s2, c, {}, 0.5) == s3;
    FadeInStep(c, 0.625, 0.5, 1.0, 0.75, 0.90625);
    var s4 := State([0.90625, 0.0, 0.0], true, 0.75, [Fade(0, In, 1.5, 2.0)]);
    assert Frame(s3, c, {}, 0.5) == s4;
    QuietOne(s4, c, 0.5);
    var s5 := State([0.90625, 0.0, 0.0], false, 0.75, []);
    assert Resume(s4.(fades := []), Fade(0, In, 2.0, 2.0)) == s5;
    assert Frame(s5, c, {0}, 0.5) == State([0.90625, 0.0, 0.0], true, 0.0, [Fade(0, Out, 0.0, c.outDuration)]);
  }

  /**
    One quiet frame of a 2 s fade-in on layer 1 that does not end it: the
    loop variable becomes `t + 0.5`, `normalizedTime` becomes `y`, and the
    volume moves the fraction `y` of the way from `v` to 1.
   */
  lemma FadeInStep(c: Config, v: real, x: real, t: real, y: real, w: real)
    requires ValidConfig(c) && c.inDuration == 2.0 && 0.0 <= v < 1.0 && 0.0 <= x < 1.0 && 0.0 <= t < 1.5
    requires y == (t + 0.5) / 2.0 && w == v + (1.0 - v) * y
    ensures Frame(State([v, 0.0, 0.0], true, x, [Fade(0, In, t, 2.0)]), c, {}, 0.5)
      == State([w, 0.0, 0.0], true, y, [Fade(0, In, t + 0.5, 2.0)])
  {
    var s := State([v, 0.0, 0.0], true, x, [Fade(0, In, t, 2.0)]);
    QuietOne(s, c, 0.5);
    assert Lerp(v, 1.0, y) == w by {
      assert Clamp01(y) == y;
    }
    assert [v, 0.0, 0.0][0 := w] == [w, 0.0, 0.0];
    var f := Fade(0, In, t + 0.5, 2.0);
    assert Advance(s.fades[0], 0.5) == f;
  }

  /** A frame without key presses while exactly one coroutine is suspended resumes that one. */
  lemma QuietOne(s: State, c: Config, dt: real)
    requires |s.volumes| == LayerCount && ValidConfig(c) && Resumable(s) && 0.0 <= dt
    requires s.isRunning && |s.fades| == 1
    ensures Frame(s, c, {}, dt) == Resume(s.(fades := []), Advance(s.fades[0], dt))
  {
    assert Update(s, c, {}) == s;
    var p := s.fades;
    assert p[..1] == p && p[..1][..0] == [] && p[1..] == [];
    var r := Resume(s.(fades := []), Advance(p[0], dt));
    assert StepFades(s.(fades := []), p[..1], dt) == r;
    assert r.fades + p[1..] == r.fades;
  }

  /** A frame without key presses while two coroutines are suspended resumes both, in order. */
  lemma QuietTwo(s: State, c: Config, dt: real)
    requires |s.volumes| == LayerCount && ValidConfig(c) && Resumable(s) && 0.0 <= dt
    requires s.isRunning && |s.fades| == 2
    ensures Frame(s, c, {}, dt) == Resume(Resume(s.(fades := []), Advance(s.fades[0], dt)), Advance(s.fades[1], dt))
  {
    assert Update(s, c, {}) == s;
    var p := s.fades;
    assert p[..2] == p && p[..2][..1] == [p[0]] && [p[0]][..0] == [] && p[2..] == [];
    var a := Resume(s.(fades := []), Advance(p[0], dt));
    assert StepFades(s.(fades := []), p[..1], dt) == a;
    var r := Resume(a, Advance(p[1], dt));
    assert StepFades(s.(fades := []), p[..2], dt) == r;
    assert r.fades + p[2..] == r.fades;
  }

  /**
    A fade-in of 0.1 s with 0.1 s frames: the first resumption already has
    `t == duration`, so the loop ends before any lerp and the volume is
    still 0. The flag is clear again and the next press on that key starts
    another fade-in, not a fade-out.
   */
  lemma ShortFadeIn(c: Config)
    requires c == Config(0.1, 0.1)
    ensures
      var s2 := Frame(Frame(Initial(), c, {0}, 0.1), c, {}, 0.1);
      && s2 == Initial()
      && Frame(s2, c, {0}, 0.1) == State([0.0, 0.0, 0.0], true, 0.0, [Fade(0, In, 0.0, 0.1)])
  {
    var s1 := Frame(Initial(), c, {0}, 0.1);
    assert s1 == State([0.0, 0.0, 0.0], true, 0.0, [Fade(0, In, 0.0, 0.1)]);
    assert Resume(s1.(fades := []), Fade(0, In, 0.1, 0.1)) == Initial();
  }

  /**
    The flag is global and the guard is read once per `Update`. With a 2 s
    fade-in, a 1 s fade-out and 0.5 s frames: from `s5`, the state the
    first five frames of `FadeInTrace` leave (layer 1 faded in, the flag
    clear, nothing suspended), keys 1 and 2 pressed in the same
    frame start two coroutines, a fade-out on layer 1 (index 0) and a
    fade-in on layer 2 (index 1). The fade-out ends first and clears the flag while layer 2 is
    still fading in, so a press on key 2 is accepted and starts a fade-out
    on layer 2 beside its running fade-in.
   */
  lemma GlobalFlagTrace(c: Config, s5: State)
    requires c == Config(2.0, 1.0)
    requires s5 == State([0.90625, 0.0, 0.0], false, 0.75, [])
    ensures
      var s6 := Frame(s5, c, {0, 1}, 0.5);
      var s7 := Frame(s6, c, {}, 0.5);
      var s8 := Frame(s7, c, {}, 0.5);
      var s9 := Frame(s8, c, {1}, 0.5);
      && s6 == State([0.90625, 0.0, 0.0], true, 0.0, [Fade(0, Out, 0.0, 1.0), Fade(1, In, 0.0, 2.0)])
      && s7 == State([0.453125, 0.25, 0.0], true, 0.25, [Fade(0, Out, 0.5, 1.0), Fade(1, In, 0.5, 2.0)])
      && s8 == State([0.0, 0.625, 0.0], false, 0.5, [Fade(1, In, 1.0, 2.0)])
      && s9 == State([0.0, 0.90625, 0.0], true, 0.75, [Fade(1, In, 1.5, 2.0), Fade(1, Out, 0.0, 1.0)])
  {
    BothKeys(c, s5);
    var s6 := State([0.90625, 0.0, 0.0], true, 0.0, [Fade(0, Out, 0.0, 1.0), Fade(1, In, 0.0, 2.0)]);
    BothRunning(c, s6);
    FadeOutEndsFirst(c, State([0.453125, 0.25, 0.0], true, 0.25, [Fade(0, Out, 0.5, 1.0), Fade(1, In, 0.5, 2.0)]));
    SecondFadeOnLayer(c, State([0.0, 0.625, 0.0], false, 0.5, [Fade(1, In, 1.0, 2.0)]));
  }

  /** Keys 1 and 2 in one frame: the guard is read once, so both start. */
  lemma BothKeys(c: Config, s5: State)
    requires c == Config(2.0, 1.0)
    requires s5 == State([0.90625, 0.0, 0.0], false, 0.75, [])
    ensures Frame(s5, c, {0, 1}, 0.5) == State([0.90625, 0.0, 0.0], true, 0.0, [Fade(0, Out, 0.0, 1.0), Fade(1, In, 0.0, 2.0)])
  {
  }

  /** The first frame after both keys: each coroutine takes one lerp step. */
  lemma BothRunning(c: Config, s6: State)
    requires c == Config(2.0, 1.0)
    requires s6 == State([0.90625, 0.0, 0.0], true, 0.0, [Fade(0, Out, 0.0, 1.0), Fade(1, In, 0.0, 2.0)])
    ensures Frame(s6, c, {}, 0.5) == State([0.453125, 0.25, 0.0], true, 0.25, [Fade(0, Out, 0.5, 1.0), Fade(1, In, 0.5, 2.0)])
  {
    QuietTwo(s6, c, 0.5);
    var a := Resume(s6.(fades := []), Fade(0, Out, 0.5, 1.0));
    assert a == State([0.453125, 0.0, 0.0], true, 0.5, [Fade(0, Out, 0.5, 1.0)]);
    assert Resume(a, Fade(1, In, 0.5, 2.0)) == State([0.453125, 0.25, 0.0], true, 0.25, [Fade(0, Out, 0.5, 1.0), Fade(1, In, 0.5, 2.0)]);
  }

  /** The frame in which the 1 s fade-out on layer 1 ends before the 2 s fade-in on layer 2 does. */
  lemma FadeOutEndsFirst(c: Config, s7: State)
    requires c == Config(2.0, 1.0)
    requires s7 == State([0.453125, 0.25, 0.0], true, 0.25, [Fade(0, Out, 0.5, 1.0), Fade(1, In, 0.5, 2.0)])
    ensures Frame(s7, c, {}, 0.5) == State([0.0, 0.625, 0.0], false, 0.5, [Fade(1, In, 1.0, 2.0)])
  {
    QuietTwo(s7, c, 0.5);
    var a := Resume(s7.(fades := []), Fade(0, Out, 1.0, 1.0));
    assert a == State([0.0, 0.25, 0.0], false, 0.25, []);
    assert Resume(a, Fade(1, In, 1.0, 2.0)) == State([0.0, 0.625, 0.0], false, 0.5, [Fade(1, In, 1.0, 2.0)]);
  }

  /** With the flag clear, key 2 fades layer 2 out although its fade-in is still suspended. */
  lemma SecondFadeOnLayer(c: Config, s8: State)
    requires c == Config(2.0, 1.0)
    requires s8 == State([0.0, 0.625, 0.0], false, 0.5, [Fade(1, In, 1.0, 2.0)])
    ensures Frame(s8, c, {1}, 0.5) == State([0.0, 0.90625, 0.0], true, 0.75, [Fade(1, In, 1.5, 2.0), Fade(1, Out, 0.0, 1.0)])
  {
  }
}
