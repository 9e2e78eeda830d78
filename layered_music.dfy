/**
  The `LayeredMusic` component itself: the three source volumes, the global
  `isRunning` flag and the shared `normalizedTime` field, updated in place.
  Each method is proved to do to the component what the corresponding
  function in `Fading` does to a `State`.
 */
module Component {
  import opened Mathf
  import opened Fading
  import opened FadeProperties

  class LayeredMusic {
    /** `MXL1.volume`, `MXL2.volume`, `MXL3.volume`. */
    const volumes: array<real>
    const inDuration: real
    const outDuration: real
    /** Set while some fade coroutine runs; cleared by whichever one finishes. */
    var isRunning: bool
    /** Written by every fade iteration. */
    var normalizedTime: real
    /** The fade coroutines suspended at their `yield`, in resumption order. */
    var fades: seq<Fade>

    function Settings(): Config
    {
      Config(inDuration, outDuration)
    }

    ghost function View(): State
      reads this, volumes
    {
      State(volumes[..], isRunning, normalizedTime, fades)
    }

    ghost predicate Valid()
      reads this, volumes
    {
      volumes.Length == LayerCount && Inv(View(), Settings())
    }

    /** `Start`, once the three sources are found: every volume 0 and the flag clear. */
    constructor (inDuration: real, outDuration: real)
      requires ValidConfig(Config(inDuration, outDuration))
      ensures Valid() && fresh(volumes)
      ensures Settings() == Config(inDuration, outDuration)
      ensures View() == Initial()
      ensures forall i | 0 <= i < volumes.Length :: volumes[i] == 0.0
      ensures !isRunning && fades == []
    {
      this.inDuration := inDuration;
      this.outDuration := outDuration;
      isRunning := false;
      volumes := new real[LayerCount](_ => 0.0);
      normalizedTime := 0.0;
      fades := [];
      new;
      assert volumes[..] == [0.0, 0.0, 0.0];
      InitialInv(Config(inDuration, outDuration));
    }

    /** One pass of a fade coroutine from its loop test, with its loop variable at `f.t`. */
    method ResumeFade(f: Fade)
      requires volumes.Length == LayerCount && f.layer < LayerCount && 0.0 <= f.t
      modifies this, volumes
      ensures View() == Resume(old(View()), f)
    {
      if f.t < f.duration {
        normalizedTime := f.t / f.duration;
        volumes[f.layer] := Lerp(volumes[f.layer], Target(f.dir), normalizedTime);
        fades := fades + [f];
      } else {
        if f.dir == Out {
          volumes[f.layer] := 0.0;
        }
        isRunning := false;
        assert volumes[..] == old(volumes[..])[f.layer := volumes[f.layer]];
      }
    }

    /** `StartCoroutine`: the coroutine sets the flag and runs its `t = 0` iteration. */
    method StartFade(layer: nat, dir: Direction, duration: real)
      requires volumes.Length == LayerCount && layer < LayerCount && 0.0 < duration
      modifies this, volumes
      ensures View() == Start(old(View()), layer, dir, duration)
    {
      isRunning := true;
      ResumeFade(Fade(layer, dir, 0.0, duration));
    }

    /** The two conditions of `Update` for the key of layer `i`. */
    method Trigger(pressed: set<int>, i: nat)
      requires volumes.Length == LayerCount && i < LayerCount && ValidConfig(Settings())
      modifies this, volumes
      ensures View() == TriggerLayer(old(View()), Settings(), pressed, i)
    {
      if i in pressed && volumes[i] == 0.0 {
        StartFade(i, In, inDuration);
      }
      if i in pressed && volumes[i] != 0.0 {
        StartFade(i, Out, outDuration);
      }
    }

    /** `Update`, with the keys pressed in this frame: the flag is tested once, then each key in turn. */
    method Update(pressed: set<int>)
      requires Valid()
      modifies this, volumes
      ensures Valid()
      ensures View() == Fading.Update(old(View()), Settings(), pressed)
      ensures old(isRunning) ==> unchanged(this) && unchanged(volumes)
      ensures volumes[..] == old(volumes[..])
    {
      ghost var s := View();
      if !isRunning {
        Trigger(pressed, 0);
        Trigger(pressed, 1);
        Trigger(pressed, 2);
      }
      UpdateKeepsInv(s, Settings(), pressed);
    }

    /** Resumes the coroutines `pending`, in order, on top of the current state. */
    method ResumeAll(pending: seq<Fade>, dt: real)
      requires volumes.Length == LayerCount && 0.0 <= dt
      requires forall k | 0 <= k < |pending| :: pending[k].layer < LayerCount && 0.0 <= pending[k].t
      modifies this, volumes
      ensures View() == StepFades(old(View()), pending, dt)
    {
      ghost var a := View();
      var i := 0;
      while i < |pending|
        invariant 0 <= i <= |pending|
        invariant View() == StepFades(a, pending[..i], dt)
      {
        assert pending[..i + 1][..i] == pending[..i];
        ResumeFade(Advance(pending[i], dt));
        i := i + 1;
      }
      assert pending[..i] == pending;
    }

    /** One resumption of the first `n` suspended coroutines, with `Time.deltaTime` = `dt`. */
    method Step(dt: real, n: nat)
      requires Valid() && 0.0 <= dt && n <= |fades|
      modifies this, volumes
      ensures Valid()
      ensures View() == Fading.Step(old(View()), dt, n)
    {
      ghost var s := View();
      var pending := fades;
      fades := [];
      ResumeAll(pending[..n], dt);
      fades := fades + pending[n..];
      StepKeepsInv(s, Settings(), dt, n);
    }

    /** One frame: `Update`, then the coroutines that were suspended before it. */
    method Frame(pressed: set<int>, dt: real)
      requires Valid() && 0.0 <= dt
      modifies this, volumes
      ensures Valid()
      ensures View() == Fading.Frame(old(View()), Settings(), pressed, dt)
    {
      var n := |fades|;
      Update(pressed);
      Step(dt, n);
    }
  }
}
