/** The animation state of the whiteboard simulator's panel: a wheel-pulse
    command becomes a timed run during which the animator's timing events turn
    the two wheels and pay out their strings a little at a time. Index 0 is the
    left wheel, 1 the right. */
module Whiteboard {
  import opened JavaNumbers
  import opened Geometry
  import opened Motion
  import opened Command

  /** The panel's `animator` field: null, or the animator of the latest
      command with its duration in milliseconds and whether `stop()` has
      been called on it. */
  datatype AnimatorRef = NoAnimator | Animator(duration: int, stopped: bool)

  /** `animator.stop()` when `animator != null`. */
  function Stop(a: AnimatorRef): AnimatorRef
  {
    if a.Animator? then a.(stopped := true) else a
  }

  /** "running" property-change events alternate true, false, true, ...:
      the flag starts false and only actual changes are reported. */
  ghost predicate Alternates(events: seq<bool>)
  {
    (events != [] ==> events[0]) &&
    forall k :: 0 <= k < |events| - 1 ==> events[k] != events[k + 1]
  }

  /** The value the last "running" event reported, false before any. */
  function LastReported(events: seq<bool>): bool
  {
    events != [] && events[|events| - 1]
  }

  class WhiteboardPanel {
    const wheelRadius: real
    const pulleyRadius: real
    const pulleySeparation: real
    const radiansPerPulse: real
    /** How far each wheel has turned since construction (radians). */
    const pos: array<real>
    /** The angle each wheel has to turn during the current run. */
    const distance: array<real>
    /** Each string's current length from pulley rim to pen (mm). */
    const strings: array<real>
    /** The timing target's `previous`: the fraction consumed by the last event. */
    var previous: real
    var running: bool
    var animator: AnimatorRef
    /** The "running" property-change events fired so far, oldest first. */
    var runningEvents: seq<bool>

    /** The string lengths set by the constructor. */
    ghost const initialStrings: seq<real>
    /** The fractions consumed since the last `begin`, and the wheels at that `begin`. */
    ghost var consumed: seq<real>
    ghost var atBegin: seq<WheelState>

    /** Two wheels, three separate arrays. */
    ghost predicate Shape()
    {
      pos.Length == 2 && distance.Length == 2 && strings.Length == 2 &&
      pos != distance && pos != strings && distance != strings &&
      |initialStrings| == 2
    }

    ghost function Wheel(i: int): WheelState
      reads pos, strings
      requires Shape() && 0 <= i < 2
    {
      WheelState(pos[i], strings[i])
    }

    /** Each string's length minus `wheelRadius` times its wheel's angle is
        still the constructor's length (the angles start at 0). */
    ghost predicate Conserved()
      reads pos, strings
      requires Shape()
    {
      Slack(Wheel(0), wheelRadius) == initialStrings[0] && Slack(Wheel(1), wheelRadius) == initialStrings[1]
    }

    /** `running` is the value the last property-change event reported. */
    ghost predicate Reporting()
      reads this
    {
      Alternates(runningEvents) && running == LastReported(runningEvents)
    }

    ghost predicate Valid()
      reads this, pos, strings
    {
      Shape() && Conserved() && Reporting()
    }

    /** Since the last `begin`, every timing event has been applied with the
        current `distance`: each wheel is the `Run` of the fractions consumed. */
    ghost predicate Tracking()
      reads this, pos, distance, strings
      requires Shape()
    {
      |atBegin| == 2 && previous == LastOr(0.0, consumed) &&
      forall i :: 0 <= i < 2 ==> Wheel(i) == Run(atBegin[i], wheelRadius, distance[i], 0.0, consumed)
    }

    /** The constructor's state: `leftRoot` and `rightRoot` are the values
        `Math.sqrt` returns for the squared initial string lengths. */
    constructor (pulleyRadius: real, pulleySeparation: real, wheelRadius: real, pulsesPerRevolution: real,
                 startLeft: real, startDown: real, leftRoot: real, rightRoot: real)
      requires pulsesPerRevolution != 0.0
      requires IsSqrt(leftRoot, LeftStringSquared(startLeft, startDown))
      requires IsSqrt(rightRoot, RightStringSquared(pulleySeparation, startLeft, startDown))
      ensures Valid() && fresh(pos) && fresh(distance) && fresh(strings)
      ensures this.pulleyRadius == pulleyRadius && this.pulleySeparation == pulleySeparation
      ensures this.wheelRadius == wheelRadius
      ensures radiansPerPulse == RadiansPerPulse(pulsesPerRevolution)
      ensures pos[..] == [0.0, 0.0] && distance[..] == [0.0, 0.0]
      ensures strings[..] == [leftRoot, rightRoot] && initialStrings == [leftRoot, rightRoot]
      ensures previous == 0.0 && !running && animator == NoAnimator && runningEvents == []
    {
      this.wheelRadius := wheelRadius;
      this.pulleyRadius := pulleyRadius;
      this.pulleySeparation := pulleySeparation;
      radiansPerPulse := RadiansPerPulse(pulsesPerRevolution);
      pos := new real[2](_ => 0.0);
      distance := new real[2](_ => 0.0);
      var s := new real[2];
      s[0], s[1] := leftRoot, rightRoot;
      strings := s;
      initialStrings := [leftRoot, rightRoot];
      previous := 0.0;
      running := false;
      animator := NoAnimator;
      runningEvents := [];
      consumed := [];
      atBegin := [];
      new;
      assert strings[..] == [leftRoot, rightRoot];
    }

    /** `setRunning`: sets the flag and fires a property-change event when
        the value changes. */
    method SetRunning(b: bool)
      requires Valid()
      modifies `running, `runningEvents
      ensures Valid() && running == b
      ensures runningEvents == if old(running) == b then old(runningEvents) else old(runningEvents) + [b]
    {
      if running != b {
        runningEvents := runningEvents + [b];
      }
      running := b;
    }

    /** `isRunning`: the value the last "running" event reported. */
    method IsRunning() returns (r: bool)
      requires Valid()
      ensures r == LastReported(runningEvents)
    {
      r := running;
    }

    /** The timing target's `begin`: a run starts from fraction 0. */
    method Begin()
      requires Valid()
      modifies `previous, `running, `runningEvents, `consumed, `atBegin
      ensures Valid() && Tracking()
      ensures previous == 0.0 && running
      ensures runningEvents == if old(running) then old(runningEvents) else old(runningEvents) + [true]
      ensures consumed == [] && atBegin == [Wheel(0), Wheel(1)]
    {
      previous := 0.0;
      SetRunning(true);
      consumed := [];
      atBegin := [Wheel(0), Wheel(1)];
    }

    /** The timing target's `timingEvent(fraction)`: each wheel turns by its
        share of the progress since the previous event, its string follows,
        and the quantity `strings[i] - wheelRadius * pos[i]` keeps its
        constructor value. */
    method Tick(fraction: real)
      requires Valid()
      modifies pos, strings, `previous, `consumed
      ensures Valid() && previous == fraction
      ensures Wheel(0) == Step(old(Wheel(0)), wheelRadius, distance[0], old(previous), fraction)
      ensures Wheel(1) == Step(old(Wheel(1)), wheelRadius, distance[1], old(previous), fraction)
      ensures consumed == old(consumed) + [fraction]
      ensures old(Tracking()) ==> Tracking()
    {
      ghost var tracking := Tracking();
      ghost var before := [Wheel(0), Wheel(1)];
      for i := 0 to 2
        modifies pos, strings
        invariant forall j :: 0 <= j < 2 ==>
          Wheel(j) == if j < i then Step(before[j], wheelRadius, distance[j], previous, fraction) else before[j]
        invariant Conserved()
      {
        StepConserves(Wheel(i), wheelRadius, distance[i], previous, fraction);
        var diff := distance[i] * (fraction - previous);
        pos[i] := pos[i] + diff;
        strings[i] := strings[i] + wheelRadius * diff;
        assert Wheel(i) == Step(before[i], wheelRadius, distance[i], previous, fraction);
      }
      if tracking {
        RunExtends(atBegin[0], wheelRadius, distance[0], 0.0, consumed, fraction);
        RunExtends(atBegin[1], wheelRadius, distance[1], 0.0, consumed, fraction);
      }
      previous := fraction;
      consumed := consumed + [fraction];
    }

    /** The timing target's `end`. */
    method End()
      requires Valid()
      modifies `running, `runningEvents
      ensures Valid() && !running
      ensures runningEvents == if old(running) then old(runningEvents) + [false] else old(runningEvents)
    {
      SetRunning(false);
    }

    /** `moveWheels(w0, w1)`: stops the current animator, then either starts
        a run that will turn each wheel by `w[i] * radiansPerPulse`, or, for
        the null command, reports running and then not running. The wheels
        and strings keep whatever progress the stopped run made. */
    method MoveWheels(w0: int32, w1: int32)
      requires Valid()
      modifies distance, `animator, `running, `runningEvents
      ensures Valid() && unchanged(pos, strings)
      ensures Duration(w0 as int, w1 as int) > 0 ==>
        && running && animator == Animator(Duration(w0 as int, w1 as int), false)
        && distance[0] == (w0 as int) as real * radiansPerPulse
        && distance[1] == (w1 as int) as real * radiansPerPulse
        && runningEvents == if old(running) then old(runningEvents) else old(runningEvents) + [true]
      ensures Duration(w0 as int, w1 as int) == 0 ==>
        && !running && animator == Stop(old(animator))
        && distance[0] == old(distance[0]) && distance[1] == old(distance[1])
        && runningEvents == old(runningEvents) + (if old(running) then [false] else [true, false])
    {
      animator := Stop(animator);
      var duration := Duration(w0 as int, w1 as int);
      SetRunning(true);
      if duration > 0 {
        var w := [w0 as int, w1 as int];
        ghost var target := [(w0 as int) as real * radiansPerPulse, (w1 as int) as real * radiansPerPulse];
        for i := 0 to 2
          modifies distance
          invariant distance[0] == if i < 1 then old(distance[0]) else target[0]
          invariant distance[1] == if i < 2 then old(distance[1]) else target[1]
        {
          distance[i] := w[i] as real * radiansPerPulse;
        }
        animator := Animator(duration, false);
      } else {
        SetRunning(false);
      }
    }

    /** Telescoping over a run: after `begin` and the timing events since, each
        wheel has turned by `distance[i]` times the last fraction and its string
        has changed by `wheelRadius` times that; at fraction 1 the wheel has
        turned by the whole `distance[i]` of the command. */
    lemma Progress(i: int)
      requires Shape() && Tracking() && 0 <= i < 2
      ensures pos[i] == atBegin[i].pos + distance[i] * previous
      ensures strings[i] == atBegin[i].str + wheelRadius * (distance[i] * previous)
      ensures previous == 1.0 ==>
        pos[i] == atBegin[i].pos + distance[i] && strings[i] == atBegin[i].str + wheelRadius * distance[i]
    {
      RunTelescopes(atBegin[i], wheelRadius, distance[i], 0.0, consumed);
    }
  }
}
