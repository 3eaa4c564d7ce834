/** What one timing event does to one wheel, on values: the wheel turns by
    `distance * (fraction - previous)` radians and its string pays out
    `wheelRadius` millimetres per radian. A run is the sequence of fractions
    the animator reports after `begin`, which starts `previous` at 0. */
module Motion {

  /** One wheel: its angle `pos` (radians, 0 at the start) and the length
      `str` of its string (millimetres). */
  datatype WheelState = WheelState(pos: real, str: real)

  /** One `timingEvent(fraction)` for one wheel, with the fraction consumed
      before it in `previous`. */
  function Step(s: WheelState, wheelRadius: real, distance: real, previous: real, fraction: real): (r: WheelState)
    ensures r.pos - s.pos == distance * (fraction - previous)
    ensures r.str - s.str == wheelRadius * (r.pos - s.pos)
  {
    var diff := distance * (fraction - previous);
    WheelState(s.pos + diff, s.str + wheelRadius * diff)
  }

  /** String length less `wheelRadius` times the wheel's angle. */
  function Slack(s: WheelState, wheelRadius: real): real
  {
    s.str - wheelRadius * s.pos
  }

  /** One timing event keeps the slack unchanged. */
  lemma StepConserves(s: WheelState, wheelRadius: real, distance: real, previous: real, fraction: real)
    ensures Slack(Step(s, wheelRadius, distance, previous, fraction), wheelRadius) == Slack(s, wheelRadius)
  {
    var diff := distance * (fraction - previous);
    assert wheelRadius * (s.pos + diff) == wheelRadius * s.pos + wheelRadius * diff;
  }

  /** The last fraction consumed, or `start` if there was none. */
  function LastOr(start: real, fs: seq<real>): real
  {
    if fs == [] then start else fs[|fs| - 1]
  }

  /** The wheel after the timing events `fs`, the first of which sees
      `previous == start`; each later one sees the fraction before it. */
  function Run(s: WheelState, wheelRadius: real, distance: real, start: real, fs: seq<real>): WheelState
    decreases |fs|
  {
    if fs == [] then s
    else
      var init := fs[..|fs| - 1];
      Step(Run(s, wheelRadius, distance, start, init), wheelRadius, distance, LastOr(start, init), fs[|fs| - 1])
  }

  /** One more timing event extends a run by one `Step`. */
  lemma RunExtends(s: WheelState, wheelRadius: real, distance: real, start: real, fs: seq<real>, f: real)
    ensures Run(s, wheelRadius, distance, start, fs + [f])
         == Step(Run(s, wheelRadius, distance, start, fs), wheelRadius, distance, LastOr(start, fs), f)
  {
    assert (fs + [f])[..|fs + [f]| - 1] == fs;
  }

  /** Telescoping: however many events a run has had, the wheel has turned by
      exactly `distance` times the progress from `start` to the last fraction,
      and the string has changed by `wheelRadius` times that angle. */
  lemma {:induction false} RunTelescopes(s: WheelState, wheelRadius: real, distance: real, start: real, fs: seq<real>)
    ensures Run(s, wheelRadius, distance, start, fs).pos == s.pos + distance * (LastOr(start, fs) - start)
    ensures Run(s, wheelRadius, distance, start, fs).str == s.str + wheelRadius * (distance * (LastOr(start, fs) - start))
    decreases |fs|
  {
    if fs != [] {
      var init := fs[..|fs| - 1];
      var prev, f := LastOr(start, init), fs[|fs| - 1];
      RunTelescopes(s, wheelRadius, distance, start, init);
      assert distance * (prev - start) + distance * (f - prev) == distance * (f - start);
      assert wheelRadius * (distance * (prev - start)) + wheelRadius * (distance * (f - prev))
          == wheelRadius * (distance * (f - start));
    }
  }

  /** Completing a run (last fraction 1, starting from 0) turns the wheel by
      the whole commanded `distance`. */
  lemma RunCompletes(s: WheelState, wheelRadius: real, distance: real, fs: seq<real>)
    requires LastOr(0.0, fs) == 1.0
    ensures Run(s, wheelRadius, distance, 0.0, fs).pos == s.pos + distance
    ensures Run(s, wheelRadius, distance, 0.0, fs).str == s.str + wheelRadius * distance
  {
    RunTelescopes(s, wheelRadius, distance, 0.0, fs);
  }

  /** The slack does not change over any run. */
  lemma RunConserves(s: WheelState, wheelRadius: real, distance: real, start: real, fs: seq<real>)
    ensures Slack(Run(s, wheelRadius, distance, start, fs), wheelRadius) == Slack(s, wheelRadius)
  {
    RunTelescopes(s, wheelRadius, distance, start, fs);
    var d := distance * (LastOr(start, fs) - start);
    assert wheelRadius * (s.pos + d) == wheelRadius * s.pos + wheelRadius * d;
  }
}
