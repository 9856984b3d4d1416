/** The GPU thermal guard: a pause after sustained heat, a resume after cooling down. */
module ThermalGuard {
  import opened Options

  type Time = nat        // nanoseconds of a clock that does not go back
  type Celsius = nat

  const NANOS_PER_SEC: nat := 1_000_000_000

  /** `Duration::as_secs` of the time since. */
  function Secs(from: Time, to: Time): nat {
    if from <= to then (to - from) / NANOS_PER_SEC else 0
  }

  /** One evaluation: the settings in force, the reading, the two times at which the clock is read,
      and whether pausing or resuming works out. */
  datatype Sample = Sample(
    enabled: bool, available: bool, temp: Option<Celsius>,
    threshold: Celsius, duration: nat, cooldown: Celsius, autoResume: bool,
    now: Time, later: Time, works: bool)

  datatype Status = Status(active: bool, triggered: bool, peak: Option<Celsius>, threshold: Celsius, causedPause: bool)

  const QUIET := Status(false, false, None, 0, false)

  datatype Guard = Guard(since: Option<Time>, peak: Option<Celsius>, causedPause: bool, status: Status)

  const INIT := Guard(None, None, false, QUIET)

  datatype Action = Pause | Resume

  predicate Hot(s: Sample) {
    s.enabled && s.available && s.temp.Some? && s.threshold <= s.temp.value
  }

  predicate Cold(s: Sample) {
    s.enabled && s.available && s.temp.Some? && s.temp.value < s.threshold && s.temp.value <= s.cooldown
  }

  function Heat(g: Guard, s: Sample): Guard
    requires Hot(s)
  {
    if g.since.None? then g.(since := Some(s.now), peak := s.temp)
    else g.(peak := if g.peak.Some? && s.temp.value <= g.peak.value then g.peak else s.temp)
  }

  /** The guard asks for a pause. */
  predicate AsksPause(g: Guard, s: Sample) {
    Hot(s) && s.duration <= Secs(Heat(g, s).since.value, s.later) && !g.causedPause
  }

  predicate AsksResume(g: Guard, s: Sample) {
    Cold(s) && g.causedPause && s.autoResume
  }

  function Did(g: Guard, s: Sample): Option<Action> {
    if !s.works then None
    else if AsksPause(g, s) then Some(Pause)
    else if AsksResume(g, s) then Some(Resume)
    else None
  }

  function OnHot(g: Guard, s: Sample): Guard
    requires Hot(s)
  {
    var g1 := Heat(g, s);
    if AsksPause(g, s) then
      if s.works then g1.(causedPause := true, status := Status(true, true, g1.peak, s.threshold, true)) else g1
    else if g1.status.active then g1
    else g1.(status := g1.status.(threshold := s.threshold))
  }

  function OnCold(g: Guard, s: Sample): Guard
    requires Cold(s)
  {
    var g1 := g.(since := None, peak := None);
    if AsksResume(g, s) then if s.works then g1.(causedPause := false, status := QUIET) else g1
    else if g1.causedPause then g1.(status := g1.status.(active := false))
    else g1
  }

  /** `reset_if_inactive` */
  function ResetIfInactive(g: Guard): Guard {
    if g.causedPause then g
    else g.(since := None, peak := None,
            status := if g.status.active && !g.status.causedPause then QUIET else g.status)
  }

  function Evaluate(g: Guard, s: Sample): Guard {
    if !s.enabled || !s.available then ResetIfInactive(g)
    else if s.temp.None? then g
    else if Hot(s) then OnHot(g, s)
    else if Cold(s) then OnCold(g, s)
    else g.(since := None)
  }

  // ---- The tracker ----

  /** The hottest of the GPU's own reading and those of its devices. */
  method MaxTemp(temperature: Option<Celsius>, devices: seq<Option<Celsius>>) returns (max: Option<Celsius>)
    ensures max.None? <==> temperature.None? && forall i :: 0 <= i < |devices| ==> devices[i].None?
    ensures max.Some? ==> (max == temperature || max in devices)
    ensures max.Some? && temperature.Some? ==> temperature.value <= max.value
    ensures max.Some? ==> forall i :: 0 <= i < |devices| && devices[i].Some? ==> devices[i].value <= max.value
  {
    max := temperature;
    for i := 0 to |devices|
      invariant max.None? <==> temperature.None? && forall j :: 0 <= j < i ==> devices[j].None?
      invariant max.Some? ==> (max == temperature || max in devices[..i])
      invariant max.Some? && temperature.Some? ==> temperature.value <= max.value
      invariant max.Some? ==> forall j :: 0 <= j < i && devices[j].Some? ==> devices[j].value <= max.value
    {
      if devices[i].Some? && (max.None? || max.value < devices[i].value) {
        max := devices[i];
      }
    }
  }

  class GpuThermalGuardTracker {
    var overThresholdSince: Option<Time>
    var peakTempC: Option<Celsius>
    var causedPause: bool
    /** `gpu_thermal_guard` of the shared state. */
    var status: Status

    constructor ()
      ensures State() == INIT
    {
      overThresholdSince, peakTempC, causedPause, status := None, None, false, QUIET;
    }

    function State(): Guard
      reads this
    {
      Guard(overThresholdSince, peakTempC, causedPause, status)
    }

    method EvaluateSample(s: Sample) returns (did: Option<Action>)
      modifies this
      ensures State() == Evaluate(old(State()), s) && did == Did(old(State()), s)
    {
      did := None;
      if !s.enabled || !s.available {
        Reset();
        return;
      }
      if s.temp.None? { return; }
      var temp := s.temp.value;
      if temp >= s.threshold {
        if overThresholdSince.None? {
          overThresholdSince := Some(s.now);
          peakTempC := Some(temp);
        } else {
          peakTempC := if peakTempC.Some? && temp <= peakTempC.value then peakTempC else Some(temp);
        }
        var elapsed := Secs(overThresholdSince.value, s.later);
        if elapsed >= s.duration && !causedPause {
          if s.works {
            causedPause := true;
            status := Status(true, true, peakTempC, s.threshold, true);
            did := Some(Pause);
          }
        } else if !status.active {
          status := status.(threshold := s.threshold);
        }
      } else if temp <= s.cooldown {
        overThresholdSince := None;
        peakTempC := None;
        if causedPause && s.autoResume {
          if s.works {
            causedPause := false;
            status := QUIET;
            did := Some(Resume);
          }
        } else if causedPause {
          status := status.(active := false);
        }
      } else {
        overThresholdSince := None;
      }
    }

    method Reset()
      modifies this
      ensures State() == ResetIfInactive(old(State()))
    {
      if causedPause { return; }
      overThresholdSince := None;
      peakTempC := None;
      if status.active && !status.causedPause { status := QUIET; }
    }
  }

  // ---- Histories ----

  function Run(ss: seq<Sample>): Guard
    decreases |ss|
  {
    if ss == [] then INIT else Evaluate(Run(ss[..|ss| - 1]), ss[|ss| - 1])
  }

  /** The successful pauses and resumes. */
  function Actions(ss: seq<Sample>): seq<Action>
    decreases |ss|
  {
    if ss == [] then [] else
      var did := Did(Run(ss[..|ss| - 1]), ss[|ss| - 1]);
      Actions(ss[..|ss| - 1]) + if did.Some? then [did.value] else []
  }

  /** Pauses and resumes alternate, beginning with a pause, and the guard knows which came last. */
  lemma {:induction false} ActionsAlternate(ss: seq<Sample>)
    ensures var a := Actions(ss);
      && (forall i :: 0 <= i < |a| ==> a[i] == if i % 2 == 0 then Pause else Resume)
      && (Run(ss).causedPause <==> |a| % 2 == 1)
      && (Run(ss).status.causedPause <==> Run(ss).causedPause)
    decreases |ss|
  {
    if ss != [] { ActionsAlternate(ss[..|ss| - 1]); }
  }

  /** The clock never goes back. */
  predicate Monotone(ss: seq<Sample>) {
    && (forall i :: 0 <= i < |ss| ==> ss[i].now <= ss[i].later)
    && (forall i, j :: 0 <= i < j < |ss| ==> ss[i].later <= ss[j].now)
  }

  /** The sample does not end a hot spell. */
  predicate Sustains(s: Sample) {
    s.enabled && s.available && (s.temp.None? || s.threshold <= s.temp.value)
  }

  /** From the hot sample `i` to the end nothing ends the spell. */
  predicate HotSpell(ss: seq<Sample>, i: nat) {
    i < |ss| && Hot(ss[i]) && forall j :: i <= j < |ss| ==> Sustains(ss[j])
  }

  /** The first sample of the spell at the end of the history. */
  function SpellStart(ss: seq<Sample>): (r: Option<nat>)
    ensures r.Some? ==> r.value < |ss|
    decreases |ss|
  {
    if ss == [] || !Sustains(ss[|ss| - 1]) then None
    else
      var before := SpellStart(ss[..|ss| - 1]);
      if before.Some? then before else if Hot(ss[|ss| - 1]) then Some(|ss| - 1) else None
  }

  lemma {:induction false} SpellStartIsFirst(ss: seq<Sample>)
    ensures SpellStart(ss).Some? ==> HotSpell(ss, SpellStart(ss).value)
    ensures forall i: nat :: HotSpell(ss, i) ==> SpellStart(ss).Some? && SpellStart(ss).value <= i
    decreases |ss|
  {
    if ss != [] {
      var front := ss[..|ss| - 1];
      SpellStartIsFirst(front);
      forall i: nat | HotSpell(ss, i) ensures SpellStart(ss).Some? && SpellStart(ss).value <= i {
        assert Sustains(ss[|ss| - 1]);
        if i < |front| { assert HotSpell(front, i); }
      }
    }
  }

  function MaxOf(a: Celsius, b: Celsius): Celsius {
    if a <= b then b else a
  }

  /** The hottest reading of the spell. */
  function SpellPeak(ss: seq<Sample>): Celsius
    decreases |ss|
  {
    if ss == [] || SpellStart(ss).None? then 0
    else
      var front, s := ss[..|ss| - 1], ss[|ss| - 1];
      if s.temp.None? then SpellPeak(front)
      else if SpellStart(front).None? then s.temp.value
      else MaxOf(SpellPeak(front), s.temp.value)
  }

  /** While the guard has not paused anything, its timer and its peak are those of the hot spell at
      the end of the history. */
  lemma {:induction false} TimerFollowsSpell(ss: seq<Sample>)
    ensures var g := Run(ss); !g.causedPause ==>
      && g.since == (if SpellStart(ss).Some? then Some(ss[SpellStart(ss).value].now) else None)
      && (g.since.Some? ==> g.peak == Some(SpellPeak(ss)))
    decreases |ss|
  {
    if ss != [] { TimerFollowsSpell(ss[..|ss| - 1]); }
  }

  /** The guard asks for a pause exactly when it has not paused already, the sample is hot, and some
      sample at least `duration` seconds earlier was hot and nothing has ended the spell since. */
  lemma PauseNeedsSustainedHeat(ss: seq<Sample>, s: Sample)
    requires Monotone(ss + [s])
    ensures AsksPause(Run(ss), s) <==>
      && !Run(ss).causedPause && Hot(s)
      && exists i: nat :: HotSpell(ss + [s], i) && s.duration <= Secs((ss + [s])[i].now, s.later)
  {
    var all := ss + [s];
    assert all[..|ss|] == ss;
    TimerFollowsSpell(ss);
    SpellStartIsFirst(all);
    if !Run(ss).causedPause && Hot(s) {
      var k := SpellStart(all).value;
      assert HotSpell(all, |ss|);
      assert Heat(Run(ss), s).since == Some(all[k].now);
      forall i: nat | HotSpell(all, i) ensures Secs(all[i].now, s.later) <= Secs(all[k].now, s.later) {
        assert all[k].now <= all[i].now;
        SecsMonotone(all[k].now, all[i].now, s.later);
      }
    }
  }

  lemma SecsMonotone(a: Time, b: Time, to: Time)
    requires a <= b
    ensures Secs(b, to) <= Secs(a, to)
  {
  }

  /** What a pause reports: the hottest reading of the spell. */
  lemma PauseReportsPeak(ss: seq<Sample>, s: Sample)
    requires AsksPause(Run(ss), s) && s.works
    ensures Run(ss + [s]).status == Status(true, true, Some(SpellPeak(ss + [s])), s.threshold, true)
    ensures Actions(ss + [s]) == Actions(ss) + [Pause]
  {
    var all := ss + [s];
    assert all[..|ss|] == ss;
    TimerFollowsSpell(ss);
  }

  /** Since the last pause there was a cold sample on which no resume was due. */
  predicate CooledSince(ss: seq<Sample>)
    decreases |ss|
  {
    ss != [] &&
    var front, s := ss[..|ss| - 1], ss[|ss| - 1];
    Did(Run(front), s) != Some(Pause) && (CooledSince(front) || (Cold(s) && !s.autoResume))
  }

  /** What is shown: a pause as long as the guard has paused, active until it has cooled down without a
      resume, and the peak of the spell that led to it; and nothing of the kind otherwise. */
  lemma {:induction false} StatusShowsPause(ss: seq<Sample>)
    ensures var g := Run(ss);
      && (g.status.triggered <==> g.causedPause) && (g.status.peak.Some? <==> g.causedPause)
      && (g.status.active <==> g.causedPause && !CooledSince(ss))
    decreases |ss|
  {
    if ss != [] {
      var front, s := ss[..|ss| - 1], ss[|ss| - 1];
      StatusShowsPause(front);
      ActionsAlternate(front);
      if Hot(s) { HeatHasPeak(Run(front), s); }
    }
  }

  lemma HeatHasPeak(g: Guard, s: Sample)
    requires Hot(s)
    ensures Heat(g, s).peak.Some? && Heat(g, s).since.Some?
  {
  }

  /** The guard resumes only what it paused itself, and only on a sample at or below the cooldown
      temperature; a resume leaves no timer running. */
  lemma ResumeNeedsCold(ss: seq<Sample>, s: Sample)
    ensures Actions(ss + [s]) == Actions(ss) + [Resume] <==>
      && s.works && s.autoResume && Cold(s)
      && Actions(ss) != [] && Actions(ss)[|Actions(ss)| - 1] == Pause
    ensures Actions(ss + [s]) == Actions(ss) + [Resume] ==> Run(ss + [s]) == INIT
  {
    assert (ss + [s])[..|ss|] == ss;
    ActionsAlternate(ss);
    var a, did := Actions(ss), Did(Run(ss), s);
    if did.None? {
      assert |Actions(ss + [s])| == |a|;
    } else {
      assert Actions(ss + [s])[|a|] == did.value;
    }
  }
}
