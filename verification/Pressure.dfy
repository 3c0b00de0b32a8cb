/** The pressure cut-off's running average, over real arithmetic: it never trips on readings
    in range, and trips within a bounded number of readings out of range. */
module PressureFilter {
  import opened Types
  import opened Controller
  import opened Scheduling
  import opened TelemetryPipeline

  // ---------------------------------------------------------------- the filter alone

  /** The average after readings xs. */
  function Filtered(avg: real, xs: seq<real>): real {
    if xs == [] then avg else Average(Filtered(avg, xs[..|xs| - 1]), xs[|xs| - 1])
  }

  /** With all readings at or above target, the average's shortfall e after n readings obeys
      e * (19 + n) <= 19 * e0; an average above target stays there. */
  lemma {:induction false} Shortfall(avg: real, xs: seq<real>, target: real)
    requires forall i | 0 <= i < |xs| :: xs[i] >= target
    ensures var e0, e := target - avg, target - Filtered(avg, xs);
      e <= 0.0 || (e0 > 0.0 && e * (19 + |xs|) as real <= 19.0 * e0)
  {
    if xs != [] {
      var init, x := xs[..|xs| - 1], xs[|xs| - 1];
      Shortfall(avg, init, target);
      var e1, e := target - Filtered(avg, init), target - Filtered(avg, xs);
      assert e <= 0.95 * e1;
      if e1 > 0.0 && e > 0.0 {
        ShortfallStep(e1, e, |init|, 19.0 * (target - avg));
      }
    }
  }

  lemma ShortfallStep(e1: real, e: real, n: nat, bound: real)
    requires 0.0 < e <= 0.95 * e1 && e1 * (19 + n) as real <= bound
    ensures e * (20 + n) as real <= bound
  {
    var k := n as real;
    assert e * (20.0 + k) <= 0.95 * e1 * (20.0 + k);
    assert 0.95 * e1 * (20.0 + k) == e1 * (19.0 + 0.95 * k);
    assert e1 * (19.0 + 0.95 * k) <= e1 * (19.0 + k);
  }

  /** If all of at least 19 (max + d - avg) / d readings are max + d or more, the average has
      passed max. */
  lemma RisesAbove(avg: real, xs: seq<real>, max: real, d: real)
    requires d > 0.0 && (forall i | 0 <= i < |xs| :: xs[i] >= max + d)
    requires |xs| as real * d >= 19.0 * (max + d - avg)
    ensures Filtered(avg, xs) > max
  {
    Shortfall(avg, xs, max + d);
    var e0, e := max + d - avg, max + d - Filtered(avg, xs);
    if e > 0.0 {
      BelowStep(e0, e, d, |xs|);
    }
  }

  lemma BelowStep(e0: real, e: real, d: real, n: nat)
    requires d > 0.0 && e > 0.0 && e * (19 + n) as real <= 19.0 * e0 && n as real * d >= 19.0 * e0
    ensures e < d
  {
    var k := (19 + n) as real;
    assert k == 19.0 + n as real;
    assert d * k == 19.0 * d + n as real * d;
    assert (d - e) * k == d * k - e * k;
    assert (d - e) * k > 0.0;
  }

  lemma {:induction false} Mirrored(avg: real, xs: seq<real>)
    ensures Filtered(-avg, seq(|xs|, i requires 0 <= i < |xs| => -xs[i])) == -Filtered(avg, xs)
  {
    if xs != [] {
      var ys := seq(|xs|, i requires 0 <= i < |xs| => -xs[i]);
      var init := xs[..|xs| - 1];
      Mirrored(avg, init);
      assert ys[..|ys| - 1] == seq(|init|, i requires 0 <= i < |init| => -init[i]);
    }
  }

  /** Symmetrically below min. */
  lemma FallsBelow(avg: real, xs: seq<real>, min: real, d: real)
    requires d > 0.0 && (forall i | 0 <= i < |xs| :: xs[i] <= min - d)
    requires |xs| as real * d >= 19.0 * (avg - (min - d))
    ensures Filtered(avg, xs) < min
  {
    var ys := seq(|xs|, i requires 0 <= i < |xs| => -xs[i]);
    Mirrored(avg, xs);
    RisesAbove(-avg, ys, -min, d);
  }

  // ---------------------------------------------------------------- in every run

  /** The calibrated readings of pt_comb in a history. */
  function Combustion(cfg: Config, trace: seq<Obs>): seq<real> {
    if trace == [] then [] else
    var o := trace[|trace| - 1];
    Combustion(cfg, trace[..|trace| - 1]) +
    if o.Sampled? && o.i == PT_COMB then [Calibrated(cfg, o.adc)] else []
  }

  lemma CombustionPush(cfg: Config, trace: seq<Obs>, o: Obs)
    ensures Combustion(cfg, trace + [o]) ==
            if o.Sampled? && o.i == PT_COMB then Combustion(cfg, trace) + [Calibrated(cfg, o.adc)]
            else Combustion(cfg, trace)
  {
    assert (trace + [o])[..|trace|] == trace;
  }

  lemma FilteredPush(avg: real, xs: seq<real>, x: real)
    ensures Filtered(avg, xs + [x]) == Average(Filtered(avg, xs), x)
  {
    assert (xs + [x])[..|xs|] == xs;
  }

  /** A step changes the average only by a reading of pt_comb that it notes. */
  lemma StepAverage(cfg: Config, s: State, e: Event)
    requires cfg.pressureShutoff
    ensures var s' := Step(cfg, s, e);
      if Samples(s, e) && s.q[0].i == PT_COMB then
        && s'.tele.pressureAvg == Average(s.tele.pressureAvg, Calibrated(cfg, e.input.adc))
        && s'.trace == s.trace + [Sampled(PT_COMB, s.now + e.input.dt, e.input.adc, s'.trace[|s'.trace| - 1].tripped)]
      else
        && s'.tele.pressureAvg == s.tele.pressureAvg
        && Combustion(cfg, s'.trace) == Combustion(cfg, s.trace)
  {
    hide Combustion, Average, Calibrated, Timed, Proc, Ignition1, StartScan, ScanEntry, NetworkStep;
    if Samples(s, e) {
      SampleAverage(cfg, Popped(s), s.q[0].i, s.now + e.input.dt, e.input);
    } else {
      QuietTelemetry(cfg, s, e);
      QuietStep(cfg, s, e);
      hide Step;
      var s' := Step(cfg, s, e);
      if s'.trace != s.trace {
        assert s'.trace == s.trace + [s'.trace[|s.trace|]];
        CombustionPush(cfg, s.trace, s'.trace[|s.trace|]);
      }
    }
  }

  lemma SampleAverage(cfg: Config, s: State, i: Slot, t: nat, input: Input)
    requires i < SENSORS && cfg.pressureShutoff
    ensures var s' := Timed(cfg, s, i, t, input);
      && s'.trace == s.trace + [Sampled(i, t, input.adc, s'.trace[|s'.trace| - 1].tripped)]
      && if i == PT_COMB then
           s'.tele.pressureAvg == Average(s.tele.pressureAvg, Calibrated(cfg, input.adc))
         else
           s'.tele.pressureAvg == s.tele.pressureAvg && Combustion(cfg, s'.trace) == Combustion(cfg, s.trace)
  {
    hide ChannelAfter, SendFrame, Trips, Average, Calibrated, Combustion, Touch;
    var o := Timed(cfg, s, i, t, input).trace[|s.trace|];
    CombustionPush(cfg, s.trace, o);
  }

  /** In any state of any run the average is the filter of pt_comb's readings, from 700. */
  lemma {:induction false} RunAverage(cfg: Config, s: State, es: seq<Event>)
    requires cfg.pressureShutoff && Initial(cfg, s)
    ensures Run(cfg, s, es).tele.pressureAvg == Filtered(700.0, Combustion(cfg, Run(cfg, s, es).trace))
  {
    if es != [] {
      hide Step, Combustion, Filtered, Average, Initial, Calibrated;
      var s1, e := Run(cfg, s, es[..|es| - 1]), es[|es| - 1];
      RunAverage(cfg, s, es[..|es| - 1]);
      StepAverage(cfg, s1, e);
      if Samples(s1, e) && s1.q[0].i == PT_COMB {
        var s2 := Step(cfg, s1, e);
        CombustionPush(cfg, s1.trace, s2.trace[|s1.trace|]);
        FilteredPush(700.0, Combustion(cfg, s1.trace), Calibrated(cfg, e.input.adc));
      }
    }
  }

  // ---------------------------------------------------------------- no false trip

  /** Every calibrated reading of pt_comb lies in the configured range. */
  predicate AllInRange(cfg: Config, trace: seq<Obs>) {
    forall a | 0 <= a < |trace| && trace[a].Sampled? && trace[a].i == PT_COMB ::
      cfg.pressureMin as real <= Calibrated(cfg, trace[a].adc) <= cfg.pressureMax as real
  }

  predicate NoTrip(trace: seq<Obs>) {
    forall a | 0 <= a < |trace| && trace[a].Sampled? :: !trace[a].tripped
  }

  lemma AverageInRange(cfg: Config, avg: real, x: real)
    requires !OutOfRange(cfg, avg) && !OutOfRange(cfg, x)
    ensures !OutOfRange(cfg, Average(avg, x))
  {
  }

  lemma SampleNoTrip(cfg: Config, s: State, i: Slot, t: nat, input: Input)
    requires i < SENSORS && !OutOfRange(cfg, s.tele.pressureAvg) && NoTrip(s.trace)
    requires i == PT_COMB ==> !OutOfRange(cfg, Calibrated(cfg, input.adc))
    ensures var s' := Timed(cfg, s, i, t, input); !OutOfRange(cfg, s'.tele.pressureAvg) && NoTrip(s'.trace)
  {
    hide ChannelAfter, SendFrame, Average, Calibrated, Touch, OutOfRange;
    AverageInRange(cfg, s.tele.pressureAvg, if i == PT_COMB then Calibrated(cfg, input.adc) else s.tele.pressureAvg);
  }

  lemma QuietNoTrip(cfg: Config, s: State, e: Event)
    requires !OutOfRange(cfg, s.tele.pressureAvg) && NoTrip(s.trace) && !Samples(s, e)
    ensures var s' := Step(cfg, s, e); !OutOfRange(cfg, s'.tele.pressureAvg) && NoTrip(s'.trace)
  {
    hide Step, OutOfRange;
    QuietTelemetry(cfg, s, e);
    QuietStep(cfg, s, e);
    var s' := Step(cfg, s, e);
    assert s'.trace == s.trace || s'.trace == s.trace + [s'.trace[|s.trace|]];
  }

  lemma StepNoTrip(cfg: Config, s: State, e: Event)
    requires !OutOfRange(cfg, s.tele.pressureAvg) && NoTrip(s.trace) && AllInRange(cfg, Step(cfg, s, e).trace)
    ensures var s' := Step(cfg, s, e); !OutOfRange(cfg, s'.tele.pressureAvg) && NoTrip(s'.trace)
  {
    hide NoTrip, AllInRange, OutOfRange, Timed, Proc, Ignition1, StartScan, ScanEntry, NetworkStep;
    if Samples(s, e) {
      SampleReading(cfg, Popped(s), s.q[0].i, s.now + e.input.dt, e.input);
      SampleNoTrip(cfg, Popped(s), s.q[0].i, s.now + e.input.dt, e.input);
    } else {
      QuietNoTrip(cfg, s, e);
    }
  }

  lemma SampleReading(cfg: Config, s: State, i: Slot, t: nat, input: Input)
    requires i < SENSORS && AllInRange(cfg, Timed(cfg, s, i, t, input).trace)
    ensures i == PT_COMB ==> !OutOfRange(cfg, Calibrated(cfg, input.adc))
  {
    hide Timed, Calibrated;
    SampleItems(cfg, s, i, t, input);
    SampleChannels(cfg, s, i, t, input);
    var s' := Timed(cfg, s, i, t, input);
    assert s'.trace[|s.trace|].adc == input.adc && s'.trace[|s.trace|].i == i;
  }

  lemma InRangePrefix(cfg: Config, trace: seq<Obs>, before: seq<Obs>)
    requires AllInRange(cfg, trace) && before <= trace
    ensures AllInRange(cfg, before)
  {
    hide Calibrated;
  }

  lemma {:induction false} RunNoTrip(cfg: Config, s: State, es: seq<Event>)
    requires Initial(cfg, s) && !OutOfRange(cfg, 700.0) && AllInRange(cfg, Run(cfg, s, es).trace)
    ensures !OutOfRange(cfg, Run(cfg, s, es).tele.pressureAvg) && NoTrip(Run(cfg, s, es).trace)
  {
    if es != [] {
      hide Step, NoTrip, AllInRange, OutOfRange, Initial;
      var s1, e := Run(cfg, s, es[..|es| - 1]), es[|es| - 1];
      StepTrace(cfg, s1, e);
      InRangePrefix(cfg, Run(cfg, s, es).trace, s1.trace);
      RunNoTrip(cfg, s, es[..|es| - 1]);
      StepNoTrip(cfg, s1, e);
    }
  }

  /** If 700 and every calibrated reading lie in the range, the cut-off never fires. */
  lemma NoFalseTrip(cfg: Config, s: State, es: seq<Event>, b: nat)
    requires Initial(cfg, s) && cfg.pressureMin <= 700 <= cfg.pressureMax
    requires AllInRange(cfg, Run(cfg, s, es).trace)
    requires b < |Run(cfg, s, es).trace| && Run(cfg, s, es).trace[b].Sampled?
    ensures !Run(cfg, s, es).trace[b].tripped
  {
    hide Run, Initial, AllInRange;
    RunNoTrip(cfg, s, es);
  }

  // ---------------------------------------------------------------- detection

  /** The average after more events is the filter of the readings they brought. */
  lemma {:induction false} SinceAverage(cfg: Config, s: State, es: seq<Event>)
    requires cfg.pressureShutoff
    ensures s.trace <= Run(cfg, s, es).trace
    ensures Run(cfg, s, es).tele.pressureAvg ==
            Filtered(s.tele.pressureAvg, Combustion(cfg, Run(cfg, s, es).trace[|s.trace|..]))
  {
    var n := |s.trace|;
    if es == [] {
      assert s.trace[n..] == [];
    } else {
      hide Step, Combustion, Filtered, Average, Calibrated;
      var s1, e := Run(cfg, s, es[..|es| - 1]), es[|es| - 1];
      var s2 := Step(cfg, s1, e);
      SinceAverage(cfg, s, es[..|es| - 1]);
      StepAverage(cfg, s1, e);
      StepTrace(cfg, s1, e);
      StepCombustion(cfg, s1, e, n);
      if Samples(s1, e) && s1.q[0].i == PT_COMB {
        FilteredPush(s.tele.pressureAvg, Combustion(cfg, s1.trace[n..]), Calibrated(cfg, e.input.adc));
      }
    }
  }

  lemma StepCombustion(cfg: Config, s: State, e: Event, n: nat)
    requires cfg.pressureShutoff && n <= |s.trace| <= |Step(cfg, s, e).trace|
    ensures Combustion(cfg, Step(cfg, s, e).trace[n..]) ==
            if Samples(s, e) && s.q[0].i == PT_COMB
            then Combustion(cfg, s.trace[n..]) + [Calibrated(cfg, e.input.adc)]
            else Combustion(cfg, s.trace[n..])
  {
    hide Combustion, Average, Calibrated, Step;
    StepAverage(cfg, s, e);
    StepTrace(cfg, s, e);
    var s' := Step(cfg, s, e);
    if s'.trace != s.trace {
      var o := s'.trace[|s.trace|];
      assert s'.trace == s.trace + [o] && s'.trace[n..] == s.trace[n..] + [o];
      CombustionPush(cfg, s.trace[n..], o);
      if !(Samples(s, e) && s.q[0].i == PT_COMB) {
        CombustionPush(cfg, s.trace, o);
        NotCombustion(cfg, s, e);
      }
    }
  }

  lemma NotCombustion(cfg: Config, s: State, e: Event)
    requires Step(cfg, s, e).trace != s.trace && !(Samples(s, e) && s.q[0].i == PT_COMB)
    requires |Step(cfg, s, e).trace| == |s.trace| + 1
    ensures var o := Step(cfg, s, e).trace[|s.trace|]; !(o.Sampled? && o.i == PT_COMB)
  {
    hide Timed, Proc, Ignition1, StartScan, ScanEntry, NetworkStep;
    if Samples(s, e) {
      SampleChannels(cfg, Popped(s), s.q[0].i, s.now + e.input.dt, e.input);
    } else {
      QuietStep(cfg, s, e);
    }
  }

  /** The readings of pt_comb since s, and one more, all exceed the range by d on one side. */
  predicate AllBeyond(cfg: Config, xs: seq<real>, d: real) {
    || (forall i | 0 <= i < |xs| :: xs[i] >= cfg.pressureMax as real + d)
    || (forall i | 0 <= i < |xs| :: xs[i] <= cfg.pressureMin as real - d)
  }

  /** The distance the average has to make up to leave the range by d on the readings' side. */
  function Gap(cfg: Config, avg: real, xs: seq<real>, d: real): real {
    if forall i | 0 <= i < |xs| :: xs[i] >= cfg.pressureMax as real + d
    then cfg.pressureMax as real + d - avg
    else avg - (cfg.pressureMin as real - d)
  }

  lemma BeyondTrips(cfg: Config, avg: real, xs: seq<real>, d: real)
    requires d > 0.0 && AllBeyond(cfg, xs, d) && |xs| as real * d >= 19.0 * Gap(cfg, avg, xs, d)
    ensures OutOfRange(cfg, Filtered(avg, xs))
  {
    hide Filtered;
    if forall i | 0 <= i < |xs| :: xs[i] >= cfg.pressureMax as real + d {
      RisesAbove(avg, xs, cfg.pressureMax as real, d);
    } else {
      FallsBelow(avg, xs, cfg.pressureMin as real, d);
    }
  }

  /** The entries of trace' after those of trace. */
  function Since(trace: seq<Obs>, trace': seq<Obs>): seq<Obs> {
    if |trace| <= |trace'| then trace'[|trace|..] else []
  }

  /** From any state s on, let all readings of pt_comb be out of range by d or more on one
      side. The reading that makes their number 19 gap / d, and every later one, trips the
      cut-off if the burn is on and more than a second old: main valve and igniter go off,
      and Luna's GITVC closes. */
  lemma TripsInTime(cfg: Config, s: State, es: seq<Event>, e: Event, d: real)
    requires cfg.pressureShutoff && d > 0.0
    requires var s1 := Run(cfg, s, es);
      && Samples(s1, e) && s1.q[0].i == PT_COMB
      && s1.rig.burnOn && s1.now + e.input.dt - s1.rig.startTimeNitr > 1_000_000
    requires var xs := Combustion(cfg, Since(s.trace, Run(cfg, s, es).trace)) + [Calibrated(cfg, e.input.adc)];
      AllBeyond(cfg, xs, d) && |xs| as real * d >= 19.0 * Gap(cfg, s.tele.pressureAvg, xs, d)
    ensures var s2 := Step(cfg, Run(cfg, s, es), e);
      && s2.trace[|s2.trace| - 1].Sampled? && s2.trace[|s2.trace| - 1].tripped
      && !s2.rig.burnOn
      && s2.rig.pins.Get(MAIN_VALVE) == Level(LOW, Cutoff)
      && s2.rig.pins.Get(IGN_START) == Level(LOW, Cutoff)
      && s2.rig.pins.Get(GITVC_VALVE) == Level(HIGH, Cutoff)
  {
    hide Run, Combustion, Filtered, Average, Calibrated, AllBeyond, Gap;
    var s1 := Run(cfg, s, es);
    SinceAverage(cfg, s, es);
    var xs := Combustion(cfg, Since(s.trace, s1.trace));
    FilteredPush(s.tele.pressureAvg, xs, Calibrated(cfg, e.input.adc));
    BeyondTrips(cfg, s.tele.pressureAvg, xs + [Calibrated(cfg, e.input.adc)], d);
    SampleTrips(cfg, Popped(s1), s1.now + e.input.dt, e.input);
  }

  lemma SampleTrips(cfg: Config, s: State, t: nat, input: Input)
    requires cfg.pressureShutoff && s.rig.burnOn && t - s.rig.startTimeNitr > CUTOFF_DELAY
    requires OutOfRange(cfg, Average(s.tele.pressureAvg, Calibrated(cfg, input.adc)))
    ensures var s' := Timed(cfg, s, PT_COMB, t, input);
      && s'.trace == s.trace + [Sampled(PT_COMB, t, input.adc, true)]
      && !s'.rig.burnOn
      && s'.rig.pins.Get(MAIN_VALVE) == Level(LOW, Cutoff)
      && s'.rig.pins.Get(IGN_START) == Level(LOW, Cutoff)
      && s'.rig.pins.Get(GITVC_VALVE) == Level(HIGH, Cutoff)
  {
    hide ChannelAfter, SendFrame, Average, Calibrated, OutOfRange;
  }
}
