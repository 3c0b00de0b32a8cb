/** What each visit of the worker notes, from the head of its queue and the history alone. Every
    number stands here as the source has it. */
module Rules {
  import opened Types
  import opened Controller
  import opened Scheduling
  import opened FiringSequence
  import opened Histories

  // ---------------------------------------------------------------- one step of the worker

  /** The bytes that the engine's visitor has a case for. */
  predicate HasCase(engine: Engine, c: byte) {
    || c == 4 || c == 5 || c == 6 || c == 7 || c == 8 || c == 19 || c == 20
    || (engine.Luna? && (c == 21 || c == 22))
    || (engine.Titan? && (c == 23 || c == 24 || c == 25 || c == 26))
  }

  /** What a visit of x at time t may note. */
  predicate Notes(x: Work, t: nat, adc: nat, o: Obs) {
    match x
    case WqNone => o == Polled(t)
    case WqProcess(c) => o == Commanded(c)
    case WqIgn1 => o == Ignited(t)
    case WqTimed(i) =>
      if i < 10 then o.Sampled? && o.i == i && o.t == t && o.adc == adc
      else if i == 10 then o == Fired2(t)
      else if i == 11 then o == Fired3(t)
      else (o.Opened? || o.Closed? || o.NoPulse?) && o.t == t
  }

  /** What a visit of x puts back on the queue. */
  function PutsBack(engine: Engine, x: Work): seq<Work> {
    if x == WqProcess(8) then [WqIgn1]
    else if x.WqProcess? && !HasCase(engine, x.c) then [WqNone]
    else []
  }

  /** The worker's next entry: the head of its queue, or nothing. */
  function Next(q: seq<Work>): Work { if q == [] then WqNone else q[0] }

  function Tail(q: seq<Work>): seq<Work> { if q == [] then [] else q[1..] }

  lemma VisitNoted(cfg: Config, s: State, x: Work, input: Input)
    ensures var s' := Visit(cfg, s, x, input);
      && |s'.trace| == |s.trace| + 1 && s'.trace[..|s.trace|] == s.trace
      && Notes(x, s.now + input.dt, input.adc, s'.trace[|s.trace|])
      && s'.pc == (if x.WqNone? then Scan(0, s.now + input.dt) else s.pc)
      && s'.q == s.q + PutsBack(cfg.engine, x)
  {
    hide Sample, PinsAfter, Fire, Ignite;
    var t := s.now + input.dt;
    assert s.q + [] == s.q;
    if x.WqTimed? && x.i < SENSORS {
      SampleKeeps(cfg, Touched(s, x.i, t), x.i, t, input);
      SampledAdc(cfg, Touched(s, x.i, t), x.i, t, input);
    }
  }

  lemma SampledAdc(cfg: Config, s: State, i: Slot, t: nat, input: Input)
    requires i < SENSORS
    ensures Sample(cfg, s, i, t, input).trace == s.trace + [Sampled(i, t, input.adc, Sample(cfg, s, i, t, input).trace[|s.trace|].tripped)]
  {
    hide ChannelAfter, SendFrame, Trips, AverageAfter;
  }

  /** Each step of the worker either takes its next entry, notes that visit and puts back what
      a command asks for, with a scan to follow a visit of nothing; or it goes on with the scan,
      adding the table's entry i exactly if it is enabled and overdue. */
  lemma WorkerRule(cfg: Config, s: State, input: Input)
    ensures var s' := Step(cfg, s, Worker(input));
      var t := s.now + input.dt;
      match s.pc
      case Poll =>
        && |s'.trace| == |s.trace| + 1 && s'.trace[..|s.trace|] == s.trace
        && Notes(Next(s.q), t, input.adc, s'.trace[|s.trace|])
        && s'.q == Tail(s.q) + PutsBack(cfg.engine, Next(s.q))
        && s'.pc == (if Next(s.q).WqNone? then Scan(0, t) else Poll)
      case Scan(i, u) =>
        var it := s.rig.items[i];
        && s'.trace == s.trace && s'.rig == s.rig && s'.now == s.now
        && s'.q == s.q + (if it.enabled && u > it.scheduled && u - it.scheduled > it.timeDelay then [WqTimed(i)] else [])
        && s'.pc == (if i < 12 then Scan(i + 1, u) else Poll)
  {
    hide Visit, Notes, PutsBack;
    if s.pc.Poll? {
      VisitNoted(cfg, if s.q == [] then s else Popped(s), Next(s.q), input);
    }
  }

  // ---------------------------------------------------------------- pulses and cut-offs, in every run

  /** The calibrated readings of the combustion pressure. */
  function PressuresIn(cfg: Config, trace: seq<Obs>): seq<real> {
    if trace == [] then [] else
    var o := trace[|trace| - 1];
    PressuresIn(cfg, trace[..|trace| - 1]) +
    if o.Sampled? && o.i == 5 then [cfg.pressureSlope * o.adc as real + cfg.pressureYint] else []
  }

  /** Their running average, from 700. */
  function Smoothed(xs: seq<real>): real {
    if xs == [] then 700.0 else Smoothed(xs[..|xs| - 1]) * 0.95 + xs[|xs| - 1] * 0.05
  }

  /** A sample trips the cut-off exactly if the shut-off is configured, it is one of the
      combustion pressure, the average with it is out of range, the burn is on, and more than a
      second passed since the last ign2. */
  predicate TripRight(cfg: Config, before: seq<Obs>, o: Obs) {
    o.Sampled? ==>
      var avg := Smoothed(PressuresIn(cfg, before + [o]));
      o.tripped <==>
        && cfg.pressureShutoff && o.i == 5
        && (avg > cfg.pressureMax as real || avg < cfg.pressureMin as real)
        && BurnOn(before) && o.t - BurnBegan(before) > 1_000_000
  }

  /** A gitvc visit closes a pulse that is on; otherwise it opens the next one exactly if there
      is one and the burn is on; on Titan it does neither. */
  predicate PulseRight(cfg: Config, before: seq<Obs>, o: Obs) {
    o.Opened? || o.Closed? || o.NoPulse? ==>
      var k := NextPulse(before);
      if cfg.engine.Titan? then o.NoPulse?
      else if PulseOn(cfg, before) then o.Closed?
      else if k < |cfg.gitvcTimes| && BurnOn(before) then o.Opened? && o.k == k && o.lasts == cfg.gitvcTimes[k]
      else o.NoPulse?
  }

  predicate AllRight(cfg: Config, trace: seq<Obs>) {
    if trace == [] then true else
    var before, o := trace[..|trace| - 1], trace[|trace| - 1];
    AllRight(cfg, before) && TripRight(cfg, before, o) && PulseRight(cfg, before, o)
  }

  predicate Ruled(cfg: Config, s: State) {
    && AllRight(cfg, s.trace)
    && (cfg.pressureShutoff ==> s.tele.pressureAvg == Smoothed(PressuresIn(cfg, s.trace)))
  }

  lemma RulePush(cfg: Config, trace: seq<Obs>, o: Obs)
    ensures AllRight(cfg, trace + [o]) <==> AllRight(cfg, trace) && TripRight(cfg, trace, o) && PulseRight(cfg, trace, o)
    ensures Smoothed(PressuresIn(cfg, trace + [o])) ==
            if o.Sampled? && o.i == 5
            then Smoothed(PressuresIn(cfg, trace)) * 0.95 + (cfg.pressureSlope * o.adc as real + cfg.pressureYint) * 0.05
            else Smoothed(PressuresIn(cfg, trace))
  {
    hide TripRight, PulseRight;
    assert (trace + [o])[..|trace|] == trace;
    var xs := PressuresIn(cfg, trace);
    if o.Sampled? && o.i == 5 {
      var x := cfg.pressureSlope * o.adc as real + cfg.pressureYint;
      assert (xs + [x])[..|xs|] == xs;
    } else {
      assert xs + [] == xs;
    }
  }

  lemma SampleRuled(cfg: Config, s: State, i: Slot, t: nat, input: Input)
    requires i < SENSORS && Ruled(cfg, s) && BurnTold(cfg, s.rig, s.trace)
    ensures Ruled(cfg, Sample(cfg, s, i, t, input))
  {
    hide ChannelAfter, SendFrame, AllRight, PressuresIn, Smoothed, BurnOn, BurnBegan, NextPulse, PulseOn;
    var s' := Sample(cfg, s, i, t, input);
    RulePush(cfg, s.trace, s'.trace[|s.trace|]);
  }

  lemma PulseRuled(cfg: Config, r: Rig, i: Slot, t: nat, trace: seq<Obs>)
    requires i >= SENSORS && BurnTold(cfg, r, trace)
    ensures PulseRight(cfg, trace, FireObs(cfg, r, i, t)) && !FireObs(cfg, r, i, t).Sampled?
  {
    hide BurnOn, BurnBegan, NextPulse, PulseOn;
  }

  /** A visit that notes o, which is no sample, and leaves the average alone. */
  lemma OtherRuled(cfg: Config, s: State, s': State, o: Obs)
    requires Ruled(cfg, s) && s'.trace == s.trace + [o] && s'.tele == s.tele
    requires !o.Sampled? && PulseRight(cfg, s.trace, o)
    ensures Ruled(cfg, s')
  {
    hide AllRight, PressuresIn, Smoothed, PulseRight;
    RulePush(cfg, s.trace, o);
  }

  lemma VisitRuled(cfg: Config, s: State, x: Work, input: Input)
    requires Ruled(cfg, s) && BurnTold(cfg, s.rig, s.trace)
    ensures Ruled(cfg, Visit(cfg, s, x, input))
  {
    hide Ruled, Sample, PinsAfter, FollowUp, Fire, FireObs, Ignite, BurnOn, BurnBegan, NextPulse, PulseOn, PressuresIn, Smoothed;
    var t := s.now + input.dt;
    var s' := Visit(cfg, s, x, input);
    match x
    case WqProcess(c) => OtherRuled(cfg, s, s', Commanded(c));
    case WqNone => OtherRuled(cfg, s, s', Polled(t));
    case WqIgn1 => OtherRuled(cfg, s, s', Ignited(t));
    case WqTimed(i) =>
      var s1 := Touched(s, i, t);
      assert BurnTold(cfg, s1.rig, s1.trace);
      if i < SENSORS {
        TouchedRuled(cfg, s, i, t);
        SampleRuled(cfg, s1, i, t, input);
      } else {
        PulseRuled(cfg, s1.rig, i, t, s.trace);
        OtherRuled(cfg, s, s', FireObs(cfg, s1.rig, i, t));
      }
  }

  lemma TouchedRuled(cfg: Config, s: State, i: Slot, t: nat)
    requires Ruled(cfg, s)
    ensures Ruled(cfg, Touched(s, i, t))
  {
  }

  lemma StepRuled(cfg: Config, s: State, e: Event)
    requires Ruled(cfg, s) && BurnTold(cfg, s.rig, s.trace)
    ensures Ruled(cfg, Step(cfg, s, e))
  {
    hide BurnTold, Visit, NetStep, AllRight, PressuresIn, Smoothed;
    match e
    case Network(recv, _) =>
      if Reads(s.net) && recv.Byte? {
        OtherRuled(cfg, s, Step(cfg, s, e), Arrived(recv.c));
      }
    case Worker(input) =>
      if s.pc.Poll? && s.q == [] {
        VisitRuled(cfg, s, WqNone, input);
      } else if s.pc.Poll? {
        VisitRuled(cfg, Popped(s), s.q[0], input);
      }
  }

  lemma {:induction false} RunRuled(cfg: Config, s: State, es: seq<Event>)
    requires Initial(cfg, s)
    ensures Ruled(cfg, Run(cfg, s, es))
  {
    if es != [] {
      hide Ruled, BurnTold, Step, Initial;
      RunRuled(cfg, s, es[..|es| - 1]);
      BurnFollowsHistory(cfg, s, es[..|es| - 1]);
      StepRuled(cfg, Run(cfg, s, es[..|es| - 1]), es[|es| - 1]);
    }
  }

  lemma {:induction false} RightAt(cfg: Config, trace: seq<Obs>, b: nat)
    requires AllRight(cfg, trace) && b < |trace|
    ensures TripRight(cfg, trace[..b], trace[b]) && PulseRight(cfg, trace[..b], trace[b])
  {
    hide TripRight, PulseRight;
    if b < |trace| - 1 {
      RightAt(cfg, trace[..|trace| - 1], b);
      assert trace[..|trace| - 1][..b] == trace[..b];
    }
  }

  /** In every run, for each sample: whether it trips the cut-off follows from the readings so
      far and the burn's history. */
  lemma TripsExactly(cfg: Config, s: State, es: seq<Event>, b: nat)
    requires Initial(cfg, s) && b < |Run(cfg, s, es).trace| && Run(cfg, s, es).trace[b].Sampled?
    ensures var trace := Run(cfg, s, es).trace;
      var avg := Smoothed(PressuresIn(cfg, trace[..b + 1]));
      trace[b].tripped <==>
        && cfg.pressureShutoff && trace[b].i == 5
        && (avg > cfg.pressureMax as real || avg < cfg.pressureMin as real)
        && BurnOn(trace[..b]) && trace[b].t - BurnBegan(trace[..b]) > 1_000_000
  {
    hide Run, Initial, AllRight, PressuresIn, Smoothed, BurnOn, BurnBegan, PulseRight;
    RunRuled(cfg, s, es);
    var trace := Run(cfg, s, es).trace;
    RightAt(cfg, trace, b);
    assert trace[..b] + [trace[b]] == trace[..b + 1];
  }

  /** In every run, for each visit of the gitvc item: whether it opens a pulse, which, and
      whether it closes one follow from the history. */
  lemma PulsesExactly(cfg: Config, s: State, es: seq<Event>, b: nat)
    requires Initial(cfg, s) && b < |Run(cfg, s, es).trace|
    ensures PulseRight(cfg, Run(cfg, s, es).trace[..b], Run(cfg, s, es).trace[b])
  {
    hide Run, Initial, AllRight, PressuresIn, Smoothed, PulseRight, TripRight;
    RunRuled(cfg, s, es);
    RightAt(cfg, Run(cfg, s, es).trace, b);
  }
}
