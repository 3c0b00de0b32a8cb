/** The firing sequence ign_normal, ign1, ign2, ign3: how often its parts run and how far
    apart they are. */
module FiringSequence {
  import opened Types
  import opened Controller
  import opened Scheduling

  /** The parts of a firing sequence, in the order they cause one another. */
  datatype Part = PReceived | PCommanded | PIgnited | PFired2 | PFired3 | POther

  function PartOf(o: Obs): Part {
    match o
    case Arrived(c) => if c == IGN_NORMAL then PReceived else POther
    case Commanded(c) => if c == IGN_NORMAL then PCommanded else POther
    case Ignited(_) => PIgnited
    case Fired2(_) => PFired2
    case Fired3(_) => PFired3
    case _ => POther
  }

  /** How often a part occurs in a history. */
  function Tally(trace: seq<Obs>, p: Part): nat {
    if trace == [] then 0 else
    Tally(trace[..|trace| - 1], p) + if PartOf(trace[|trace| - 1]) == p then 1 else 0
  }

  function One(b: bool): nat { if b then 1 else 0 }

  /** One more entry o changes the tally of its own part only. */
  lemma TallyPush(trace: seq<Obs>, o: Obs)
    ensures forall p :: Tally(trace + [o], p) == Tally(trace, p) + One(PartOf(o) == p)
  {
    assert (trace + [o])[..|trace|] == trace;
  }

  // ---------------------------------------------------------------- accounting

  /** Everything armed, queued, or just taken off the queue as x, is paid for by one more
      occurrence of its cause. */
  predicate Paid(x: Work, q: seq<Work>, items: Table, trace: seq<Obs>) {
    && Tally(trace, PFired3) + One(items[IGN3].enabled) <= Tally(trace, PFired2)
    && Tally(trace, PFired2) + One(items[IGN2].enabled) <= Tally(trace, PIgnited)
    && Tally(trace, PIgnited) + Count(q, WqIgn1) + One(x == WqIgn1) == Tally(trace, PCommanded)
    && Tally(trace, PCommanded) + Count(q, WqProcess(IGN_NORMAL)) + One(x == WqProcess(IGN_NORMAL))
       == Tally(trace, PReceived)
  }

  predicate Accounted(s: State) { Paid(WqNone, s.q, s.rig.items, s.trace) }

  lemma ProcAccounted(cfg: Config, s: State, c: byte)
    requires Paid(WqProcess(c), s.q, s.rig.items, s.trace)
    ensures Accounted(Proc(cfg, s, c))
  {
    hide Tally, Count, PinsAfter;
    TallyPush(s.trace, Commanded(c));
    assert s.q + [] == s.q;
    var x := if c == IGN_NORMAL then WqIgn1 else WqNone;
    CountPush(s.q, x, WqIgn1);
    CountPush(s.q, x, WqProcess(IGN_NORMAL));
  }

  /** Ign2 hands its arming over to ign3; ign3 gives it up. */
  lemma FireArms(cfg: Config, r: Rig, i: Slot, t: nat)
    requires i >= SENSORS
    ensures Fire(cfg, r, i, t).items[IGN2].enabled == (r.items[IGN2].enabled && i != IGN2)
    ensures Fire(cfg, r, i, t).items[IGN3].enabled == ((r.items[IGN3].enabled && i != IGN3) || i == IGN2)
  {
  }

  lemma FireAccounted(cfg: Config, s: State, i: Slot, t: nat)
    requires Paid(WqTimed(i), s.q, s.rig.items, s.trace) && i >= SENSORS
    requires i <= IGN3 ==> s.rig.items[i].enabled
    ensures Accounted(FireItem(cfg, s, i, t))
  {
    hide Tally, Count, Fire;
    FireArms(cfg, s.rig, i, t);
    TallyPush(s.trace, FireObs(cfg, s.rig, i, t));
  }

  /** A sample disturbs neither the queue nor the firing items, and adds its own entry. */
  lemma SampleKeeps(cfg: Config, s: State, i: Slot, t: nat, input: Input)
    requires i < SENSORS
    ensures var s' := Sample(cfg, s, i, t, input);
      && s'.q == s.q && s'.pc == s.pc && s'.now == s.now
      && (forall j: Slot | j >= SENSORS :: s'.rig.items[j] == s.rig.items[j])
      && s'.trace == s.trace + [Sampled(i, t, input.adc, s'.trace[|s'.trace| - 1].tripped)]
  {
    hide ChannelAfter, SendFrame, Trips, AverageAfter;
  }

  lemma TimedAccounted(cfg: Config, s: State, i: Slot, t: nat, input: Input)
    requires Paid(WqTimed(i), s.q, s.rig.items, s.trace)
    requires Live(s.rig.items, s.pc, s.now, WqTimed(i))
    ensures Accounted(Timed(cfg, s, i, t, input))
  {
    hide Tally, Count, Sample, FireItem;
    if i < SENSORS {
      SampleKeeps(cfg, Touched(s, i, t), i, t, input);
      TallyPush(s.trace, Sampled(i, t, input.adc, false));
      TallyPush(s.trace, Sampled(i, t, input.adc, true));
    } else {
      FireAccounted(cfg, Touched(s, i, t), i, t);
    }
  }

  lemma IgniteAccounted(cfg: Config, s: State, t: nat)
    requires Paid(WqIgn1, s.q, s.rig.items, s.trace)
    ensures Accounted(Ignition1(cfg, s, t))
  {
    hide Tally, Count;
    TallyPush(s.trace, Ignited(t));
  }

  lemma ScanStartAccounted(s: State, t: nat)
    requires Paid(WqNone, s.q, s.rig.items, s.trace)
    ensures Accounted(StartScan(s, t))
  {
    hide Tally, Count;
    TallyPush(s.trace, Polled(t));
  }

  lemma VisitAccounted(cfg: Config, s: State, x: Work, input: Input)
    requires Paid(x, s.q, s.rig.items, s.trace)
    requires Live(s.rig.items, s.pc, s.now, x)
    ensures Accounted(Visit(cfg, s, x, input))
  {
    hide Paid, Accounted, Live, Proc, Timed, Ignition1, StartScan;
    match x
    case WqProcess(c) => ProcAccounted(cfg, s, c);
    case WqNone => ScanStartAccounted(s, s.now + input.dt);
    case WqIgn1 => IgniteAccounted(cfg, s, s.now + input.dt);
    case WqTimed(i) => TimedAccounted(cfg, s, i, s.now + input.dt, input);
  }

  lemma NetworkAccounted(cfg: Config, s: State, recv: Recv, idle: nat)
    requires Accounted(s)
    ensures Accounted(NetworkStep(cfg, s, recv, idle))
  {
    hide Tally, Count, NetStep;
    if Reads(s.net) && recv.Byte? {
      TallyPush(s.trace, Arrived(recv.c));
      CountPush(s.q, WqProcess(recv.c), WqIgn1);
      CountPush(s.q, WqProcess(recv.c), WqProcess(IGN_NORMAL));
    }
  }

  lemma ScanAccounted(s: State, i: Slot, t: nat)
    requires Accounted(s)
    ensures Accounted(ScanEntry(s, i, t))
  {
    hide Tally, Count;
    CountPush(s.q, WqTimed(i), WqIgn1);
    CountPush(s.q, WqTimed(i), WqProcess(IGN_NORMAL));
  }

  lemma PoppedPaid(s: State)
    requires Accounted(s) && s.q != []
    ensures Paid(s.q[0], s.q[1..], s.rig.items, s.trace)
  {
    hide Tally, Count;
    CountHead(s.q, WqIgn1);
    CountHead(s.q, WqProcess(IGN_NORMAL));
  }

  lemma HeadLive(engine: Engine, s: State)
    requires Orderly(engine, s) && s.q != []
    ensures Live(s.rig.items, s.pc, s.now, s.q[0])
  {
  }

  lemma StepAccounted(cfg: Config, s: State, e: Event)
    requires Accounted(s) && Orderly(cfg.engine, s)
    ensures Accounted(Step(cfg, s, e))
  {
    hide Paid, Orderly, Live, Proc, Timed, Ignition1, StartScan, ScanEntry, NetworkStep;
    match e
    case Network(recv, idle) => NetworkAccounted(cfg, s, recv, idle);
    case Worker(input) =>
      if s.pc.Scan? {
        ScanAccounted(s, s.pc.i, s.pc.t);
      } else if s.q == [] {
        ScanStartAccounted(s, s.now + input.dt);
      } else {
        PoppedPaid(s);
        HeadLive(cfg.engine, s);
        VisitAccounted(cfg, Popped(s), s.q[0], input);
      }
  }

  lemma {:induction false} RunAccounted(cfg: Config, s: State, es: seq<Event>)
    requires Initial(cfg, s) && Unknown(cfg.engine, Run(cfg, s, es).trace) <= 1
    ensures Accounted(Run(cfg, s, es))
  {
    if es == [] {
      var i2: Slot, i3: Slot := IGN2, IGN3;
      assert s.rig.items[i2] == InitialItem(cfg, i2) && s.rig.items[i3] == InitialItem(cfg, i3);
    } else {
      hide Accounted, Orderly, Step, Unknown;
      var s1, e := Run(cfg, s, es[..|es| - 1]), es[|es| - 1];
      StepTrace(cfg, s1, e);
      RunAccounted(cfg, s, es[..|es| - 1]);
      RunOrderly(cfg, s, es[..|es| - 1]);
      StepAccounted(cfg, s1, e);
    }
  }

  /** In every run with at most one unknown byte, burns end no more often than they begin,
      begin no more often than ignitions, and each ignition was commanded and received. */
  lemma IgnitionAccounting(cfg: Config, s: State, es: seq<Event>)
    requires Initial(cfg, s) && Unknown(cfg.engine, Run(cfg, s, es).trace) <= 1
    ensures var trace := Run(cfg, s, es).trace;
      Tally(trace, PFired3) <= Tally(trace, PFired2) <= Tally(trace, PIgnited)
      <= Tally(trace, PCommanded) <= Tally(trace, PReceived)
  {
    hide Run, Tally, Unknown, Initial, Count;
    RunAccounted(cfg, s, es);
  }

  // ---------------------------------------------------------------- timing

  /** When the burn that is still on began: the first ign2 since the last ign3. */
  function BurnStart(trace: seq<Obs>): Option<nat> {
    if trace == [] then None else
    var before := BurnStart(trace[..|trace| - 1]);
    match trace[|trace| - 1]
    case Fired2(t) => if before.Some? then before else Some(t)
    case Fired3(_) => None
    case _ => before
  }

  predicate After(since: Option<nat>, t: nat, delay: nat) { since.Some? && t - since.value > delay }

  /** Every ign3 comes more than hotflow_us after the burn began. */
  predicate Timely(cfg: Config, trace: seq<Obs>) {
    if trace == [] then true else
    var before, o := trace[..|trace| - 1], trace[|trace| - 1];
    && Timely(cfg, before)
    && (o.Fired3? ==> After(BurnStart(before), o.t, cfg.hotflowUs))
  }

  lemma HistoryPush(cfg: Config, trace: seq<Obs>, o: Obs)
    ensures BurnStart(trace + [o]) ==
            if o.Fired3? then None
            else if o.Fired2? && BurnStart(trace).None? then Some(o.t) else BurnStart(trace)
    ensures Timely(cfg, trace + [o]) <==>
            && Timely(cfg, trace)
            && (o.Fired3? ==> After(BurnStart(trace), o.t, cfg.hotflowUs))
  {
    assert (trace + [o])[..|trace|] == trace;
  }

  /** The ign3 item carries the time the history tells, queued or armed. */
  predicate Clocked(cfg: Config, items: Table, now: nat, trace: seq<Obs>, waits: bool) {
    && items[IGN3].timeDelay == cfg.hotflowUs
    && (items[IGN3].enabled ==> BurnStart(trace).Some? && BurnStart(trace).value <= items[IGN3].scheduled)
    && (BurnStart(trace).Some? ==> BurnStart(trace).value <= now)
    && (waits ==> After(BurnStart(trace), now, cfg.hotflowUs))
    && Timely(cfg, trace)
  }

  predicate Strict(cfg: Config, s: State) {
    Clocked(cfg, s.rig.items, s.now, s.trace, WqTimed(IGN3) in s.q)
  }

  lemma NetworkStrict(cfg: Config, s: State, recv: Recv, idle: nat)
    requires Strict(cfg, s)
    ensures Strict(cfg, NetworkStep(cfg, s, recv, idle))
  {
    hide NetStep, Timely, BurnStart;
    if Reads(s.net) && recv.Byte? {
      HistoryPush(cfg, s.trace, Arrived(recv.c));
    }
  }

  lemma ScanStrict(cfg: Config, s: State)
    requires Strict(cfg, s) && s.pc.Scan? && s.pc.t == s.now
    ensures Strict(cfg, ScanEntry(s, s.pc.i, s.pc.t))
  {
    hide Timely, BurnStart;
  }

  lemma ScanStartStrict(cfg: Config, s: State, t: nat)
    requires Strict(cfg, s) && t >= s.now
    ensures Strict(cfg, StartScan(s, t))
  {
    hide Timely, BurnStart;
    HistoryPush(cfg, s.trace, Polled(t));
  }

  lemma ProcStrict(cfg: Config, s: State, c: byte)
    requires Strict(cfg, s) && s.pc.Poll?
    ensures Strict(cfg, Proc(cfg, s, c))
  {
    hide PinsAfter, Known, Timely, BurnStart;
    HistoryPush(cfg, s.trace, Commanded(c));
  }

  lemma IgniteStrict(cfg: Config, s: State, t: nat)
    requires Strict(cfg, s) && s.pc.Poll? && t >= s.now
    ensures Strict(cfg, Ignition1(cfg, s, t))
  {
    hide Timely, BurnStart;
    HistoryPush(cfg, s.trace, Ignited(t));
  }

  /** Strict for the rest of a queue whose head was the timed entry i. */
  predicate StrictBut(cfg: Config, s: State, i: Slot) {
    && s.pc.Poll? && WqTimed(i) !in s.q
    && Clocked(cfg, s.rig.items, s.now, s.trace, i == IGN3 || WqTimed(IGN3) in s.q)
  }

  lemma Fire2Strict(cfg: Config, s: State, t: nat)
    requires StrictBut(cfg, s, IGN2) && t >= s.now
    ensures Strict(cfg, FireItem(cfg, Touched(s, IGN2, t), IGN2, t))
  {
    hide Timely, BurnStart;
    HistoryPush(cfg, s.trace, Fired2(t));
  }

  lemma Fire3Strict(cfg: Config, s: State, t: nat)
    requires StrictBut(cfg, s, IGN3) && t >= s.now
    ensures Strict(cfg, FireItem(cfg, Touched(s, IGN3, t), IGN3, t))
  {
    hide Timely, BurnStart, PinsAfter;
    HistoryPush(cfg, s.trace, Fired3(t));
  }

  lemma PulseStrict(cfg: Config, s: State, t: nat)
    requires StrictBut(cfg, s, GITVC) && t >= s.now
    ensures Strict(cfg, FireItem(cfg, Touched(s, GITVC, t), GITVC, t))
  {
    hide Timely, BurnStart;
    HistoryPush(cfg, s.trace, FireObs(cfg, Touched(s, GITVC, t).rig, GITVC, t));
  }

  lemma SampleStrict(cfg: Config, s: State, i: Slot, t: nat, input: Input)
    requires StrictBut(cfg, s, i) && i < SENSORS && t >= s.now
    ensures Strict(cfg, Sample(cfg, Touched(s, i, t), i, t, input))
  {
    hide Sample, Timely, BurnStart;
    var s1 := Touched(s, i, t);
    SampleKeeps(cfg, s1, i, t, input);
    HistoryPush(cfg, s1.trace, Sampled(i, t, input.adc, false));
    HistoryPush(cfg, s1.trace, Sampled(i, t, input.adc, true));
  }

  lemma TimedStrict(cfg: Config, s: State, i: Slot, t: nat, input: Input)
    requires StrictBut(cfg, s, i) && t >= s.now
    ensures Strict(cfg, Timed(cfg, s, i, t, input))
  {
    hide Sample, FireItem, StrictBut, Strict, Touched;
    if i < SENSORS {
      SampleStrict(cfg, s, i, t, input);
    } else if i == IGN2 {
      Fire2Strict(cfg, s, t);
    } else if i == IGN3 {
      Fire3Strict(cfg, s, t);
    } else {
      PulseStrict(cfg, s, t);
    }
  }

  lemma PoppedStrict(cfg: Config, s: State)
    requires Strict(cfg, s) && Orderly(cfg.engine, s) && s.q != [] && s.pc.Poll?
    ensures Strict(cfg, Popped(s))
    ensures s.q[0].WqTimed? ==> StrictBut(cfg, Popped(s), s.q[0].i)
  {
    hide Timely, BurnStart, Unknown, SensorsOn, FewForced, Live;
    assert s.q[0] in s.q;
    assert s.q[0].WqTimed? ==> s.q[0] == WqTimed(s.q[0].i);
  }

  lemma VisitStrict(cfg: Config, s: State, input: Input)
    requires Strict(cfg, s) && Orderly(cfg.engine, s)
    requires s.q != [] && s.pc.Poll?
    ensures Strict(cfg, Visit(cfg, Popped(s), s.q[0], input))
  {
    hide Orderly, Strict, StrictBut, Proc, Timed, Ignition1, StartScan, Unknown;
    PoppedStrict(cfg, s);
    match s.q[0]
    case WqProcess(c) => ProcStrict(cfg, Popped(s), c);
    case WqIgn1 => IgniteStrict(cfg, Popped(s), s.now + input.dt);
    case WqTimed(i) => TimedStrict(cfg, Popped(s), i, s.now + input.dt, input);
    case WqNone => ScanStartStrict(cfg, Popped(s), s.now + input.dt);
  }

  lemma ScanTime(engine: Engine, s: State)
    requires Orderly(engine, s) && s.pc.Scan?
    ensures s.pc.t == s.now
  {
  }

  lemma StepStrict(cfg: Config, s: State, e: Event)
    requires Strict(cfg, s) && Orderly(cfg.engine, s)
    ensures Strict(cfg, Step(cfg, s, e))
  {
    hide Orderly, Strict, NetworkStep, ScanEntry, StartScan, Proc, Timed, Ignition1, Unknown;
    match e
    case Network(recv, idle) => NetworkStrict(cfg, s, recv, idle);
    case Worker(input) =>
      if s.pc.Scan? {
        ScanTime(cfg.engine, s);
        ScanStrict(cfg, s);
      } else if s.q == [] {
        ScanStartStrict(cfg, s, s.now + input.dt);
      } else {
        VisitStrict(cfg, s, input);
      }
  }

  lemma {:induction false} RunStrict(cfg: Config, s: State, es: seq<Event>)
    requires Initial(cfg, s) && Unknown(cfg.engine, Run(cfg, s, es).trace) <= 1
    ensures Strict(cfg, Run(cfg, s, es))
  {
    if es == [] {
      var i: Slot := IGN3;
      assert s.rig.items[i] == InitialItem(cfg, i);
    } else {
      hide Strict, Orderly, Step, Unknown;
      var s1, e := Run(cfg, s, es[..|es| - 1]), es[|es| - 1];
      StepTrace(cfg, s1, e);
      RunStrict(cfg, s, es[..|es| - 1]);
      RunOrderly(cfg, s, es[..|es| - 1]);
      StepStrict(cfg, s1, e);
    }
  }

  lemma {:induction false} TimelyAt(cfg: Config, trace: seq<Obs>, b: nat)
    requires Timely(cfg, trace) && b < |trace|
    ensures trace[b].Fired3? ==> After(BurnStart(trace[..b]), trace[b].t, cfg.hotflowUs)
  {
    if b < |trace| - 1 {
      TimelyAt(cfg, trace[..|trace| - 1], b);
      assert trace[..|trace| - 1][..b] == trace[..b];
    }
  }

  /** In every run with at most one unknown byte, however ignitions overlap, a burn lasts
      more than hotflow_us. */
  lemma BurnTiming(cfg: Config, s: State, es: seq<Event>, b: nat)
    requires Initial(cfg, s) && Unknown(cfg.engine, Run(cfg, s, es).trace) <= 1
    requires b < |Run(cfg, s, es).trace|
    ensures var trace := Run(cfg, s, es).trace;
      trace[b].Fired3? ==> After(BurnStart(trace[..b]), trace[b].t, cfg.hotflowUs)
  {
    RunStrict(cfg, s, es);
    TimelyAt(cfg, Run(cfg, s, es).trace, b);
  }

  // ---------------------------------------------------------------- a single ignition

  lemma {:induction false} TallyTwo(trace: seq<Obs>, a: nat, b: nat, p: Part)
    requires a < |trace| && b < |trace| && PartOf(trace[a]) == PartOf(trace[b]) == p
    ensures Tally(trace, p) >= if a == b then 1 else 2
  {
    var n := |trace| - 1;
    if a < n && b < n {
      TallyTwo(trace[..n], a, b, p);
    } else if a < n {
      TallyTwo(trace[..n], a, a, p);
    } else if b < n {
      TallyTwo(trace[..n], b, b, p);
    }
  }

  lemma {:induction false} BurnStartIsFired2(trace: seq<Obs>)
    requires BurnStart(trace).Some?
    ensures exists a :: 0 <= a < |trace| && trace[a] == Fired2(BurnStart(trace).value)
  {
    var n := |trace| - 1;
    if BurnStart(trace[..n]).Some? {
      BurnStartIsFired2(trace[..n]);
    } else {
      assert trace[n] == Fired2(BurnStart(trace).value);
    }
  }

  /** With a single ign_normal, ign3 comes more than hotflow_us after ign2. */
  lemma SingleBurn(cfg: Config, s: State, es: seq<Event>, a: nat, b: nat)
    requires Initial(cfg, s) && Unknown(cfg.engine, Run(cfg, s, es).trace) <= 1
    requires Tally(Run(cfg, s, es).trace, PReceived) <= 1
    requires a < |Run(cfg, s, es).trace| && b < |Run(cfg, s, es).trace|
    requires Run(cfg, s, es).trace[a].Fired2? && Run(cfg, s, es).trace[b].Fired3?
    ensures Run(cfg, s, es).trace[b].t - Run(cfg, s, es).trace[a].t > cfg.hotflowUs
  {
    hide Run, Initial, Unknown, Tally, BurnStart;
    var trace := Run(cfg, s, es).trace;
    IgnitionAccounting(cfg, s, es);
    BurnTiming(cfg, s, es, b);
    BurnStartIsFired2(trace[..b]);
    var k :| 0 <= k < |trace[..b]| && trace[..b][k] == Fired2(BurnStart(trace[..b]).value);
    TallyTwo(trace, a, k, PFired2);
  }
}
