/** Luna's GITVC pulse train: which pulses open, in what order, and how they are spaced. */
module PulseTrain {
  import opened Types
  import opened Controller
  import opened Scheduling
  import opened FiringSequence

  // ---------------------------------------------------------------- histories

  /** The timed openings in a history. */
  function Openings(trace: seq<Obs>): nat {
    if trace == [] then 0 else
    Openings(trace[..|trace| - 1]) + if trace[|trace| - 1].Opened? then 1 else 0
  }

  /** Ign3 has run. */
  predicate Ended(trace: seq<Obs>) {
    trace != [] && (trace[|trace| - 1].Fired3? || Ended(trace[..|trace| - 1]))
  }

  /** A command of the operator that drives the GITVC valve. */
  predicate Manual(o: Obs) { o == Commanded(SET_GITVC) || o == Commanded(UNSET_GITVC) }

  /** The schedule drives the GITVC valve: an opening, a closing, a burn end or a cut-off. */
  predicate Automatic(o: Obs) { o.Opened? || o.Closed? || o.Fired3? || (o.Sampled? && o.tripped) }

  /** The operator drove the GITVC valve since the schedule last did. */
  predicate Overridden(trace: seq<Obs>) {
    trace != [] && !Automatic(trace[|trace| - 1]) &&
    (Manual(trace[|trace| - 1]) || Overridden(trace[..|trace| - 1]))
  }

  /** The schedule has the valve open: the last of its openings, closings, burn ends and
      cut-offs is an opening. */
  predicate ValveOpen(trace: seq<Obs>) {
    if trace == [] then false else
    match trace[|trace| - 1]
    case Opened(_, _, _) => true
    case Closed(_) => false
    case Fired3(_) => false
    case Sampled(_, _, _, tripped) => !tripped && ValveOpen(trace[..|trace| - 1])
    case _ => ValveOpen(trace[..|trace| - 1])
  }

  /** The k-th opening is pulse k of the configured list, and none follows ign3. */
  predicate Numbered(cfg: Config, trace: seq<Obs>) {
    if trace == [] then true else
    var before, o := trace[..|trace| - 1], trace[|trace| - 1];
    && Numbered(cfg, before)
    && (o.Opened? ==> !Ended(before) && o.k == Openings(before) < |cfg.gitvcTimes| && o.lasts == cfg.gitvcTimes[o.k])
  }

  lemma PulsePush(cfg: Config, trace: seq<Obs>, o: Obs)
    ensures Openings(trace + [o]) == Openings(trace) + if o.Opened? then 1 else 0
    ensures Ended(trace + [o]) <==> o.Fired3? || Ended(trace)
    ensures Overridden(trace + [o]) <==>
            !Automatic(o) && (Manual(o) || Overridden(trace))
    ensures ValveOpen(trace + [o]) <==>
            o.Opened? || (ValveOpen(trace) && !o.Closed? && !o.Fired3? && !(o.Sampled? && o.tripped))
    ensures Numbered(cfg, trace + [o]) <==>
            && Numbered(cfg, trace)
            && (o.Opened? ==> !Ended(trace) && o.k == Openings(trace) < |cfg.gitvcTimes| && o.lasts == cfg.gitvcTimes[o.k])
  {
    assert (trace + [o])[..|trace|] == trace;
  }

  // ---------------------------------------------------------------- the train, in any run

  /** gitvc_count numbers the openings until ign3 sets it out of reach; unless the operator
      drove it since, the pin is open exactly when the schedule has opened it. */
  predicate Train(cfg: Config, r: Rig, trace: seq<Obs>) {
    && Numbered(cfg, trace) && Openings(trace) <= |cfg.gitvcTimes|
    && r.gitvcCount == (if Ended(trace) then INT_MAX else Openings(trace))
    && (!Overridden(trace) ==> (r.pins.Get(GITVC_VALVE).high == LOW <==> ValveOpen(trace)))
  }

  predicate Pulsed(cfg: Config) { cfg.engine.Luna? && |cfg.gitvcTimes| <= 2_147_483_647 }

  lemma CommandPin(p: Pins, c: byte)
    requires c != SET_GITVC && c != UNSET_GITVC
    ensures PinsAfter(Luna, p, c).Get(GITVC_VALVE) == p.Get(GITVC_VALVE)
  {
  }

  lemma ProcTrain(cfg: Config, s: State, c: byte)
    requires Pulsed(cfg) && Train(cfg, s.rig, s.trace)
    ensures var s' := Proc(cfg, s, c); Train(cfg, s'.rig, s'.trace)
  {
    hide PinsAfter, FollowUp, Numbered, Openings, Ended, Overridden, ValveOpen;
    PulsePush(cfg, s.trace, Commanded(c));
    if c != SET_GITVC && c != UNSET_GITVC {
      CommandPin(s.rig.pins, c);
    }
  }

  lemma FireTrain(cfg: Config, s: State, i: Slot, t: nat)
    requires Pulsed(cfg) && Train(cfg, s.rig, s.trace) && i >= SENSORS
    ensures var s' := FireItem(cfg, s, i, t); Train(cfg, s'.rig, s'.trace)
  {
    hide Numbered, Openings, Ended, Overridden, ValveOpen;
    PulsePush(cfg, s.trace, FireObs(cfg, s.rig, i, t));
  }

  /** What a sample does to the valves and the history. */
  lemma SampleRig(cfg: Config, s: State, i: Slot, t: nat, input: Input)
    requires i < SENSORS
    ensures var s' := Sample(cfg, s, i, t, input);
      var r := if Trips(cfg, s.rig, AverageAfter(cfg, s.tele.pressureAvg, i, input.adc), i, t) then CutOff(s.rig) else s.rig;
      && s'.rig == r.(items := s'.rig.items)
      && s'.trace == s.trace + [Sampled(i, t, input.adc, Trips(cfg, s.rig, AverageAfter(cfg, s.tele.pressureAvg, i, input.adc), i, t))]
  {
    hide ChannelAfter, SendFrame, Trips, AverageAfter;
  }

  lemma SampleTrain(cfg: Config, s: State, i: Slot, t: nat, input: Input)
    requires Pulsed(cfg) && Train(cfg, s.rig, s.trace) && i < SENSORS
    ensures var s' := Sample(cfg, s, i, t, input); Train(cfg, s'.rig, s'.trace)
  {
    hide Sample, Trips, AverageAfter, Numbered, Openings, Ended, Overridden, ValveOpen;
    SampleRig(cfg, s, i, t, input);
    PulsePush(cfg, s.trace, Sampled(i, t, input.adc, true));
    PulsePush(cfg, s.trace, Sampled(i, t, input.adc, false));
  }

  lemma TimedTrain(cfg: Config, s: State, i: Slot, t: nat, input: Input)
    requires Pulsed(cfg) && Train(cfg, s.rig, s.trace)
    ensures var s' := Timed(cfg, s, i, t, input); Train(cfg, s'.rig, s'.trace)
  {
    hide Sample, FireItem;
    var s1 := Touched(s, i, t);
    assert Train(cfg, s1.rig, s1.trace);
    hide Train;
    if i < SENSORS {
      SampleTrain(cfg, s1, i, t, input);
    } else {
      FireTrain(cfg, s1, i, t);
    }
  }

  lemma VisitTrain(cfg: Config, s: State, x: Work, input: Input)
    requires Pulsed(cfg) && Train(cfg, s.rig, s.trace)
    ensures var s' := Visit(cfg, s, x, input); Train(cfg, s'.rig, s'.trace)
  {
    hide Numbered, Openings, Ended, Overridden, ValveOpen, Proc, Timed;
    var t := s.now + input.dt;
    match x
    case WqProcess(c) => ProcTrain(cfg, s, c);
    case WqNone => PulsePush(cfg, s.trace, Polled(t));
    case WqIgn1 => PulsePush(cfg, s.trace, Ignited(t));
    case WqTimed(i) => TimedTrain(cfg, s, i, t, input);
  }

  lemma StepTrain(cfg: Config, s: State, e: Event)
    requires Pulsed(cfg) && Train(cfg, s.rig, s.trace)
    ensures var s' := Step(cfg, s, e); Train(cfg, s'.rig, s'.trace)
  {
    hide Numbered, Openings, Ended, Overridden, ValveOpen, Visit, NetStep;
    match e
    case Network(recv, idle) =>
      if recv.Byte? {
        PulsePush(cfg, s.trace, Arrived(recv.c));
      }
    case Worker(input) =>
      if s.pc.Poll? && s.q == [] {
        VisitTrain(cfg, s, WqNone, input);
      } else if s.pc.Poll? {
        VisitTrain(cfg, Popped(s), s.q[0], input);
      }
  }

  lemma {:induction false} RunTrain(cfg: Config, s: State, es: seq<Event>)
    requires Pulsed(cfg) && Initial(cfg, s)
    ensures var s' := Run(cfg, s, es); Train(cfg, s'.rig, s'.trace)
  {
    if es != [] {
      hide Train, Step, Initial;
      RunTrain(cfg, s, es[..|es| - 1]);
      StepTrain(cfg, Run(cfg, s, es[..|es| - 1]), es[|es| - 1]);
    }
  }

  lemma {:induction false} NumberedAt(cfg: Config, trace: seq<Obs>, b: nat)
    requires Numbered(cfg, trace) && b < |trace| && trace[b].Opened?
    ensures var k := trace[b].k;
      k == Openings(trace[..b]) < |cfg.gitvcTimes| && trace[b].lasts == cfg.gitvcTimes[k] && !Ended(trace[..b])
  {
    if b < |trace| - 1 {
      NumberedAt(cfg, trace[..|trace| - 1], b);
      assert trace[..|trace| - 1][..b] == trace[..b];
    }
  }

  /** In any run of Luna the timed openings are pulses 0, 1, 2, ... of the configured list,
      each with its own duration, never more than the list has, and none after an ign3. */
  lemma PulsesNumbered(cfg: Config, s: State, es: seq<Event>, b: nat)
    requires Pulsed(cfg) && Initial(cfg, s)
    requires b < |Run(cfg, s, es).trace| && Run(cfg, s, es).trace[b].Opened?
    ensures var trace := Run(cfg, s, es).trace;
      && trace[b].k == Openings(trace[..b]) < |cfg.gitvcTimes|
      && trace[b].lasts == cfg.gitvcTimes[trace[b].k]
      && !Ended(trace[..b])
      && Openings(trace) <= |cfg.gitvcTimes|
  {
    hide Run, Initial;
    RunTrain(cfg, s, es);
    NumberedAt(cfg, Run(cfg, s, es).trace, b);
  }

  /** Unless the operator drove the valve since the schedule last did, its pin is open exactly
      from a timed opening to the next closing, burn end or cut-off. */
  lemma ValveFollowsSchedule(cfg: Config, s: State, es: seq<Event>)
    requires Pulsed(cfg) && Initial(cfg, s) && !Overridden(Run(cfg, s, es).trace)
    ensures Run(cfg, s, es).rig.pins.Get(GITVC_VALVE).high == LOW <==> ValveOpen(Run(cfg, s, es).trace)
  {
    hide Run, Initial;
    RunTrain(cfg, s, es);
  }

  // ---------------------------------------------------------------- timing, with one ignition

  /** The schedule's last change of the pulse train: none yet, the burn began, the valve
      was opened for some time, or closed. */
  datatype Edge = NoEdge | Begun(t: nat) | Up(t: nat, lasts: nat) | Down(t: nat)

  function LastEdge(trace: seq<Obs>): Edge {
    if trace == [] then NoEdge else
    match trace[|trace| - 1]
    case Fired2(t) => Begun(t)
    case Opened(_, t, lasts) => Up(t, lasts)
    case Closed(t) => Down(t)
    case _ => LastEdge(trace[..|trace| - 1])
  }

  /** The configured time from this change to the next one. */
  function Wait(cfg: Config, e: Edge): nat {
    match e
    case NoEdge => cfg.gitvcWaitTime
    case Begun(_) => cfg.gitvcWaitTime
    case Up(_, lasts) => lasts
    case Down(_) => cfg.timeBetweenGitvc
  }

  predicate Elapsed(cfg: Config, e: Edge, t: nat) { !e.NoEdge? && t - e.t > Wait(cfg, e) }

  /** Change o after the last change e keeps the pattern: the first opening after the burn
      began, later ones after a closing, closings after an opening, each after its wait.
      After ign3 a closing may come early. */
  predicate Fitting(cfg: Config, e: Edge, o: Obs, ended: bool) {
    && (o.Opened? ==> (if o.k == 0 then e.Begun? else e.Down?) && Elapsed(cfg, e, o.t))
    && (o.Closed? ==> e.Up? && (!ended ==> Elapsed(cfg, e, o.t)))
  }

  predicate Alternating(cfg: Config, trace: seq<Obs>) {
    if trace == [] then true else
    var before, o := trace[..|trace| - 1], trace[|trace| - 1];
    Alternating(cfg, before) && Fitting(cfg, LastEdge(before), o, Ended(before))
  }

  lemma EdgePush(cfg: Config, trace: seq<Obs>, o: Obs)
    ensures LastEdge(trace + [o]) ==
            if o.Fired2? then Begun(o.t) else if o.Opened? then Up(o.t, o.lasts)
            else if o.Closed? then Down(o.t) else LastEdge(trace)
    ensures Alternating(cfg, trace + [o]) <==>
            Alternating(cfg, trace) && Fitting(cfg, LastEdge(trace), o, Ended(trace))
  {
    assert (trace + [o])[..|trace|] == trace;
  }

  /** The gitvc item is set up for the next change after the last one; waits tells whether
      it is queued. */
  predicate Set(cfg: Config, it: TimedItem, gitvcOn: bool, now: nat, trace: seq<Obs>, waits: bool) {
    var e := LastEdge(trace);
    && Alternating(cfg, trace)
    && (gitvcOn <==> e.Up?)
    && (e.NoEdge? <==> Tally(trace, PFired2) == 0)
    && (Openings(trace) > 0 <==> e.Up? || e.Down?)
    && (e.NoEdge? ==> !it.enabled && !waits && it.timeDelay == cfg.gitvcWaitTime)
    && (!e.NoEdge? ==> e.t <= now)
    && (!Ended(trace) && it.enabled ==> !e.NoEdge? && it.timeDelay == Wait(cfg, e) && it.scheduled >= e.t)
    && (!Ended(trace) && waits ==> it.enabled && now - it.scheduled > it.timeDelay)
  }

  predicate SetIn(cfg: Config, s: State) {
    Set(cfg, s.rig.items[GITVC], s.rig.gitvcOn, s.now, s.trace, WqTimed(GITVC) in s.q)
  }

  /** Entries that change neither the pulse train nor the tally of ign2. */
  predicate Neutral(o: Obs) {
    !o.Opened? && !o.Closed? && !o.Fired2? && !o.Fired3?
  }

  lemma NeutralSet(cfg: Config, it: TimedItem, gitvcOn: bool, now: nat, now': nat, trace: seq<Obs>, waits: bool, o: Obs)
    requires Set(cfg, it, gitvcOn, now, trace, waits) && now' >= now && Neutral(o)
    ensures Set(cfg, it, gitvcOn, now', trace + [o], waits)
  {
    hide Alternating, LastEdge, Openings, Ended, Tally;
    EdgePush(cfg, trace, o);
    PulsePush(cfg, trace, o);
    TallyPush(trace, o);
  }

  lemma Fire2Set(cfg: Config, s: State, t: nat)
    requires cfg.engine.Luna? && SetIn(cfg, s) && t >= s.now && Tally(s.trace, PFired2) == 0
    ensures SetIn(cfg, FireItem(cfg, Touched(s, IGN2, t), IGN2, t))
  {
    hide Alternating, LastEdge, Openings, Ended, Tally;
    EdgePush(cfg, s.trace, Fired2(t));
    PulsePush(cfg, s.trace, Fired2(t));
    TallyPush(s.trace, Fired2(t));
  }

  lemma Fire3Set(cfg: Config, s: State, t: nat)
    requires cfg.engine.Luna? && SetIn(cfg, s) && t >= s.now
    ensures SetIn(cfg, FireItem(cfg, Touched(s, IGN3, t), IGN3, t))
  {
    hide Alternating, LastEdge, Openings, Ended, Tally;
    EdgePush(cfg, s.trace, Fired3(t));
    PulsePush(cfg, s.trace, Fired3(t));
    TallyPush(s.trace, Fired3(t));
  }

  /** The gitvc entry i has just been taken off the queue. */
  predicate SetBut(cfg: Config, s: State) {
    && WqTimed(GITVC) !in s.q
    && Set(cfg, s.rig.items[GITVC], s.rig.gitvcOn, s.now, s.trace, true)
  }

  lemma PulseSet(cfg: Config, s: State, t: nat)
    requires Pulsed(cfg) && SetBut(cfg, s) && Train(cfg, s.rig, s.trace) && t >= s.now
    ensures SetIn(cfg, FireItem(cfg, Touched(s, GITVC, t), GITVC, t))
  {
    hide Alternating, LastEdge, Openings, Ended, Tally, Numbered, Overridden, ValveOpen;
    var o := FireObs(cfg, Touched(s, GITVC, t).rig, GITVC, t);
    EdgePush(cfg, s.trace, o);
    PulsePush(cfg, s.trace, o);
    TallyPush(s.trace, o);
  }

  lemma SampleSet(cfg: Config, s: State, i: Slot, t: nat, input: Input)
    requires SetIn(cfg, s) && i < SENSORS && t >= s.now
    ensures SetIn(cfg, Sample(cfg, Touched(s, i, t), i, t, input))
  {
    hide Sample, Set, Trips, AverageAfter;
    var s1 := Touched(s, i, t);
    SampleRig(cfg, s1, i, t, input);
    SampleKeeps(cfg, s1, i, t, input);
    var s' := Sample(cfg, s1, i, t, input);
    NeutralSet(cfg, s.rig.items[GITVC], s.rig.gitvcOn, s.now, t, s.trace, WqTimed(GITVC) in s.q, s'.trace[|s.trace|]);
  }

  /** A step that notes o and leaves the pulse train alone. */
  lemma BystanderSet(cfg: Config, s: State, s': State, o: Obs)
    requires SetIn(cfg, s) && Neutral(o) && s'.trace == s.trace + [o] && s'.now >= s.now
    requires s'.rig.items[GITVC] == s.rig.items[GITVC] && s'.rig.gitvcOn == s.rig.gitvcOn
    requires WqTimed(GITVC) in s'.q <==> WqTimed(GITVC) in s.q
    ensures SetIn(cfg, s')
  {
    hide Set;
    NeutralSet(cfg, s.rig.items[GITVC], s.rig.gitvcOn, s.now, s'.now, s.trace, WqTimed(GITVC) in s.q, o);
  }

  lemma NetworkSet(cfg: Config, s: State, recv: Recv, idle: nat)
    requires SetIn(cfg, s)
    ensures SetIn(cfg, NetworkStep(cfg, s, recv, idle))
  {
    hide Set, NetStep;
    if Reads(s.net) && recv.Byte? {
      BystanderSet(cfg, s, NetworkStep(cfg, s, recv, idle), Arrived(recv.c));
    }
  }

  lemma ProcSet(cfg: Config, s: State, c: byte)
    requires SetIn(cfg, s)
    ensures SetIn(cfg, Proc(cfg, s, c))
  {
    hide SetIn, PinsAfter, Known;
    BystanderSet(cfg, s, Proc(cfg, s, c), Commanded(c));
  }

  lemma IgniteSet(cfg: Config, s: State, t: nat)
    requires SetIn(cfg, s) && t >= s.now
    ensures SetIn(cfg, Ignition1(cfg, s, t))
  {
    hide SetIn;
    BystanderSet(cfg, s, Ignition1(cfg, s, t), Ignited(t));
  }

  lemma ScanStartSet(cfg: Config, s: State, t: nat)
    requires SetIn(cfg, s) && t >= s.now
    ensures SetIn(cfg, StartScan(s, t))
  {
    hide SetIn;
    BystanderSet(cfg, s, StartScan(s, t), Polled(t));
  }

  lemma ScanSet(cfg: Config, s: State)
    requires SetIn(cfg, s) && s.pc.Scan? && s.pc.t == s.now
    ensures SetIn(cfg, ScanEntry(s, s.pc.i, s.pc.t))
  {
    hide Alternating, LastEdge, Openings, Ended, Tally;
  }

  lemma PoppedSet(cfg: Config, s: State)
    requires SetIn(cfg, s) && Orderly(cfg.engine, s) && s.q != [] && s.pc.Poll?
    ensures SetIn(cfg, Popped(s)) || s.q[0] == WqTimed(GITVC)
    ensures s.q[0] == WqTimed(GITVC) ==> SetBut(cfg, Popped(s))
  {
    hide Set, AllLive, FewForced, SensorsOn, Unknown;
    assert s.q[0] in s.q;
  }

  lemma TimedSet(cfg: Config, s: State, i: Slot, t: nat, input: Input)
    requires Pulsed(cfg) && Train(cfg, s.rig, s.trace) && t >= s.now
    requires if i == GITVC then SetBut(cfg, s) else SetIn(cfg, s)
    requires i == IGN2 ==> Tally(s.trace, PFired2) == 0
    ensures SetIn(cfg, Timed(cfg, s, i, t, input))
  {
    hide SetIn, SetBut, Train, Sample, FireItem, Touched, Tally;
    if i < SENSORS {
      SampleSet(cfg, s, i, t, input);
    } else if i == IGN2 {
      Fire2Set(cfg, s, t);
    } else if i == IGN3 {
      Fire3Set(cfg, s, t);
    } else {
      PulseSet(cfg, s, t);
    }
  }

  /** With one ign_normal, the ign2 at the head of the queue is the first. */
  lemma FirstFire2(engine: Engine, s: State)
    requires Orderly(engine, s) && Accounted(s) && Tally(s.trace, PReceived) <= 1
    requires s.q != [] && s.q[0] == WqTimed(IGN2)
    ensures Tally(s.trace, PFired2) == 0
  {
    hide Tally, Count;
    HeadLive(engine, s);
  }

  lemma VisitSet(cfg: Config, s: State, input: Input)
    requires Pulsed(cfg) && Train(cfg, s.rig, s.trace) && SetIn(cfg, s) && Orderly(cfg.engine, s)
    requires Accounted(s) && Tally(s.trace, PReceived) <= 1
    requires s.q != [] && s.pc.Poll?
    ensures SetIn(cfg, Visit(cfg, Popped(s), s.q[0], input))
  {
    hide SetIn, SetBut, Train, Orderly, Accounted, Tally, Proc, Timed, Ignition1, StartScan;
    PoppedSet(cfg, s);
    var t := s.now + input.dt;
    match s.q[0]
    case WqProcess(c) => ProcSet(cfg, Popped(s), c);
    case WqNone => ScanStartSet(cfg, Popped(s), t);
    case WqIgn1 => IgniteSet(cfg, Popped(s), t);
    case WqTimed(i) =>
      if i == IGN2 {
        FirstFire2(cfg.engine, s);
      }
      TimedSet(cfg, Popped(s), i, t, input);
  }

  lemma StepSet(cfg: Config, s: State, e: Event)
    requires Pulsed(cfg) && Train(cfg, s.rig, s.trace) && SetIn(cfg, s) && Orderly(cfg.engine, s)
    requires Accounted(s) && Tally(s.trace, PReceived) <= 1
    ensures SetIn(cfg, Step(cfg, s, e))
  {
    hide SetIn, Train, Orderly, Accounted, Tally, Proc, Timed, Ignition1, StartScan, ScanEntry, NetworkStep;
    match e
    case Network(recv, idle) => NetworkSet(cfg, s, recv, idle);
    case Worker(input) =>
      if s.pc.Scan? {
        ScanTime(cfg.engine, s);
        ScanSet(cfg, s);
      } else if s.q == [] {
        ScanStartSet(cfg, s, s.now + input.dt);
      } else {
        VisitSet(cfg, s, input);
      }
  }

  lemma TallyGrows(cfg: Config, s: State, e: Event, p: Part)
    ensures Tally(s.trace, p) <= Tally(Step(cfg, s, e).trace, p)
  {
    hide Step;
    StepTrace(cfg, s, e);
  }

  lemma {:induction false} RunSet(cfg: Config, s: State, es: seq<Event>)
    requires Pulsed(cfg) && Initial(cfg, s) && Unknown(cfg.engine, Run(cfg, s, es).trace) <= 1
    requires Tally(Run(cfg, s, es).trace, PReceived) <= 1
    ensures SetIn(cfg, Run(cfg, s, es))
  {
    if es == [] {
      var k: Slot := GITVC;
      assert s.rig.items[k] == InitialItem(cfg, k);
    } else {
      hide SetIn, Train, Orderly, Accounted, Step, Unknown, Tally, Initial;
      var s1, e := Run(cfg, s, es[..|es| - 1]), es[|es| - 1];
      StepTrace(cfg, s1, e);
      TallyGrows(cfg, s1, e, PReceived);
      RunSet(cfg, s, es[..|es| - 1]);
      RunTrain(cfg, s, es[..|es| - 1]);
      RunOrderly(cfg, s, es[..|es| - 1]);
      RunAccounted(cfg, s, es[..|es| - 1]);
      StepSet(cfg, s1, e);
    }
  }

  lemma {:induction false} AlternatingAt(cfg: Config, trace: seq<Obs>, b: nat)
    requires Alternating(cfg, trace) && b < |trace|
    ensures Fitting(cfg, LastEdge(trace[..b]), trace[b], Ended(trace[..b]))
  {
    if b < |trace| - 1 {
      AlternatingAt(cfg, trace[..|trace| - 1], b);
      assert trace[..|trace| - 1][..b] == trace[..b];
    }
  }

  /** With one ignition and at most one unknown byte: openings and closings alternate, the
      first opening comes more than gitvc_wait_time after ign2, the timed closing of pulse k
      more than gitvc_times[k] after its opening unless ign3 came first, and the next opening
      more than time_between_gitvc after a closing. */
  lemma PulseTiming(cfg: Config, s: State, es: seq<Event>, b: nat)
    requires Pulsed(cfg) && Initial(cfg, s) && Unknown(cfg.engine, Run(cfg, s, es).trace) <= 1
    requires Tally(Run(cfg, s, es).trace, PReceived) <= 1
    requires b < |Run(cfg, s, es).trace|
    ensures var trace := Run(cfg, s, es).trace;
      var e := LastEdge(trace[..b]);
      && (trace[b].Opened? && trace[b].k == 0 ==> e.Begun? && trace[b].t - e.t > cfg.gitvcWaitTime)
      && (trace[b].Opened? && trace[b].k > 0 ==> e.Down? && trace[b].t - e.t > cfg.timeBetweenGitvc)
      && (trace[b].Closed? ==> e.Up? && (Ended(trace[..b]) || trace[b].t - e.t > e.lasts))
  {
    hide Run, Initial, Unknown, Tally;
    RunSet(cfg, s, es);
    AlternatingAt(cfg, Run(cfg, s, es).trace, b);
  }

  // ---------------------------------------------------------------- how long the valve stays open

  /** Only a burn's begin starts the pulse train. */
  lemma {:induction false} EdgeNeedsFire2(cfg: Config, trace: seq<Obs>)
    requires Alternating(cfg, trace) && !LastEdge(trace).NoEdge?
    ensures Tally(trace, PFired2) >= 1
  {
    var n := |trace| - 1;
    if !trace[n].Fired2? {
      EdgeNeedsFire2(cfg, trace[..n]);
    }
  }

  /** Neither ign3, the cut-off nor the operator took the valve over after entry a. */
  predicate Undisturbed(trace: seq<Obs>, a: nat) {
    forall b | a < b < |trace| :: !trace[b].Fired3? && !(trace[b].Sampled? && trace[b].tripped) && !Manual(trace[b])
  }

  /** A timed closing after entry a, more than lasts after t. */
  predicate ClosedLater(trace: seq<Obs>, a: nat, t: nat, lasts: nat) {
    exists b :: a < b < |trace| && trace[b].Closed? && trace[b].t - t > lasts
  }

  /** Pulse a runs on, or its time is over. */
  predicate Lasting(trace: seq<Obs>, a: nat, t: nat, lasts: nat) {
    || ClosedLater(trace, a, t, lasts)
    || (LastEdge(trace) == Up(t, lasts) && ValveOpen(trace) && !Overridden(trace) && !Ended(trace))
  }

  lemma LastingPush(cfg: Config, trace: seq<Obs>, a: nat, t: nat, lasts: nat, o: Obs)
    requires Lasting(trace, a, t, lasts) && a < |trace|
    requires Fitting(cfg, LastEdge(trace), o, Ended(trace)) && Alternating(cfg, trace)
    requires !o.Fired3? && !(o.Sampled? && o.tripped) && !Manual(o)
    requires Tally(trace + [o], PFired2) <= 1
    ensures Lasting(trace + [o], a, t, lasts)
  {
    hide LastEdge, ValveOpen, Overridden, Ended, Alternating, Tally;
    TallyPush(trace, o);
    PulsePush(cfg, trace, o);
    EdgePush(cfg, trace, o);
    if ClosedLater(trace, a, t, lasts) {
      var b :| a < b < |trace| && trace[b].Closed? && trace[b].t - t > lasts;
      assert (trace + [o])[b] == trace[b];
    } else {
      EdgeNeedsFire2(cfg, trace);
      assert o.Closed? ==> (trace + [o])[|trace|] == o;
    }
  }

  lemma {:induction false} TraceLasting(cfg: Config, trace: seq<Obs>, a: nat)
    requires Alternating(cfg, trace) && Numbered(cfg, trace) && Tally(trace, PFired2) <= 1
    requires a < |trace| && trace[a].Opened? && Undisturbed(trace, a)
    ensures Lasting(trace, a, trace[a].t, trace[a].lasts)
  {
    var n := |trace| - 1;
    if a < n {
      TraceLasting(cfg, trace[..n], a);
      assert trace == trace[..n] + [trace[n]];
      hide LastEdge, ValveOpen, Overridden, Ended, Tally, Lasting, Numbered;
      LastingPush(cfg, trace[..n], a, trace[a].t, trace[a].lasts, trace[n]);
    }
  }

  /** With one ignition and at most one unknown byte, from the opening of pulse k on the pin
      is open until ign3, the cut-off or the operator takes the valve over, or a timed closing
      comes, and that is more than gitvc_times[k] later. */
  lemma PulseLasts(cfg: Config, s: State, es: seq<Event>, a: nat)
    requires Pulsed(cfg) && Initial(cfg, s) && Unknown(cfg.engine, Run(cfg, s, es).trace) <= 1
    requires Tally(Run(cfg, s, es).trace, PReceived) <= 1
    requires a < |Run(cfg, s, es).trace| && Run(cfg, s, es).trace[a].Opened?
    requires Undisturbed(Run(cfg, s, es).trace, a)
    ensures var s' := Run(cfg, s, es);
      var o := s'.trace[a];
      && o.k < |cfg.gitvcTimes| && o.lasts == cfg.gitvcTimes[o.k]
      && (|| s'.rig.pins.Get(GITVC_VALVE).high == LOW
          || exists b :: a < b < |s'.trace| && s'.trace[b].Closed? && s'.trace[b].t - o.t > o.lasts)
  {
    hide Run, Initial, Unknown, Tally, LastEdge, ValveOpen, Overridden, Ended, Alternating, Numbered, Undisturbed;
    RunTrain(cfg, s, es);
    RunSet(cfg, s, es);
    IgnitionAccounting(cfg, s, es);
    PulsesNumbered(cfg, s, es, a);
    TraceLasting(cfg, Run(cfg, s, es).trace, a);
  }
}
