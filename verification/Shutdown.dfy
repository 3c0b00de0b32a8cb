/** Bounded shutdown: once ign3 is armed and past its delay, it runs, or ign2 re-arms it,
    within a bounded number of worker steps, whatever commands arrive. */
module BoundedShutdown {
  import opened Types
  import opened Controller
  import opened FiringSequence

  /** Ign3 is armed and its delay has passed. */
  predicate Overdue(s: State) {
    s.rig.items[IGN3].enabled && s.now - s.rig.items[IGN3].scheduled > s.rig.items[IGN3].timeDelay
  }

  /** What holds in every run: ign3 keeps its delay, and a scan runs at the current time. */
  predicate Settled(cfg: Config, s: State) {
    && s.rig.items[IGN3].timeDelay == cfg.hotflowUs
    && (s.pc.Scan? ==> s.pc.t == s.now)
  }

  /** A command counts twice, for itself and for what it puts back. */
  function Weight(q: seq<Work>): nat {
    if q == [] then 0 else Weight(q[..|q| - 1]) + if q[|q| - 1].WqProcess? then 2 else 1
  }

  lemma WeightPush(q: seq<Work>, x: Work)
    ensures Weight(q + [x]) == Weight(q) + if x.WqProcess? then 2 else 1
  {
    assert (q + [x])[..|q|] == q;
  }

  lemma {:induction false} WeightHead(q: seq<Work>)
    requires q != []
    ensures Weight(q) == Weight(q[1..]) + if q[0].WqProcess? then 2 else 1
  {
    if |q| == 1 {
      assert q[..0] == [] && q[1..] == [];
    } else {
      WeightHead(q[..|q| - 1]);
      assert q[..|q| - 1][1..] == q[1..][..|q[1..]| - 1];
    }
  }

  lemma {:induction false} WeightLength(q: seq<Work>)
    ensures |q| <= Weight(q)
  {
    if q != [] {
      WeightLength(q[..|q| - 1]);
    }
  }

  /** The place of the first ign3 entry, or the length of the queue. */
  function Place(q: seq<Work>): (p: nat)
    ensures p <= |q|
    ensures p < |q| <==> WqTimed(IGN3) in q
  {
    if q == [] then 0 else if q[0] == WqTimed(IGN3) then 0 else 1 + Place(q[1..])
  }

  lemma {:induction false} PlacePush(q: seq<Work>, x: Work)
    ensures WqTimed(IGN3) in q || x == WqTimed(IGN3) ==> Place(q + [x]) == Place(q)
  {
    if q != [] && q[0] != WqTimed(IGN3) {
      PlacePush(q[1..], x);
      assert (q + [x])[1..] == q[1..] + [x];
    }
  }

  /** An upper bound on the visits until ign3 runs: its place in the queue once it is there;
      during a scan that has yet to reach it, where the scan will put it; otherwise the
      work until the queue is empty, and the scan that follows. */
  function Countdown(s: State): (n: nat)
    ensures n >= 1
  {
    if WqTimed(IGN3) in s.q then Place(s.q) + 1
    else if s.pc.Scan? && s.pc.i <= IGN3 then |s.q| + (IGN3 - s.pc.i) + 1
    else Weight(s.q) + One(s.pc.Scan?) + TI_COUNT
  }

  /** How many visits, and how many received bytes, a history has. */
  function Visits(trace: seq<Obs>): nat {
    if trace == [] then 0 else Visits(trace[..|trace| - 1]) + One(!trace[|trace| - 1].Arrived?)
  }

  function Arrivals(trace: seq<Obs>): nat {
    if trace == [] then 0 else Arrivals(trace[..|trace| - 1]) + One(trace[|trace| - 1].Arrived?)
  }

  function Firings(trace: seq<Obs>): nat { Tally(trace, PFired2) + Tally(trace, PFired3) }

  lemma CountsPush(trace: seq<Obs>, o: Obs)
    ensures Visits(trace + [o]) == Visits(trace) + One(!o.Arrived?)
    ensures Arrivals(trace + [o]) == Arrivals(trace) + One(o.Arrived?)
    ensures Firings(trace + [o]) == Firings(trace) + One(o.Fired2? || o.Fired3?)
  {
    TallyPush(trace, o);
    assert (trace + [o])[..|trace|] == trace;
  }

  // ---------------------------------------------------------------- one step

  /** Step from s to s' without a firing: the countdown falls by one for a visit and rises
      by at most two for a byte received. */
  predicate Progress(cfg: Config, s: State, s': State) {
    && Settled(cfg, s') && Overdue(s')
    && Countdown(s') + Visits(s'.trace) + 2 * Arrivals(s.trace)
       <= Countdown(s) + Visits(s.trace) + 2 * Arrivals(s'.trace)
  }

  lemma NetworkProgress(cfg: Config, s: State, recv: Recv, idle: nat)
    requires Settled(cfg, s) && Overdue(s)
    ensures Progress(cfg, s, NetworkStep(cfg, s, recv, idle))
  {
    hide NetStep, Weight, Place, Visits, Arrivals, Tally;
    if Reads(s.net) && recv.Byte? {
      CountsPush(s.trace, Arrived(recv.c));
      WeightPush(s.q, WqProcess(recv.c));
      PlacePush(s.q, WqProcess(recv.c));
    }
  }

  lemma ScanProgress(cfg: Config, s: State)
    requires Settled(cfg, s) && Overdue(s) && s.pc.Scan?
    ensures Progress(cfg, s, ScanEntry(s, s.pc.i, s.pc.t))
  {
    hide Weight, Place, Visits, Arrivals, Tally;
    WeightPush(s.q, WqTimed(s.pc.i));
    PlacePush(s.q, WqTimed(s.pc.i));
    WeightLength(s.q);
  }

  lemma ScanStartProgress(cfg: Config, s: State, t: nat)
    requires Settled(cfg, s) && Overdue(s) && s.pc.Poll? && t >= s.now && s.q == []
    ensures Progress(cfg, s, StartScan(s, t))
  {
    hide Place, Visits, Arrivals, Tally;
    CountsPush(s.trace, Polled(t));
  }

  /** A visit that takes the head x of s, which is not ign3, and puts back at most one entry
      that is no command. */
  lemma TakenProgress(cfg: Config, s: State, s': State, back: seq<Work>, o: Obs)
    requires Settled(cfg, s) && Overdue(s) && s.pc.Poll? && s.q != [] && s.q[0] != WqTimed(IGN3)
    requires s'.q == s.q[1..] + back && s'.trace == s.trace + [o] && !o.Arrived?
    requires s'.pc.Poll? && Settled(cfg, s') && Overdue(s')
    requires back == [] || (s.q[0].WqProcess? && |back| == 1 && (back[0].WqIgn1? || back[0].WqNone?))
    ensures Progress(cfg, s, s')
  {
    hide Weight, Visits, Arrivals, Tally, Settled, Overdue;
    CountsPush(s.trace, o);
    WeightHead(s.q);
    if back == [] {
      assert s'.q == s.q[1..];
    } else {
      assert s'.q == s.q[1..] + [back[0]];
      WeightPush(s.q[1..], back[0]);
      PlacePush(s.q[1..], back[0]);
    }
  }

  lemma ForcedScanProgress(cfg: Config, s: State, t: nat)
    requires Settled(cfg, s) && Overdue(s) && s.pc.Poll? && t >= s.now && s.q != [] && s.q[0].WqNone?
    ensures Progress(cfg, s, StartScan(Popped(s), t))
  {
    hide Weight, Visits, Arrivals, Tally;
    CountsPush(s.trace, Polled(t));
    WeightHead(s.q);
    WeightLength(s.q[1..]);
  }

  lemma ProcProgress(cfg: Config, s: State, c: byte)
    requires Settled(cfg, s) && Overdue(s) && s.pc.Poll? && s.q != [] && s.q[0] == WqProcess(c)
    ensures Progress(cfg, s, Proc(cfg, Popped(s), c))
  {
    hide PinsAfter, Known, Progress;
    TakenProgress(cfg, s, Proc(cfg, Popped(s), c), FollowUp(cfg.engine, c), Commanded(c));
  }

  lemma IgniteProgress(cfg: Config, s: State, t: nat)
    requires Settled(cfg, s) && Overdue(s) && s.pc.Poll? && s.q != [] && s.q[0].WqIgn1? && t >= s.now
    ensures Progress(cfg, s, Ignition1(cfg, Popped(s), t))
  {
    hide Progress;
    TakenProgress(cfg, s, Ignition1(cfg, Popped(s), t), [], Ignited(t));
  }

  lemma SampleProgress(cfg: Config, s: State, i: Slot, t: nat, input: Input)
    requires Settled(cfg, s) && Overdue(s) && s.pc.Poll? && s.q != [] && s.q[0] == WqTimed(i)
    requires i < SENSORS && t >= s.now
    ensures Progress(cfg, s, Sample(cfg, Touched(Popped(s), i, t), i, t, input))
  {
    hide Progress, Sample;
    var s1 := Touched(Popped(s), i, t);
    SampleKeeps(cfg, s1, i, t, input);
    var s' := Sample(cfg, s1, i, t, input);
    TakenProgress(cfg, s, s', [], s'.trace[|s.trace|]);
  }

  lemma PulseProgress(cfg: Config, s: State, t: nat)
    requires Settled(cfg, s) && Overdue(s) && s.pc.Poll? && s.q != [] && s.q[0] == WqTimed(GITVC) && t >= s.now
    ensures Progress(cfg, s, FireItem(cfg, Touched(Popped(s), GITVC, t), GITVC, t))
  {
    hide Progress;
    var s1 := Touched(Popped(s), GITVC, t);
    TakenProgress(cfg, s, FireItem(cfg, s1, GITVC, t), [], FireObs(cfg, s1.rig, GITVC, t));
  }

  lemma TimedProgress(cfg: Config, s: State, i: Slot, t: nat, input: Input)
    requires Settled(cfg, s) && Overdue(s) && s.pc.Poll? && s.q != [] && s.q[0] == WqTimed(i) && t >= s.now
    requires i != IGN2 && i != IGN3
    ensures Progress(cfg, s, Timed(cfg, Popped(s), i, t, input))
  {
    hide Progress, Settled, Overdue, Sample, FireItem, Touched;
    if i < SENSORS {
      SampleProgress(cfg, s, i, t, input);
    } else {
      PulseProgress(cfg, s, t);
    }
  }

  lemma VisitProgress(cfg: Config, s: State, input: Input)
    requires Settled(cfg, s) && Overdue(s) && s.pc.Poll? && s.q != []
    requires s.q[0] != WqTimed(IGN2) && s.q[0] != WqTimed(IGN3)
    ensures Progress(cfg, s, Visit(cfg, Popped(s), s.q[0], input))
  {
    hide Progress, Settled, Overdue, Proc, Timed, Ignition1, StartScan;
    var t := s.now + input.dt;
    match s.q[0]
    case WqProcess(c) => ProcProgress(cfg, s, c);
    case WqNone => ForcedScanProgress(cfg, s, t);
    case WqIgn1 => IgniteProgress(cfg, s, t);
    case WqTimed(i) => TimedProgress(cfg, s, i, t, input);
  }

  /** The step handles ign2 or ign3. */
  predicate FiresNow(s: State, e: Event) {
    e.Worker? && s.pc.Poll? && s.q != [] && (s.q[0] == WqTimed(IGN2) || s.q[0] == WqTimed(IGN3))
  }

  lemma StepProgress(cfg: Config, s: State, e: Event)
    requires Settled(cfg, s) && Overdue(s) && !FiresNow(s, e)
    ensures Progress(cfg, s, Step(cfg, s, e))
  {
    hide Progress, Settled, Overdue, Proc, Timed, Ignition1, StartScan, ScanEntry, NetworkStep;
    match e
    case Network(recv, idle) => NetworkProgress(cfg, s, recv, idle);
    case Worker(input) =>
      if s.pc.Scan? {
        ScanProgress(cfg, s);
      } else if s.q == [] {
        ScanStartProgress(cfg, s, s.now + input.dt);
      } else {
        VisitProgress(cfg, s, input);
      }
  }

  lemma FiringCounts(cfg: Config, s: State, e: Event)
    requires FiresNow(s, e)
    ensures Firings(Step(cfg, s, e).trace) == Firings(s.trace) + 1
  {
    hide Fire, Tally;
    var i, t := s.q[0].i, s.now + e.input.dt;
    CountsPush(s.trace, FireObs(cfg, Touched(Popped(s), i, t).rig, i, t));
  }

  // ---------------------------------------------------------------- every run

  lemma FireSettled(cfg: Config, r: Rig, i: Slot, t: nat)
    requires i >= SENSORS
    ensures Fire(cfg, r, i, t).items[IGN3].timeDelay == r.items[IGN3].timeDelay
  {
  }

  lemma VisitSettled(cfg: Config, s: State, x: Work, input: Input)
    requires Settled(cfg, s) && s.pc.Poll?
    ensures Settled(cfg, Visit(cfg, s, x, input))
  {
    hide Sample, Fire, FireObs, PinsAfter, FollowUp;
    if x.WqTimed? {
      var s1 := Touched(s, x.i, s.now + input.dt);
      if x.i < SENSORS {
        SampleKeeps(cfg, s1, x.i, s.now + input.dt, input);
      } else {
        FireSettled(cfg, s1.rig, x.i, s.now + input.dt);
      }
    }
  }

  lemma StepSettled(cfg: Config, s: State, e: Event)
    requires Settled(cfg, s)
    ensures Settled(cfg, Step(cfg, s, e))
  {
    hide Visit, NetStep;
    if e.Worker? && s.pc.Poll? && s.q == [] {
      VisitSettled(cfg, s, WqNone, e.input);
    } else if e.Worker? && s.pc.Poll? {
      VisitSettled(cfg, Popped(s), s.q[0], e.input);
    }
  }

  lemma {:induction false} RunSettled(cfg: Config, s: State, es: seq<Event>)
    requires Initial(cfg, s)
    ensures Settled(cfg, Run(cfg, s, es))
  {
    if es == [] {
      var k: Slot := IGN3;
      assert s.rig.items[k] == InitialItem(cfg, k);
    } else {
      hide Settled, Step, Initial;
      RunSettled(cfg, s, es[..|es| - 1]);
      StepSettled(cfg, Run(cfg, s, es[..|es| - 1]), es[|es| - 1]);
    }
  }

  lemma FiringsGrow(cfg: Config, s: State, e: Event)
    ensures Firings(s.trace) <= Firings(Step(cfg, s, e).trace)
    ensures FiresNow(s, e) ==> Firings(s.trace) < Firings(Step(cfg, s, e).trace)
  {
    hide Step;
    StepTrace(cfg, s, e);
    var s' := Step(cfg, s, e);
    if s'.trace != s.trace {
      assert s'.trace == s.trace + [s'.trace[|s.trace|]];
      CountsPush(s.trace, s'.trace[|s.trace|]);
    }
    if FiresNow(s, e) {
      FiringCounts(cfg, s, e);
    }
  }

  /** As long as nothing fires, the countdown bounds the visits still to come. */
  lemma {:induction false} RunProgress(cfg: Config, s: State, es: seq<Event>)
    requires Settled(cfg, s) && Overdue(s)
    requires Firings(Run(cfg, s, es).trace) == Firings(s.trace)
    ensures Progress(cfg, s, Run(cfg, s, es))
    ensures Firings(s.trace) <= Firings(Run(cfg, s, es).trace)
  {
    if es != [] {
      hide Step, Settled, Overdue, Firings, Countdown, Visits, Arrivals;
      var s1, e := Run(cfg, s, es[..|es| - 1]), es[|es| - 1];
      FiringsGrow(cfg, s1, e);
      FiringsSince(cfg, s, es[..|es| - 1]);
      RunProgress(cfg, s, es[..|es| - 1]);
      StepProgress(cfg, s1, e);
    }
  }

  lemma {:induction false} FiringsSince(cfg: Config, s: State, es: seq<Event>)
    ensures Firings(s.trace) <= Firings(Run(cfg, s, es).trace)
  {
    if es != [] {
      hide Step, Firings;
      FiringsSince(cfg, s, es[..|es| - 1]);
      FiringsGrow(cfg, Run(cfg, s, es[..|es| - 1]), es[|es| - 1]);
    }
  }

  // ---------------------------------------------------------------- worker steps

  /** The worker's steps among the events. */
  function WorkerSteps(es: seq<Event>): nat {
    if es == [] then 0 else WorkerSteps(es[..|es| - 1]) + One(es[|es| - 1].Worker?)
  }

  /** The steps left of a running scan. */
  function Left(pc: WorkerPc): nat {
    match pc
    case Poll => 0
    case Scan(i, _) => TI_COUNT - i
  }

  /** A visit adds one entry to the history, and leaves the worker polling or starting a scan. */
  lemma VisitNotes(cfg: Config, s: State, x: Work, input: Input)
    requires s.pc.Poll?
    ensures var s' := Visit(cfg, s, x, input);
      && s'.trace != [] && s'.trace[..|s'.trace| - 1] == s.trace && !s'.trace[|s'.trace| - 1].Arrived?
  {
    hide Sample, PinsAfter, FollowUp, Fire;
    if x.WqTimed? && x.i < SENSORS {
      SampleKeeps(cfg, Touched(s, x.i, s.now + input.dt), x.i, s.now + input.dt, input);
    }
  }

  lemma StepVisits(cfg: Config, s: State, e: Event)
    ensures var s' := Step(cfg, s, e);
      One(e.Worker?) + Left(s'.pc) + 14 * Visits(s.trace) <= Left(s.pc) + 14 * Visits(s'.trace)
  {
    hide NetStep;
    match e
    case Network(recv, _) =>
      hide Visits;
      CountsPush(s.trace, Arrived(if recv.Byte? then recv.c else 0));
    case Worker(input) =>
      if s.pc.Poll? {
        hide Visit;
        if s.q == [] {
          VisitNotes(cfg, s, WqNone, input);
        } else {
          VisitNotes(cfg, Popped(s), s.q[0], input);
        }
      }
  }

  /** Every visit but the last is followed by at most the 13 steps of one scan. */
  lemma {:induction false} RunVisits(cfg: Config, s: State, es: seq<Event>)
    ensures WorkerSteps(es) + Left(Run(cfg, s, es).pc) + 14 * Visits(s.trace)
            <= Left(s.pc) + 14 * Visits(Run(cfg, s, es).trace)
  {
    if es != [] {
      hide Step, Visits, Left;
      RunVisits(cfg, s, es[..|es| - 1]);
      StepVisits(cfg, Run(cfg, s, es[..|es| - 1]), es[|es| - 1]);
    }
  }

  lemma CountdownBound(s: State)
    ensures Countdown(s) <= Weight(s.q) + TI_COUNT + 1
  {
    WeightLength(s.q);
  }

  lemma {:induction false} SomeFiring(trace: seq<Obs>, n: nat)
    requires n <= |trace| && Firings(trace[..n]) < Firings(trace)
    ensures exists k :: n <= k < |trace| && (trace[k].Fired2? || trace[k].Fired3?)
  {
    assert trace[..|trace|] == trace;
    var init := trace[..|trace| - 1];
    if !trace[|trace| - 1].Fired2? && !trace[|trace| - 1].Fired3? {
      assert init[..n] == trace[..n];
      assert trace == init + [trace[|trace| - 1]];
      CountsPush(init, trace[|trace| - 1]);
      SomeFiring(init, n);
    }
  }

  lemma {:induction false} TracePrefix(cfg: Config, s: State, es: seq<Event>)
    ensures s.trace <= Run(cfg, s, es).trace
  {
    if es != [] {
      hide Step;
      TracePrefix(cfg, s, es[..|es| - 1]);
      StepTrace(cfg, Run(cfg, s, es[..|es| - 1]), es[|es| - 1]);
    }
  }

  /** From any reachable state with ign3 armed and past its delay: if at most m more bytes
      arrive, then within W + 14 + 2m visits, W the weight of the queue, either ign3 runs
      or ign2 runs and arms it again. In worker steps: 14 (W + 14 + 2m) + 13. */
  lemma ShutdownIsBounded(cfg: Config, s0: State, es0: seq<Event>, es: seq<Event>, m: nat)
    requires Initial(cfg, s0) && Overdue(Run(cfg, s0, es0))
    requires var s := Run(cfg, s0, es0); var s' := Run(cfg, s, es);
      && Arrivals(s'.trace) <= Arrivals(s.trace) + m
      && (|| Visits(s'.trace) >= Visits(s.trace) + Weight(s.q) + 14 + 2 * m
          || WorkerSteps(es) >= 14 * (Weight(s.q) + 14 + 2 * m) + 13)
    ensures var s := Run(cfg, s0, es0); var s' := Run(cfg, s, es);
      exists k :: |s.trace| <= k < |s'.trace| && (s'.trace[k].Fired2? || s'.trace[k].Fired3?)
  {
    hide Run, Initial, Settled, Overdue, Firings, Visits, Arrivals, Countdown, Weight, WorkerSteps;
    var s := Run(cfg, s0, es0);
    var s' := Run(cfg, s, es);
    RunSettled(cfg, s0, es0);
    RunVisits(cfg, s, es);
    CountdownBound(s);
    FiringsSince(cfg, s, es);
    TracePrefix(cfg, s, es);
    if Firings(s'.trace) == Firings(s.trace) {
      RunProgress(cfg, s, es);
      assert false;
    }
    assert s'.trace[..|s.trace|] == s.trace;
    SomeFiring(s'.trace, |s.trace|);
  }
}
