/** The scheduler: with at most one unknown command byte each timed item has at most one
    pending entry, and no sensor is sampled again before its delay has passed. */
module Scheduling {
  import opened Types
  import opened Controller

  /** An entry that makes, or will make, the worker scan while others still wait. */
  predicate Forced(engine: Engine, x: Work) {
    x.WqNone? || (x.WqProcess? && !Known(engine, x.c))
  }

  /** A timed entry is one the running scan has passed; its item is still armed, and a
      sensor is still due. */
  predicate Live(items: Table, pc: WorkerPc, now: nat, x: Work) {
    x.WqTimed? ==>
      && (pc.Scan? ==> x.i < pc.i)
      && (x.i <= IGN3 ==> items[x.i].enabled)
      && (x.i < SENSORS ==> now - items[x.i].scheduled > items[x.i].timeDelay)
  }

  /** Sensors stay enabled and keep their delays. */
  predicate SensorsOn(items: Table) {
    forall i | 0 <= i < SENSORS :: items[i].enabled && items[i].timeDelay == SENSOR_DELAYS[i]
  }

  predicate AllLive(items: Table, pc: WorkerPc, now: nat, q: seq<Work>) {
    forall a | 0 <= a < |q| :: Live(items, pc, now, q[a])
  }

  /** No item waits twice, and none behind a forced scan. */
  predicate Unique(q: seq<Work>) {
    forall a, b | 0 <= a < b < |q| && q[b].WqTimed? :: q[a] != q[b] && !q[a].WqNone?
  }

  /** At most one forced scan, and none if no unknown byte came. */
  predicate FewForced(engine: Engine, q: seq<Work>, unknown: nat) {
    && (forall a, b | 0 <= a < b < |q| && Forced(engine, q[a]) :: !Forced(engine, q[b]))
    && (unknown == 0 ==> forall a | 0 <= a < |q| :: !Forced(engine, q[a]))
  }

  predicate Orderly(engine: Engine, s: State) {
    && AllLive(s.rig.items, s.pc, s.now, s.q)
    && Unique(s.q)
    && FewForced(engine, s.q, Unknown(engine, s.trace))
    && (s.pc.Scan? ==> s.pc.t == s.now && WqNone !in s.q)
    && SensorsOn(s.rig.items)
  }

  lemma InitialOrderly(cfg: Config, s: State)
    requires Initial(cfg, s)
    ensures Orderly(cfg.engine, s)
  {
    forall i | 0 <= i < SENSORS ensures s.rig.items[i].enabled && s.rig.items[i].timeDelay == SENSOR_DELAYS[i] {
      var k: Slot := i;
      assert s.rig.items[k] == InitialItem(cfg, k);
    }
  }

  /** A received byte joins the queue. */
  lemma ReceivedOrderly(engine: Engine, s: State, s': State, c: byte)
    requires Orderly(engine, s)
    requires s'.q == s.q + [WqProcess(c)] && s'.trace == s.trace + [Arrived(c)]
    requires s'.rig.items == s.rig.items && s'.pc == s.pc && s'.now == s.now
    requires Unknown(engine, s'.trace) <= 1
    ensures Orderly(engine, s')
  {
    hide SensorsOn, Known;
    assert s'.trace[..|s.trace|] == s.trace;
  }

  lemma NetworkOrderly(cfg: Config, s: State, recv: Recv, idle: nat)
    requires Orderly(cfg.engine, s)
    requires Unknown(cfg.engine, NetworkStep(cfg, s, recv, idle).trace) <= 1
    ensures Orderly(cfg.engine, NetworkStep(cfg, s, recv, idle))
  {
    hide NetStep, Unknown, SensorsOn, FewForced, Unique, Live;
    if Reads(s.net) && recv.Byte? {
      ReceivedOrderly(cfg.engine, s, NetworkStep(cfg, s, recv, idle), recv.c);
    }
  }

  lemma ScanOrderly(engine: Engine, s: State)
    requires Orderly(engine, s) && s.pc.Scan?
    ensures Orderly(engine, ScanEntry(s, s.pc.i, s.pc.t))
  {
    hide SensorsOn, Unknown, Known;
  }

  lemma PoppedOrderly(engine: Engine, s: State)
    requires Orderly(engine, s) && s.q != []
    ensures Orderly(engine, Popped(s)) && HeadOf(engine, Popped(s), s.q[0])
  {
    hide SensorsOn, Known;
  }

  lemma NoneOrderly(cfg: Config, s: State, input: Input)
    requires Orderly(cfg.engine, s) && s.pc.Poll? && WqNone !in s.q
    requires forall x | x in s.q :: !x.WqTimed?
    ensures Orderly(cfg.engine, StartScan(s, s.now + input.dt))
  {
    hide SensorsOn, Known, Unique;
  }

  lemma ProcOrderly(cfg: Config, s: State, c: byte)
    requires Orderly(cfg.engine, s) && s.pc.Poll?
    requires !Known(cfg.engine, c) ==>
               Unknown(cfg.engine, s.trace) > 0 && forall x | x in s.q :: !Forced(cfg.engine, x)
    ensures Orderly(cfg.engine, Proc(cfg, s, c))
  {
    hide SensorsOn, PinsAfter;
  }

  /** A visit that leaves the queue and the other items alone keeps the order. */
  lemma HandledOrderly(engine: Engine, s: State, s': State, i: Slot)
    requires Orderly(engine, s) && s.pc.Poll? && WqTimed(i) !in s.q
    requires s'.q == s.q && s'.pc == s.pc && s'.now >= s.now
    requires Unknown(engine, s'.trace) == Unknown(engine, s.trace)
    requires forall j: Slot | j <= IGN3 && j != i :: s.rig.items[j].enabled ==> s'.rig.items[j].enabled
    requires forall j: Slot | j < SENSORS && j != i :: s'.rig.items[j] == s.rig.items[j]
    requires i < SENSORS ==> s'.rig.items[i].enabled == s.rig.items[i].enabled && s'.rig.items[i].timeDelay == s.rig.items[i].timeDelay
    ensures Orderly(engine, s')
  {
  }

  /** What handling a sensor does to the scheduler's data. */
  lemma SampleItems(cfg: Config, s: State, i: Slot, t: nat, input: Input)
    requires i < SENSORS
    ensures var s' := Timed(cfg, s, i, t, input);
      && s'.q == s.q && s'.pc == s.pc && s'.now == t
      && (forall j: Slot | j != i :: s'.rig.items[j] == s.rig.items[j])
      && s'.rig.items[i] == s.rig.items[i].(scheduled := t,
           lastSend := s'.rig.items[i].lastSend, nbytesLastSend := s'.rig.items[i].nbytesLastSend)
      && |s'.trace| == |s.trace| + 1 && s'.trace[..|s.trace|] == s.trace && s'.trace[|s.trace|].Sampled?
  {
    hide ChannelAfter, SendFrame, Trips, AverageAfter;
  }

  lemma FireItems(cfg: Config, r: Rig, i: Slot, t: nat)
    requires i >= SENSORS
    ensures forall j: Slot | j < SENSORS :: Fire(cfg, r, i, t).items[j] == r.items[j]
    ensures forall j: Slot | j <= IGN3 && j != i && r.items[j].enabled :: Fire(cfg, r, i, t).items[j].enabled
  {
  }

  lemma TimedOrderly(cfg: Config, s: State, i: Slot, t: nat, input: Input)
    requires Orderly(cfg.engine, s) && s.pc.Poll? && t >= s.now && WqTimed(i) !in s.q
    ensures Orderly(cfg.engine, Timed(cfg, s, i, t, input))
  {
    hide Orderly, Live, Sample, Fire;
    if i < SENSORS {
      SampleItems(cfg, s, i, t, input);
    } else {
      FireItems(cfg, Touch(s.rig, i, t), i, t);
    }
    HandledOrderly(cfg.engine, s, Timed(cfg, s, i, t, input), i);
  }

  lemma IgniteOrderly(cfg: Config, s: State, input: Input)
    requires Orderly(cfg.engine, s) && s.pc.Poll?
    ensures Orderly(cfg.engine, Ignition1(cfg, s, s.now + input.dt))
  {
    var r := Ignite(cfg, s.rig, s.now + input.dt);
    assert forall j: Slot | j < SENSORS :: r.items[j] == s.rig.items[j];
    assert forall j: Slot | s.rig.items[j].enabled :: r.items[j].enabled;
  }

  /** What holds of the head x of an orderly queue, once it is off the queue of s. */
  predicate HeadOf(engine: Engine, s: State, x: Work) {
    && Live(s.rig.items, s.pc, s.now, x)
    && (x.WqTimed? ==> x !in s.q)
    && (x.WqNone? ==> forall y | y in s.q :: !y.WqTimed?)
    && (Forced(engine, x) ==> Unknown(engine, s.trace) > 0 && forall y | y in s.q :: !Forced(engine, y))
  }

  lemma VisitOrderly(cfg: Config, s: State, x: Work, input: Input)
    requires Orderly(cfg.engine, s) && s.pc.Poll? && HeadOf(cfg.engine, s, x)
    ensures Orderly(cfg.engine, Visit(cfg, s, x, input))
  {
    hide Orderly, Timed, Proc, Ignition1, StartScan, Live, Known, Unknown;
    match x
    case WqNone =>
      assert Forced(cfg.engine, WqNone);
      NoneOrderly(cfg, s, input);
    case WqProcess(c) => ProcOrderly(cfg, s, c);
    case WqIgn1 => IgniteOrderly(cfg, s, input);
    case WqTimed(i) => TimedOrderly(cfg, s, i, s.now + input.dt, input);
  }

  lemma StepOrderly(cfg: Config, s: State, e: Event)
    requires Orderly(cfg.engine, s) && Unknown(cfg.engine, Step(cfg, s, e).trace) <= 1
    ensures Orderly(cfg.engine, Step(cfg, s, e))
  {
    hide Orderly, HeadOf, Proc, Timed, Ignition1, StartScan, ScanEntry, NetworkStep, Unknown;
    match e
    case Network(recv, idle) => NetworkOrderly(cfg, s, recv, idle);
    case Worker(input) =>
      if s.pc.Scan? {
        ScanOrderly(cfg.engine, s);
      } else if s.q == [] {
        NoneOrderly(cfg, s, input);
      } else {
        PoppedOrderly(cfg.engine, s);
        VisitOrderly(cfg, Popped(s), s.q[0], input);
      }
  }

  lemma {:induction false} RunOrderly(cfg: Config, s: State, es: seq<Event>)
    requires Initial(cfg, s) && Unknown(cfg.engine, Run(cfg, s, es).trace) <= 1
    ensures Orderly(cfg.engine, Run(cfg, s, es))
  {
    if es == [] {
      InitialOrderly(cfg, s);
    } else {
      var s1, e := Run(cfg, s, es[..|es| - 1]), es[|es| - 1];
      StepTrace(cfg, s1, e);
      RunOrderly(cfg, s, es[..|es| - 1]);
      StepOrderly(cfg, s1, e);
    }
  }

  lemma {:induction false} UniqueCount(q: seq<Work>, i: Slot)
    requires Unique(q)
    ensures Count(q, WqTimed(i)) <= 1
    ensures WqTimed(i) !in q ==> Count(q, WqTimed(i)) == 0
  {
    if q != [] {
      UniqueCount(q[..|q| - 1], i);
    }
  }

  /** In every run with at most one unknown byte no timed item is ever queued twice. */
  lemma AtMostOnce(cfg: Config, s: State, es: seq<Event>, i: Slot)
    requires Initial(cfg, s) && Unknown(cfg.engine, Run(cfg, s, es).trace) <= 1
    ensures Count(Run(cfg, s, es).q, WqTimed(i)) <= 1
  {
    RunOrderly(cfg, s, es);
    UniqueCount(Run(cfg, s, es).q, i);
  }

  // ---------------------------------------------------------------- spacing

  /** Two samples of one sensor are more than its delay apart, the last one is noted in the
      table, and the first one comes more than the delay after start-up. */
  ghost predicate Spaced(trace: seq<Obs>, items: Table) {
    && (forall a | 0 <= a < |trace| && trace[a].Sampled? ::
          && trace[a].i < SENSORS
          && SENSOR_DELAYS[trace[a].i] < trace[a].t <= items[trace[a].i].scheduled)
    && (forall a, b | 0 <= a < b < |trace| && trace[a].Sampled? && trace[b].Sampled? && trace[a].i == trace[b].i ::
          trace[b].t - trace[a].t > SENSOR_DELAYS[trace[a].i])
  }

  lemma SampleSpaced(cfg: Config, s: State, i: Slot, t: nat, input: Input)
    requires Spaced(s.trace, s.rig.items) && i < SENSORS && t - s.rig.items[i].scheduled > SENSOR_DELAYS[i]
    ensures Spaced(Timed(cfg, s, i, t, input).trace, Timed(cfg, s, i, t, input).rig.items)
  {
    var s' := Timed(cfg, s, i, t, input);
    SampleItems(cfg, s, i, t, input);
    assert s'.trace == s.trace + [Sampled(i, t, input.adc, s'.trace[|s.trace|].tripped)];
  }

  predicate Samples(s: State, e: Event) {
    e.Worker? && s.pc.Poll? && s.q != [] && s.q[0].WqTimed? && s.q[0].i < SENSORS
  }

  /** A step that samples nothing leaves the sensors' items alone and notes no sample. */
  lemma QuietStep(cfg: Config, s: State, e: Event)
    requires !Samples(s, e)
    ensures var s' := Step(cfg, s, e);
      && (forall j: Slot | j < SENSORS :: s'.rig.items[j] == s.rig.items[j])
      && (s'.trace == s.trace || (s'.trace != [] && s'.trace[..|s'.trace| - 1] == s.trace && !s'.trace[|s.trace|].Sampled?))
  {
    hide Fire, PinsAfter, FollowUp, NetStep;
    if e.Worker? && s.pc.Poll? && s.q != [] && s.q[0].WqTimed? {
      var i, t := s.q[0].i, s.now + e.input.dt;
      FireItems(cfg, Touch(s.rig, i, t), i, t);
    }
  }

  lemma QuietSpaced(trace: seq<Obs>, o: Obs, items: Table, items': Table)
    requires Spaced(trace, items) && !o.Sampled?
    requires forall j: Slot | j < SENSORS :: items'[j] == items[j]
    ensures Spaced(trace, items') && Spaced(trace + [o], items')
  {
  }

  lemma SensorDue(engine: Engine, s: State)
    requires Orderly(engine, s) && s.q != [] && s.q[0].WqTimed? && s.q[0].i < SENSORS
    ensures s.now - s.rig.items[s.q[0].i].scheduled > SENSOR_DELAYS[s.q[0].i]
  {
    assert Live(s.rig.items, s.pc, s.now, s.q[0]);
  }

  lemma StepSpaced(cfg: Config, s: State, e: Event)
    requires Orderly(cfg.engine, s) && Spaced(s.trace, s.rig.items)
    ensures Spaced(Step(cfg, s, e).trace, Step(cfg, s, e).rig.items)
  {
    hide Orderly, Spaced, Timed, Proc, Ignition1, StartScan, ScanEntry, NetworkStep;
    if Samples(s, e) {
      SensorDue(cfg.engine, s);
      SampleSpaced(cfg, Popped(s), s.q[0].i, s.now + e.input.dt, e.input);
    } else {
      QuietStep(cfg, s, e);
      hide Step;
      var s' := Step(cfg, s, e);
      var o := if s'.trace == s.trace then Polled(0) else s'.trace[|s.trace|];
      assert s'.trace == s.trace || s'.trace == s.trace + [o];
      QuietSpaced(s.trace, o, s.rig.items, s'.rig.items);
    }
  }

  /** In every run with at most one unknown byte, any two samples of a sensor are more than
      its delay apart. */
  lemma {:induction false} SensorSpacing(cfg: Config, s: State, es: seq<Event>)
    requires Initial(cfg, s) && Unknown(cfg.engine, Run(cfg, s, es).trace) <= 1
    ensures Spaced(Run(cfg, s, es).trace, Run(cfg, s, es).rig.items)
  {
    if es != [] {
      var s1, e := Run(cfg, s, es[..|es| - 1]), es[|es| - 1];
      StepTrace(cfg, s1, e);
      SensorSpacing(cfg, s, es[..|es| - 1]);
      RunOrderly(cfg, s, es[..|es| - 1]);
      StepSpaced(cfg, s1, e);
    }
  }
}
