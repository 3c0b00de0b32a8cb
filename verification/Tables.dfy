/** What the history alone tells about the timed items and the clock. Every number stands here
    as the source has it. */
module Tables {
  import opened Types
  import opened CircularBuffers
  import opened Controller
  import opened Scheduling
  import opened FiringSequence
  import opened TelemetryPipeline
  import opened Histories

  /** The samples of sensor i so far. */
  function Samples(trace: seq<Obs>, i: nat): nat {
    if trace == [] then 0 else
    var o := trace[|trace| - 1];
    Samples(trace[..|trace| - 1], i) + if o.Sampled? && o.i == i then 1 else 0
  }

  /** The table as it is set up: load cells, pressures, thermocouples, then the firing items. */
  function StartItem(cfg: Config, i: Slot): TimedItem {
    if i == 0 then TimedItem(LcMain, 0, 500, true, 0, 0)
    else if i == 1 then TimedItem(Lc1, 0, 1000, true, 0, 0)
    else if i == 2 then TimedItem(Lc2, 0, 1000, true, 0, 0)
    else if i == 3 then TimedItem(Lc3, 0, 1000, true, 0, 0)
    else if i == 4 then TimedItem(PtInje, 0, 1000, true, 0, 0)
    else if i == 5 then TimedItem(PtComb, 0, 1000, true, 0, 0)
    else if i == 6 then TimedItem(PtFeed, 0, 1000, true, 0, 0)
    else if i == 7 then TimedItem(Tc1, 0, 20000, true, 0, 0)
    else if i == 8 then TimedItem(Tc2, 0, 20000, true, 0, 0)
    else if i == 9 then TimedItem(Tc3, 0, 20000, true, 0, 0)
    else if i == 10 then TimedItem(Ign2, 0, cfg.preigniteUs, false, 0, 0)
    else if i == 11 then TimedItem(Ign3, 0, cfg.hotflowUs, false, 0, 0)
    else TimedItem(Gitvc, 0, cfg.gitvcWaitTime, false, 0, 0)
  }

  /** Item i after one more entry o; samples counts those of i with o, pulses tells whether an
      ign2 starts the pulse train. */
  function ItemNext(cfg: Config, it: TimedItem, i: Slot, o: Obs, samples: nat, pulses: bool): TimedItem {
    match o
    case Sampled(j, t, _, _) =>
      if j != i then it
      else if t - it.lastSend > 500_000 then it.(scheduled := t, lastSend := t, nbytesLastSend := 16 * samples)
      else it.(scheduled := t)
    case Ignited(t) => if i == 10 then it.(scheduled := t, enabled := true) else it
    case Fired2(t) =>
      if i == 10 then it.(scheduled := t, enabled := false)
      else if i == 11 then it.(scheduled := t, enabled := true)
      else if i == 12 && cfg.engine.Luna? && pulses then it.(scheduled := t, enabled := true)
      else it
    case Fired3(t) =>
      if i == 11 then it.(scheduled := t, enabled := false)
      else if i == 12 && cfg.engine.Luna? then it.(enabled := false)
      else it
    case Opened(_, t, lasts) => if i == 12 then it.(scheduled := t, enabled := true, timeDelay := lasts) else it
    case Closed(t) => if i == 12 then it.(scheduled := t, enabled := true, timeDelay := cfg.timeBetweenGitvc) else it
    case NoPulse(t) => if i == 12 then it.(scheduled := t) else it
    case _ => it
  }

  /** Item i by the history. */
  function ItemBy(cfg: Config, trace: seq<Obs>, i: Slot): TimedItem {
    if trace == [] then StartItem(cfg, i) else
    var before := trace[..|trace| - 1];
    ItemNext(cfg, ItemBy(cfg, before, i), i, trace[|trace| - 1], Samples(trace, i), StartsPulses(cfg, before))
  }

  /** The clock reading of an entry that has one. */
  function TimeOf(o: Obs, before: nat): nat {
    match o
    case Arrived(_) => before
    case Commanded(_) => before
    case Ignited(t) => t
    case Polled(t) => t
    case Sampled(_, t, _, _) => t
    case Fired2(t) => t
    case Fired3(t) => t
    case Opened(_, t, _) => t
    case Closed(t) => t
    case NoPulse(t) => t
  }

  /** The last clock reading in the history, 0 if there is none. */
  function LastTime(trace: seq<Obs>): nat {
    if trace == [] then 0 else TimeOf(trace[|trace| - 1], LastTime(trace[..|trace| - 1]))
  }

  ghost predicate TableTold(cfg: Config, s: State) {
    && s.now == LastTime(s.trace)
    && (forall i: Slot :: s.rig.items[i] == ItemBy(cfg, s.trace, i))
    && (forall i: Slot | i < SENSORS :: s.tele.chans[i].ring.written == 16 * Samples(s.trace, i))
  }

  lemma TablePush(cfg: Config, trace: seq<Obs>, o: Obs, i: Slot)
    ensures Samples(trace + [o], i) == Samples(trace, i) + if o.Sampled? && o.i == i then 1 else 0
    ensures LastTime(trace + [o]) == TimeOf(o, LastTime(trace))
    ensures ItemBy(cfg, trace + [o], i) ==
            ItemNext(cfg, ItemBy(cfg, trace, i), i, o, Samples(trace + [o], i), StartsPulses(cfg, trace))
  {
    assert (trace + [o])[..|trace|] == trace;
  }

  /** A step that notes o and changes each item as o says keeps the table told. */
  lemma EntryTable(cfg: Config, s: State, s': State, o: Obs)
    requires TableTold(cfg, s) && s'.trace == s.trace + [o] && s'.now == TimeOf(o, s.now)
    requires forall i: Slot ::
      s'.rig.items[i] == ItemNext(cfg, s.rig.items[i], i, o, Samples(s'.trace, i), StartsPulses(cfg, s.trace))
    requires forall i: Slot | i < SENSORS ::
      s'.tele.chans[i].ring.written == s.tele.chans[i].ring.written + if o.Sampled? && o.i == i then 16 else 0
    ensures TableTold(cfg, s')
  {
    hide Samples, ItemBy, ItemNext, LastTime, TimeOf, StartsPulses;
    TimePush(s.trace, o);
    forall i: Slot
      ensures s'.rig.items[i] == ItemBy(cfg, s'.trace, i)
      ensures i < SENSORS ==> s'.tele.chans[i].ring.written == 16 * Samples(s'.trace, i)
    {
      TablePush(cfg, s.trace, o, i);
    }
  }

  lemma TimePush(trace: seq<Obs>, o: Obs)
    ensures LastTime(trace + [o]) == TimeOf(o, LastTime(trace))
  {
    assert (trace + [o])[..|trace|] == trace;
  }

  lemma IgniteTable(cfg: Config, s: State, t: nat)
    requires TableTold(cfg, s) && s.rig.items[IGN2].timeDelay == cfg.preigniteUs && s.rig.items[IGN3].timeDelay == cfg.hotflowUs
    ensures TableTold(cfg, Ignition1(cfg, s, t))
  {
    hide Samples, LastTime, ItemBy, StartsPulses, TableTold;
    EntryTable(cfg, s, Ignition1(cfg, s, t), Ignited(t));
  }

  /** The firing items keep their delays. */
  lemma {:induction false} DelaysBy(cfg: Config, trace: seq<Obs>)
    ensures ItemBy(cfg, trace, 10).timeDelay == cfg.preigniteUs
    ensures ItemBy(cfg, trace, 11).timeDelay == cfg.hotflowUs
  {
    if trace != [] {
      DelaysBy(cfg, trace[..|trace| - 1]);
    }
  }

  /** What ign2, ign3 and a gitvc visit do to the table. */
  lemma Fire2Items(cfg: Config, r: Rig, t: nat, trace: seq<Obs>, samples: nat, j: Slot)
    requires BurnTold(cfg, r, trace)
    ensures Fire(cfg, Touch(r, 10, t), 10, t).items[j] ==
            ItemNext(cfg, r.items[j], j, Fired2(t), samples, StartsPulses(cfg, trace))
  {
    hide BurnOn, BurnBegan, NextPulse, PulseOn;
  }

  lemma Fire3Items(cfg: Config, r: Rig, t: nat, samples: nat, pulses: bool, j: Slot)
    ensures Fire(cfg, Touch(r, 11, t), 11, t).items[j] == ItemNext(cfg, r.items[j], j, Fired3(t), samples, pulses)
  {
  }

  lemma PulseItems(cfg: Config, r: Rig, t: nat, samples: nat, pulses: bool, j: Slot)
    ensures Fire(cfg, Touch(r, 12, t), 12, t).items[j] ==
            ItemNext(cfg, r.items[j], j, FireObs(cfg, Touch(r, 12, t), 12, t), samples, pulses)
  {
  }

  lemma FiringItems(cfg: Config, r: Rig, i: Slot, t: nat, trace: seq<Obs>, samples: nat, j: Slot)
    requires i >= SENSORS && BurnTold(cfg, r, trace)
    ensures Fire(cfg, Touch(r, i, t), i, t).items[j] ==
            ItemNext(cfg, r.items[j], j, FireObs(cfg, Touch(r, i, t), i, t), samples, StartsPulses(cfg, trace))
  {
    hide Fire, ItemNext, BurnTold, StartsPulses, Opens, Touch;
    if i == 10 {
      Fire2Items(cfg, r, t, trace, samples, j);
    } else if i == 11 {
      Fire3Items(cfg, r, t, samples, StartsPulses(cfg, trace), j);
    } else {
      PulseItems(cfg, r, t, samples, StartsPulses(cfg, trace), j);
    }
  }

  lemma FireTable(cfg: Config, s: State, i: Slot, t: nat)
    requires i >= SENSORS && TableTold(cfg, s) && BurnTold(cfg, s.rig, s.trace)
    ensures TableTold(cfg, FireItem(cfg, Touched(s, i, t), i, t))
  {
    hide Samples, LastTime, ItemBy, ItemNext, StartsPulses, BurnTold, Fire, TableTold, FireObs;
    var o := FireObs(cfg, Touch(s.rig, i, t), i, t);
    var s' := FireItem(cfg, Touched(s, i, t), i, t);
    forall j: Slot ensures s'.rig.items[j] == ItemNext(cfg, s.rig.items[j], j, o, Samples(s'.trace, j), StartsPulses(cfg, s.trace)) {
      FiringItems(cfg, s.rig, i, t, s.trace, Samples(s'.trace, j), j);
    }
    FireTime(cfg, Touch(s.rig, i, t), i, t, s.now);
    EntryTable(cfg, s, s', o);
  }

  lemma FireTime(cfg: Config, r: Rig, i: Slot, t: nat, now: nat)
    requires i >= SENSORS
    ensures var o := FireObs(cfg, r, i, t); TimeOf(o, now) == t && !o.Sampled?
  {
  }

  lemma SampleTable(cfg: Config, s: State, i: Slot, t: nat, input: Input)
    requires i < SENSORS && TableTold(cfg, s)
    ensures TableTold(cfg, Timed(cfg, s, i, t, input))
  {
    hide ChannelAfter, LastTime, ItemBy, StartsPulses, Samples, Timed;
    SampleChannels(cfg, s, i, t, input);
    var s' := Timed(cfg, s, i, t, input);
    var o := s'.trace[|s.trace|];
    WrittenAfter(s.tele.chans[i], s.rig.items[i].(scheduled := t), i, t, input, s.net.connected);
    SampleItems(cfg, s, i, t, input);
    TablePush(cfg, s.trace, o, i);
    hide TableTold;
    WrittenTold(cfg, s, i);
    EntryTable(cfg, s, s', o);
  }

  lemma WrittenTold(cfg: Config, s: State, i: Slot)
    requires TableTold(cfg, s) && i < SENSORS
    ensures s.tele.chans[i].ring.written == 16 * Samples(s.trace, i)
  {
  }

  lemma WrittenAfter(ch: Channel, it: TimedItem, i: Slot, t: nat, input: Input, connected: bool)
    requires ch.ring.Valid()
    ensures ChannelAfter(ch, it, i, t, input, connected).ring.written == ch.ring.written + 16
  {
    hide Add, Logged, SendFrame;
  }

  lemma VisitTable(cfg: Config, s: State, x: Work, input: Input)
    requires TableTold(cfg, s) && BurnTold(cfg, s.rig, s.trace)
    ensures TableTold(cfg, Visit(cfg, s, x, input))
  {
    hide Sample, PinsAfter, FollowUp, Fire, FireObs, Ignite, Samples, LastTime, ItemBy, StartsPulses, BurnTold, Timed;
    var t := s.now + input.dt;
    var s' := Visit(cfg, s, x, input);
    match x
    case WqProcess(c) => EntryTable(cfg, s, s', Commanded(c));
    case WqNone => EntryTable(cfg, s, s', Polled(t));
    case WqIgn1 =>
      DelaysBy(cfg, s.trace);
      IgniteTable(cfg, s, t);
    case WqTimed(i) =>
      if i < SENSORS {
        SampleTable(cfg, s, i, t, input);
      } else {
        FireTable(cfg, s, i, t);
        assert Timed(cfg, s, i, t, input) == FireItem(cfg, Touched(s, i, t), i, t) by { TimedFires(cfg, s, i, t, input); }
      }
  }

  lemma TimedFires(cfg: Config, s: State, i: Slot, t: nat, input: Input)
    requires i >= SENSORS
    ensures Timed(cfg, s, i, t, input) == FireItem(cfg, Touched(s, i, t), i, t)
  {
  }

  lemma StepTable(cfg: Config, s: State, e: Event)
    requires TableTold(cfg, s) && BurnTold(cfg, s.rig, s.trace)
    ensures TableTold(cfg, Step(cfg, s, e))
  {
    hide TableTold, BurnTold, Visit, NetStep;
    match e
    case Network(recv, _) =>
      if Reads(s.net) && recv.Byte? {
        ArrivalTable(cfg, s, Step(cfg, s, e), recv.c);
      } else {
        SameTable(cfg, s, Step(cfg, s, e));
      }
    case Worker(input) =>
      if s.pc.Scan? {
        SameTable(cfg, s, Step(cfg, s, e));
      } else if s.q == [] {
        VisitTable(cfg, s, WqNone, input);
      } else {
        SameTable(cfg, s, Popped(s));
        VisitTable(cfg, Popped(s), s.q[0], input);
      }
  }

  lemma SameTable(cfg: Config, s: State, s': State)
    requires TableTold(cfg, s) && s'.rig == s.rig && s'.tele == s.tele && s'.now == s.now && s'.trace == s.trace
    ensures TableTold(cfg, s')
  {
  }

  lemma ArrivalTable(cfg: Config, s: State, s': State, c: byte)
    requires TableTold(cfg, s) && s'.rig == s.rig && s'.tele == s.tele && s'.now == s.now && s'.trace == s.trace + [Arrived(c)]
    ensures TableTold(cfg, s')
  {
    hide TableTold, LastTime, ItemBy, StartsPulses, Samples;
    EntryTable(cfg, s, s', Arrived(c));
  }

  lemma StartTable(cfg: Config, s: State)
    requires Initial(cfg, s)
    ensures TableTold(cfg, s)
  {
    hide StartsPulses;
    forall i: Slot ensures s.rig.items[i] == ItemBy(cfg, [], i) {
      assert s.rig.items[i] == InitialItem(cfg, i);
    }
    forall i: Slot | i < SENSORS ensures s.tele.chans[i].ring.written == 0 {
      assert InitialChannel(s.tele.chans[i]);
    }
  }

  /** In every run of either engine the clock, every field of every timed item and the number of
      bytes in each ring are what the history tells. */
  lemma {:induction false} TableFollowsHistory(cfg: Config, s: State, es: seq<Event>)
    requires Initial(cfg, s)
    ensures TableTold(cfg, Run(cfg, s, es))
  {
    if es == [] {
      StartTable(cfg, s);
    } else {
      hide TableTold, BurnTold, Step, Initial;
      var s1 := Run(cfg, s, es[..|es| - 1]);
      TableFollowsHistory(cfg, s, es[..|es| - 1]);
      BurnFollowsHistory(cfg, s, es[..|es| - 1]);
      StepTable(cfg, s1, es[|es| - 1]);
    }
  }
}
