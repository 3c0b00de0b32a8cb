/** How long a frame stays readable in its ring after it was handed over. */
module Residence {
  import opened Types
  import opened CircularBuffers
  import opened Wire
  import opened Controller
  import opened Scheduling
  import opened TelemetryPipeline

  lemma NowMonotone(cfg: Config, s: State, e: Event)
    ensures Step(cfg, s, e).now >= s.now
  {
    hide PinsAfter, FollowUp, Fire, FireObs, Ignite, NetStep, Touch, ChannelAfter, SendFrame, Trips, AverageAfter;
  }

  lemma {:induction false} ScheduledPast(cfg: Config, s: State, es: seq<Event>, j: nat)
    requires Initial(cfg, s) && j < SENSORS
    ensures Run(cfg, s, es).rig.items[j].scheduled <= Run(cfg, s, es).now
  {
    if es == [] {
      var k: Slot := j;
      assert s.rig.items[k] == InitialItem(cfg, k);
    } else {
      hide Initial;
      ScheduledPast(cfg, s, es[..|es| - 1], j);
      StepScheduledPast(cfg, Run(cfg, s, es[..|es| - 1]), es[|es| - 1], j);
    }
  }

  lemma StepScheduledPast(cfg: Config, s: State, e: Event, j: nat)
    requires j < SENSORS && s.rig.items[j].scheduled <= s.now
    ensures Step(cfg, s, e).rig.items[j].scheduled <= Step(cfg, s, e).now
  {
    hide Timed, Proc, Ignition1, StartScan, ScanEntry, NetworkStep;
    NowMonotone(cfg, s, e);
    var k: Slot := j;
    if Samples(s, e) {
      SampleItems(cfg, Popped(s), s.q[0].i, s.now + e.input.dt, e.input);
      assert k != s.q[0].i ==> Step(cfg, s, e).rig.items[k] == s.rig.items[k];
    } else {
      QuietStep(cfg, s, e);
      assert Step(cfg, s, e).rig.items[k] == s.rig.items[k];
    }
  }

  /** No frame is overwritten within this many microseconds after it was handed over. */
  const RESIDENCE: nat := 48_000_000

  lemma RoomLeft(k: nat, d: nat, n: nat)
    requires d >= 500 && k * (d + 1) <= RESIDENCE && n <= RECORD_SIZE * 999
    ensures RECORD_SIZE * k + n + RECORD_SIZE <= RING_SIZE
  {
    assert k * (d + 1) >= k * 501;
  }

  // ---------------------------------------------------------------- the frames' ages

  /** Since frame f was handed over k more records came, more than d microseconds apart. */
  predicate Aged(f: Frame, written: nat, scheduled: nat, d: nat, k: nat) {
    && written == f.offset + f.nbytes + RECORD_SIZE * k
    && f.at + k * (d + 1) <= scheduled
  }

  ghost predicate InPace(f: Frame, written: nat, scheduled: nat, d: nat) {
    exists k: nat :: Aged(f, written, scheduled, d, k)
  }

  ghost predicate AllAged(frames: seq<Frame>, written: nat, scheduled: nat, d: nat) {
    forall f | f in frames :: InPace(f, written, scheduled, d)
  }

  lemma SomeRecord(f: Frame, written: nat, scheduled: nat, d: nat, t: nat)
    requires InPace(f, written, scheduled, d)
    requires t - scheduled > d
    ensures InPace(f, written + RECORD_SIZE, t, d)
  {
    var k: nat :| Aged(f, written, scheduled, d, k);
    assert (k + 1) * (d + 1) == k * (d + 1) + d + 1;
    assert Aged(f, written + RECORD_SIZE, t, d, k + 1);
  }

  /** One more sample, more than the delay after the last one, and a frame when it is time. */
  lemma ChannelAged(ch: Channel, it: TimedItem, i: Slot, t: nat, input: Input, connected: bool)
    requires i < SENSORS && Intact(ch, it, i)
    requires AllAged(ch.frames, ch.ring.written, it.scheduled, SENSOR_DELAYS[i])
    requires t - it.scheduled > SENSOR_DELAYS[i]
    ensures var ch' := ChannelAfter(ch, it.(scheduled := t), i, t, input, connected);
      AllAged(ch'.frames, ch'.ring.written, t, SENSOR_DELAYS[i])
  {
    hide Add, Record, Logged, Tiled, Holds, InPace;
    var d, written := SENSOR_DELAYS[i], ch.ring.written + RECORD_SIZE;
    var last := SendFrame(it, i, written, t, connected);
    NewFrame(last, written, t, d);
    var ch' := ChannelAfter(ch, it.(scheduled := t), i, t, input, connected);
    forall f | f in ch'.frames ensures InPace(f, ch'.ring.written, t, d) {
      if f in ch.frames {
        SomeRecord(f, ch.ring.written, it.scheduled, d, t);
      }
    }
  }

  lemma NewFrame(f: Frame, written: nat, t: nat, d: nat)
    requires f.at == t
    ensures f.offset + f.nbytes == written ==> InPace(f, written, t, d)
  {
    assert f.offset + f.nbytes == written ==> Aged(f, written, t, d, 0);
  }

  ghost predicate AgedIn(s: State, j: nat)
    requires j < SENSORS
  {
    AllAged(s.tele.chans[j].frames, s.tele.chans[j].ring.written, s.rig.items[j].scheduled, SENSOR_DELAYS[j])
  }

  lemma SampleAged(cfg: Config, s: State, i: Slot, t: nat, input: Input, j: nat)
    requires i < SENSORS && j < SENSORS && AgedIn(s, j) && Sound(s, j)
    requires i == j ==> t - s.rig.items[i].scheduled > SENSOR_DELAYS[i]
    ensures AgedIn(Timed(cfg, s, i, t, input), j)
  {
    hide AllAged, InPace, ChannelAfter, Intact;
    SampleChannels(cfg, s, i, t, input);
    hide Timed;
    if i == j {
      ChannelAged(s.tele.chans[i], s.rig.items[i], i, t, input, s.net.connected);
    }
  }

  lemma StepAged(cfg: Config, s: State, e: Event, j: nat)
    requires j < SENSORS && AgedIn(s, j) && Sound(s, j) && Orderly(cfg.engine, s)
    ensures AgedIn(Step(cfg, s, e), j)
  {
    hide AllAged, InPace, Timed, Orderly, Intact;
    if Samples(s, e) {
      SensorDue(cfg.engine, s);
      SoundPopped(s, j);
      SampleAged(cfg, Popped(s), s.q[0].i, s.now + e.input.dt, e.input, j);
    } else {
      hide Step;
      QuietTelemetry(cfg, s, e);
      QuietStep(cfg, s, e);
      var slot: Slot := j;
      assert Step(cfg, s, e).rig.items[slot] == s.rig.items[slot];
    }
  }

  lemma {:induction false} RunAged(cfg: Config, s: State, es: seq<Event>, j: nat)
    requires Initial(cfg, s) && j < SENSORS && Unknown(cfg.engine, Run(cfg, s, es).trace) <= 1
    ensures AgedIn(Run(cfg, s, es), j)
  {
    if es == [] {
      assert InitialChannel(s.tele.chans[j]);
    } else {
      hide Initial, Unknown, Orderly, Sound, AgedIn, Step;
      var s1, e := Run(cfg, s, es[..|es| - 1]), es[|es| - 1];
      StepTrace(cfg, s1, e);
      RunAged(cfg, s, es[..|es| - 1], j);
      RunSound(cfg, s, es[..|es| - 1], j);
      RunOrderly(cfg, s, es[..|es| - 1]);
      StepAged(cfg, s1, e, j);
    }
  }

  /** A frame not older than RESIDENCE is still wholly in its ring, and one more record would
      not touch it. */
  lemma FrameKept(cfg: Config, s: State, es: seq<Event>, j: nat, f: Frame)
    requires Initial(cfg, s) && j < SENSORS && Unknown(cfg.engine, Run(cfg, s, es).trace) <= 1
    requires f in Run(cfg, s, es).tele.chans[j].frames && Run(cfg, s, es).now <= f.at + RESIDENCE
    ensures f.offset + f.nbytes <= Run(cfg, s, es).tele.chans[j].ring.written <= f.offset + RING_SIZE - RECORD_SIZE
  {
    hide Run, Initial, Unknown, MaxRecords;
    FrameSizes(cfg, s, es, j, f);
    ScheduledPast(cfg, s, es, j);
    RunAged(cfg, s, es, j);
    var s' := Run(cfg, s, es);
    var k: nat :| Aged(f, s'.tele.chans[j].ring.written, s'.rig.items[j].scheduled, SENSOR_DELAYS[j], k);
    RoomLeft(k, SENSOR_DELAYS[j], f.nbytes);
  }

  /** Each frame of channel j, from the moment it is handed over until RESIDENCE later, reads
      back unharmed, whatever is sampled meanwhile. */
  lemma FrameSurvives(cfg: Config, s: State, es: seq<Event>, j: nat, f: Frame)
    requires Initial(cfg, s) && j < SENSORS && Unknown(cfg.engine, Run(cfg, s, es).trace) <= 1
    requires f in Run(cfg, s, es).tele.chans[j].frames && Run(cfg, s, es).now <= f.at + RESIDENCE
    ensures var ch := Run(cfg, s, es).tele.chans[j];
      && f.offset + f.nbytes <= |ch.stream|
      && Cyclic(ch.ring, f.nbytes, f.offset) == ch.stream[f.offset..f.offset + f.nbytes]
  {
    hide Run, Initial, Unknown, Cyclic, Tiled;
    FrameKept(cfg, s, es, j, f);
    RunSound(cfg, s, es, j);
    var ch := Run(cfg, s, es).tele.chans[j];
    CyclicReads(ch.ring, ch.stream, f.nbytes, f.offset);
  }
}
