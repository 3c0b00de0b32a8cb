/** The telemetry pipeline: what the rings, the frames and the log files hold in every run. */
module TelemetryPipeline {
  import opened Types
  import opened CircularBuffers
  import opened Wire
  import opened Controller
  import opened Scheduling

  // ---------------------------------------------------------------- one channel

  /** The frames follow one another without gap or overlap from 0 to end; none is empty. */
  predicate Tiled(frames: seq<Frame>, chan: nat, end: nat) {
    if frames == [] then end == 0 else
    var f := frames[|frames| - 1];
    && f.chan == chan && f.nbytes > 0 && f.offset + f.nbytes == end
    && Tiled(frames[..|frames| - 1], chan, f.offset)
  }

  /** What holds of channel i and its item in any run. */
  ghost predicate Intact(ch: Channel, it: TimedItem, i: nat) {
    && Holds(ch.ring, ch.stream) && |ch.ring.data| == 12 * 131_072
    && it.nbytesLastSend <= ch.ring.written
    && Tiled(ch.frames, i, it.nbytesLastSend)
  }

  function ItemAfter(it: TimedItem, bw: nat, t: nat): TimedItem {
    if Sends(it, t) then it.(nbytesLastSend := bw, lastSend := t) else it
  }

  lemma TiledPush(frames: seq<Frame>, f: Frame, i: nat, end: nat)
    requires Tiled(frames, i, end) && f.chan == i && f.offset == end && f.nbytes > 0
    ensures Tiled(frames + [f], i, end + f.nbytes)
  {
    assert (frames + [f])[..|frames|] == frames;
  }

  lemma ChannelIntact(ch: Channel, it: TimedItem, i: Slot, t: nat, input: Input, connected: bool)
    requires Intact(ch, it, i) && i < SENSORS
    ensures Intact(ChannelAfter(ch, it, i, t, input, connected), ItemAfter(it, ch.ring.written + RECORD_SIZE, t), i)
  {
    hide Holds, Add, Record, Logged, Tiled;
    var rec := Record(Reading(input.adc, t));
    AddHolds(ch.ring, ch.stream, rec);
    var bw := ch.ring.written + RECORD_SIZE;
    TiledPush(ch.frames, SendFrame(it, i, bw, t, connected), i, it.nbytesLastSend);
  }

  // ---------------------------------------------------------------- pacing

  /** k unsent records, taken more than d microseconds apart, after the last send; were they
      older than SEND_TIME the last of them would have been sent. */
  ghost predicate Paced(it: TimedItem, written: nat, d: nat) {
    && it.lastSend <= it.scheduled
    && exists k: nat :: Unsent(it, written, d, k)
  }

  predicate Unsent(it: TimedItem, written: nat, d: nat, k: nat) {
    && written == it.nbytesLastSend + RECORD_SIZE * k
    && k * (d + 1) <= it.scheduled - it.lastSend
    && (k > 0 ==> it.scheduled - it.lastSend <= SEND_TIME)
  }

  /** The most records one frame of channel i can carry. */
  function MaxRecords(i: nat): nat
    requires i < SENSORS
  {
    SEND_TIME / (SENSOR_DELAYS[i] + 1) + 1
  }

  lemma PositiveFactor(x: int, m: nat)
    requires x * m > 0
    ensures x > 0
  {
  }

  lemma DivideBound(k: nat, m: nat, total: nat)
    requires m > 0 && k * m <= total
    ensures k <= total / m
  {
    var q := total / m;
    assert (q + 1 - k) * m == q * m + m - k * m;
    assert q * m + total % m == total;
    PositiveFactor(q + 1 - k, m);
  }

  lemma MaxRecordsFit(i: nat)
    requires i < SENSORS
    ensures MaxRecords(i) == if i == 0 then 999 else if i < 7 then 500 else 25
    ensures RECORD_SIZE * MaxRecords(i) <= RING_SIZE
  {
  }

  /** One more sample, more than d after the last one: the next k records, and when it is
      time a frame of whole records, not more than MaxRecords. */
  lemma ChannelPaced(it: TimedItem, written: nat, i: nat, t: nat)
    requires i < SENSORS && Paced(it, written, SENSOR_DELAYS[i])
    requires t - it.scheduled > SENSOR_DELAYS[i]
    ensures var it1 := it.(scheduled := t);
      && Paced(ItemAfter(it1, written + RECORD_SIZE, t), written + RECORD_SIZE, SENSOR_DELAYS[i])
      && exists k: nat :: written - it.nbytesLastSend == RECORD_SIZE * k && k + 1 <= MaxRecords(i)
  {
    var d := SENSOR_DELAYS[i];
    var k: nat :| Unsent(it, written, d, k);
    var it1 := it.(scheduled := t);
    var it2 := ItemAfter(it1, written + RECORD_SIZE, t);
    assert (k + 1) * (d + 1) == k * (d + 1) + d + 1;
    assert Unsent(it2, written + RECORD_SIZE, d, if Sends(it1, t) then 0 else k + 1);
    assert k * (d + 1) <= SEND_TIME;
    DivideBound(k, d + 1, SEND_TIME);
  }

  // ---------------------------------------------------------------- the log

  /** The log is what was added to the ring up to the last send. */
  predicate Lossless(ch: Channel, it: TimedItem) {
    it.nbytesLastSend <= |ch.stream| && ch.log == ch.stream[..it.nbytesLastSend]
  }

  lemma ChannelLossless(ch: Channel, it: TimedItem, i: Slot, t: nat, input: Input, connected: bool)
    requires Intact(ch, it, i) && Lossless(ch, it) && input.disk.Takes?
    requires ch.ring.written + RECORD_SIZE - it.nbytesLastSend <= RING_SIZE
    ensures Lossless(ChannelAfter(ch, it, i, t, input, connected), ItemAfter(it, ch.ring.written + RECORD_SIZE, t))
  {
    hide Add, Record, Tiled, Cyclic;
    var rec := Record(Reading(input.adc, t));
    AddHolds(ch.ring, ch.stream, rec);
    var ch1 := Recorded(ch, rec);
    var n, from := ch1.ring.written - it.nbytesLastSend, it.nbytesLastSend;
    CyclicReads(ch1.ring, ch1.stream, n, from);
    assert ch1.stream[..from] + ch1.stream[from..from + n] == ch1.stream[..from + n];
    assert ch1.stream[..from] == ch.stream[..from];
  }

  // ---------------------------------------------------------------- every run

  /** The readings of sensor i, in order. */
  function Readings(trace: seq<Obs>, i: nat): seq<Reading> {
    if trace == [] then [] else
    var o := trace[|trace| - 1];
    Readings(trace[..|trace| - 1], i) + if o.Sampled? && o.i == i then [Reading(o.adc, o.t)] else []
  }

  lemma ReadingsPush(trace: seq<Obs>, o: Obs, i: nat)
    ensures Readings(trace + [o], i) ==
            if o.Sampled? && o.i == i then Readings(trace, i) + [Reading(o.adc, o.t)] else Readings(trace, i)
  {
    assert (trace + [o])[..|trace|] == trace;
  }

  lemma RecordsPush(rs: seq<Reading>, r: Reading)
    ensures Records(rs + [r]) == Records(rs) + Record(r)
  {
    assert (rs + [r])[..|rs|] == rs;
  }

  /** Channel i's stream is the records of its readings, and its ring and frames are right. */
  ghost predicate Sound(s: State, i: nat)
    requires i < SENSORS
  {
    && Intact(s.tele.chans[i], s.rig.items[i], i)
    && s.tele.chans[i].stream == Records(Readings(s.trace, i))
  }

  /** A step that samples nothing leaves every channel alone. */
  lemma QuietTelemetry(cfg: Config, s: State, e: Event)
    requires !Samples(s, e)
    ensures Step(cfg, s, e).tele == s.tele
  {
    hide PinsAfter, FollowUp, Fire, FireObs, Ignite, NetStep, Touch;
  }

  /** What a sample of sensor i does to channels and items. */
  lemma SampleChannels(cfg: Config, s: State, i: Slot, t: nat, input: Input)
    requires i < SENSORS
    ensures var s' := Timed(cfg, s, i, t, input);
      var ch, it := s.tele.chans[i], s.rig.items[i].(scheduled := t);
      && s'.tele.chans == s.tele.chans[i := ChannelAfter(ch, it, i, t, input, s.net.connected)]
      && s'.rig.items == s.rig.items[i := ItemAfter(it, ch.ring.written + RECORD_SIZE, t)]
      && s'.trace == s.trace + [Sampled(i, t, input.adc, s'.trace[|s'.trace| - 1].tripped)]
  {
    hide ChannelAfter, SendFrame, Trips, AverageAfter;
  }

  lemma SampleSound(cfg: Config, s: State, i: Slot, t: nat, input: Input, j: nat)
    requires i < SENSORS && j < SENSORS && Sound(s, j)
    ensures Sound(Timed(cfg, s, i, t, input), j)
  {
    hide Timed, Intact, ChannelAfter, ItemAfter, Records, Record, Readings;
    SampleChannels(cfg, s, i, t, input);
    var s' := Timed(cfg, s, i, t, input);
    ReadingsPush(s.trace, s'.trace[|s.trace|], j);
    if i == j {
      TouchIntact(s.tele.chans[i], s.rig.items[i], i, t);
      ChannelIntact(s.tele.chans[i], s.rig.items[i].(scheduled := t), i, t, input, s.net.connected);
      RecordsPush(Readings(s.trace, i), Reading(input.adc, t));
      StreamAfter(s.tele.chans[i], s.rig.items[i].(scheduled := t), i, t, input, s.net.connected);
    }
  }

  lemma TouchIntact(ch: Channel, it: TimedItem, i: nat, t: nat)
    requires Intact(ch, it, i)
    ensures Intact(ch, it.(scheduled := t), i)
  {
  }

  lemma StreamAfter(ch: Channel, it: TimedItem, i: Slot, t: nat, input: Input, connected: bool)
    requires ch.ring.Valid()
    ensures ChannelAfter(ch, it, i, t, input, connected).stream == ch.stream + Record(Reading(input.adc, t))
  {
    hide Add, Record, Logged;
  }

  lemma StepSound(cfg: Config, s: State, e: Event, j: nat)
    requires j < SENSORS && Sound(s, j)
    ensures Sound(Step(cfg, s, e), j)
  {
    hide Timed, Readings, Records, Sound, Proc, Ignition1, StartScan, ScanEntry, NetworkStep;
    if Samples(s, e) {
      SoundPopped(s, j);
      SampleSound(cfg, Popped(s), s.q[0].i, s.now + e.input.dt, e.input, j);
    } else {
      QuietSound(cfg, s, e, j);
    }
  }

  lemma SoundPopped(s: State, j: nat)
    requires j < SENSORS && Sound(s, j) && s.q != []
    ensures Sound(Popped(s), j)
  {
  }

  lemma QuietSound(cfg: Config, s: State, e: Event, j: nat)
    requires j < SENSORS && Sound(s, j) && !Samples(s, e)
    ensures Sound(Step(cfg, s, e), j)
  {
    hide Step, Readings, Records, Intact;
    QuietTelemetry(cfg, s, e);
    QuietStep(cfg, s, e);
    var s' := Step(cfg, s, e);
    var k: Slot := j;
    assert s'.rig.items[k] == s.rig.items[k];
    if s'.trace != s.trace {
      assert s'.trace == s.trace + [s'.trace[|s.trace|]];
      ReadingsPush(s.trace, s'.trace[|s.trace|], j);
    }
  }

  /** In every run, whatever commands come, each ring holds the last RING_SIZE bytes of its
      sensor's records, and the frames handed over tile what was sent. */
  lemma {:induction false} RunSound(cfg: Config, s: State, es: seq<Event>, j: nat)
    requires Initial(cfg, s) && j < SENSORS
    ensures Sound(Run(cfg, s, es), j)
  {
    if es == [] {
      var k: Slot := j;
      assert s.rig.items[k] == InitialItem(cfg, k);
      assert InitialChannel(s.tele.chans[j]);
    } else {
      hide Sound, Step, Initial;
      RunSound(cfg, s, es[..|es| - 1], j);
      StepSound(cfg, Run(cfg, s, es[..|es| - 1]), es[|es| - 1], j);
    }
  }

  // ---------------------------------------------------------------- runs without forced scans

  /** The pace of sensor i's samples and, while no log write failed, its log. */
  ghost predicate Steady(s: State, i: nat)
    requires i < SENSORS
  {
    && Paced(s.rig.items[i], s.tele.chans[i].ring.written, SENSOR_DELAYS[i])
    && (forall f | f in s.tele.chans[i].frames :: WholeRecords(f, i))
  }

  /** A frame of at least one and at most MaxRecords whole records. */
  predicate WholeRecords(f: Frame, i: nat)
    requires i < SENSORS
  {
    f.nbytes % RECORD_SIZE == 0 && RECORD_SIZE <= f.nbytes <= RECORD_SIZE * MaxRecords(i)
  }

  lemma SteadyChannel(ch: Channel, it: TimedItem, i: Slot, t: nat, input: Input, connected: bool)
    requires i < SENSORS && Intact(ch, it, i) && Paced(it, ch.ring.written, SENSOR_DELAYS[i])
    requires t - it.scheduled > SENSOR_DELAYS[i]
    requires forall f | f in ch.frames :: WholeRecords(f, i)
    ensures var it1 := it.(scheduled := t);
      var ch' := ChannelAfter(ch, it1, i, t, input, connected);
      && Paced(ItemAfter(it1, ch.ring.written + RECORD_SIZE, t), ch'.ring.written, SENSOR_DELAYS[i])
      && (forall f | f in ch'.frames :: WholeRecords(f, i))
      && ch.ring.written + RECORD_SIZE - it.nbytesLastSend <= RING_SIZE
  {
    hide Add, Record, Logged, Tiled, Holds, Paced;
    ChannelPaced(it, ch.ring.written, i, t);
    MaxRecordsFit(i);
    var k: nat :| ch.ring.written - it.nbytesLastSend == RECORD_SIZE * k && k + 1 <= MaxRecords(i);
    assert WholeRecords(SendFrame(it.(scheduled := t), i, ch.ring.written + RECORD_SIZE, t, connected), i);
  }

  lemma SampleSteady(cfg: Config, s: State, i: Slot, t: nat, input: Input, j: nat)
    requires i < SENSORS && j < SENSORS && Sound(s, j) && Steady(s, j)
    requires i == j ==> t - s.rig.items[i].scheduled > SENSOR_DELAYS[i]
    ensures Steady(Timed(cfg, s, i, t, input), j)
    ensures i == j ==> s.tele.chans[i].ring.written + RECORD_SIZE - s.rig.items[i].nbytesLastSend <= RING_SIZE
  {
    hide Timed, Intact, ChannelAfter, ItemAfter, Records, Readings, Paced, WholeRecords;
    SampleChannels(cfg, s, i, t, input);
    if i == j {
      SteadyChannel(s.tele.chans[i], s.rig.items[i], i, t, input, s.net.connected);
    }
  }

  lemma QuietSteady(cfg: Config, s: State, e: Event, j: nat)
    requires j < SENSORS && Steady(s, j) && !Samples(s, e)
    ensures Steady(Step(cfg, s, e), j)
  {
    hide Step, Paced, WholeRecords;
    QuietTelemetry(cfg, s, e);
    QuietStep(cfg, s, e);
    var k: Slot := j;
    assert Step(cfg, s, e).rig.items[k] == s.rig.items[k];
  }

  lemma StepSteady(cfg: Config, s: State, e: Event, j: nat)
    requires j < SENSORS && Sound(s, j) && Steady(s, j) && Orderly(cfg.engine, s)
    ensures Steady(Step(cfg, s, e), j)
  {
    hide Timed, Sound, Orderly, Proc, Ignition1, StartScan, ScanEntry, NetworkStep, Paced, WholeRecords;
    if Samples(s, e) {
      SoundPopped(s, j);
      SensorDue(cfg.engine, s);
      SampleSteady(cfg, Popped(s), s.q[0].i, s.now + e.input.dt, e.input, j);
    } else {
      QuietSteady(cfg, s, e, j);
    }
  }

  lemma {:induction false} RunSteady(cfg: Config, s: State, es: seq<Event>, j: nat)
    requires Initial(cfg, s) && j < SENSORS && Unknown(cfg.engine, Run(cfg, s, es).trace) <= 1
    ensures Steady(Run(cfg, s, es), j)
  {
    if es == [] {
      var k: Slot := j;
      assert s.rig.items[k] == InitialItem(cfg, k);
      assert InitialChannel(s.tele.chans[j]);
      assert Unsent(s.rig.items[j], 0, SENSOR_DELAYS[j], 0);
    } else {
      hide Sound, Steady, Step, Initial, Unknown, Orderly;
      var s1, e := Run(cfg, s, es[..|es| - 1]), es[|es| - 1];
      StepTrace(cfg, s1, e);
      RunSteady(cfg, s, es[..|es| - 1], j);
      RunSound(cfg, s, es[..|es| - 1], j);
      RunOrderly(cfg, s, es[..|es| - 1]);
      StepSteady(cfg, s1, e, j);
    }
  }

  /** Every frame ever handed over carries whole records, at least one and at most the
      bound its sensor's delay sets: 999, 500 or 25. */
  lemma FrameSizes(cfg: Config, s: State, es: seq<Event>, j: nat, f: Frame)
    requires Initial(cfg, s) && j < SENSORS && Unknown(cfg.engine, Run(cfg, s, es).trace) <= 1
    requires f in Run(cfg, s, es).tele.chans[j].frames
    ensures f.nbytes % RECORD_SIZE == 0
    ensures 1 <= f.nbytes / RECORD_SIZE <= if j == 0 then 999 else if j < 7 then 500 else 25
  {
    hide Run, Initial, Unknown;
    RunSteady(cfg, s, es, j);
    MaxRecordsFit(j);
  }

  // ---------------------------------------------------------------- the log files

  /** No write to a log file fails; short writes are allowed. */
  ghost predicate NoLogFailure(es: seq<Event>) {
    forall e | e in es && e.Worker? :: e.input.disk.Takes?
  }

  predicate LoggedSoFar(s: State, j: nat)
    requires j < SENSORS
  {
    Lossless(s.tele.chans[j], s.rig.items[j])
  }

  lemma SampleLossless(cfg: Config, s: State, i: Slot, t: nat, input: Input, j: nat)
    requires i < SENSORS && j < SENSORS && Sound(s, j) && Steady(s, j) && LoggedSoFar(s, j)
    requires input.disk.Takes? && (i == j ==> t - s.rig.items[i].scheduled > SENSOR_DELAYS[i])
    ensures LoggedSoFar(Timed(cfg, s, i, t, input), j)
  {
    hide Timed, Steady, Intact, ChannelAfter, ItemAfter, Records, Readings;
    SampleChannels(cfg, s, i, t, input);
    if i == j {
      SampleSteady(cfg, s, i, t, input, j);
      TouchIntact(s.tele.chans[i], s.rig.items[i], i, t);
      ChannelLossless(s.tele.chans[i], s.rig.items[i].(scheduled := t), i, t, input, s.net.connected);
    }
  }

  lemma StepLossless(cfg: Config, s: State, e: Event, j: nat)
    requires j < SENSORS && Sound(s, j) && Steady(s, j) && Orderly(cfg.engine, s)
    requires LoggedSoFar(s, j) && (e.Worker? ==> e.input.disk.Takes?)
    ensures LoggedSoFar(Step(cfg, s, e), j)
  {
    hide Timed, Orderly, Proc, Ignition1, StartScan, ScanEntry, NetworkStep, Steady, Sound, Lossless;
    if Samples(s, e) {
      SoundPopped(s, j);
      SensorDue(cfg.engine, s);
      SteadyPopped(s, j);
      SampleLossless(cfg, Popped(s), s.q[0].i, s.now + e.input.dt, e.input, j);
    } else {
      hide Step;
      QuietTelemetry(cfg, s, e);
      QuietStep(cfg, s, e);
      var k: Slot := j;
      assert Step(cfg, s, e).rig.items[k] == s.rig.items[k];
    }
  }

  lemma SteadyPopped(s: State, j: nat)
    requires j < SENSORS && Steady(s, j) && s.q != []
    ensures Steady(Popped(s), j)
  {
  }

  lemma {:induction false} RunLossless(cfg: Config, s: State, es: seq<Event>, j: nat)
    requires Initial(cfg, s) && j < SENSORS && Unknown(cfg.engine, Run(cfg, s, es).trace) <= 1
    requires NoLogFailure(es)
    ensures LoggedSoFar(Run(cfg, s, es), j)
  {
    if es == [] {
      var k: Slot := j;
      assert s.rig.items[k] == InitialItem(cfg, k);
      assert InitialChannel(s.tele.chans[j]);
    } else {
      hide Sound, Steady, Step, Initial, Unknown, Orderly, LoggedSoFar;
      var s1, e := Run(cfg, s, es[..|es| - 1]), es[|es| - 1];
      StepTrace(cfg, s1, e);
      RunLossless(cfg, s, es[..|es| - 1], j);
      RunSteady(cfg, s, es[..|es| - 1], j);
      RunSound(cfg, s, es[..|es| - 1], j);
      RunOrderly(cfg, s, es[..|es| - 1]);
      StepLossless(cfg, s1, e, j);
    }
  }

  /** After every step of every run with at most one unknown byte and no failing log write,
      each channel's log is exactly what was added to its ring up to the last send. */
  lemma LosslessLog(cfg: Config, s: State, es: seq<Event>, j: nat)
    requires Initial(cfg, s) && j < SENSORS && Unknown(cfg.engine, Run(cfg, s, es).trace) <= 1
    requires NoLogFailure(es)
    ensures var s' := Run(cfg, s, es);
      var n := s'.rig.items[j].nbytesLastSend;
      n <= |s'.tele.chans[j].stream| && s'.tele.chans[j].log == s'.tele.chans[j].stream[..n]
  {
    hide Run, Initial, Unknown;
    RunLossless(cfg, s, es, j);
  }

  /** Reading such a log back gives the sensor's readings, in order and complete up to the
      last send. */
  lemma LogDecodes(cfg: Config, s: State, es: seq<Event>, j: nat, k: nat)
    requires Initial(cfg, s) && j < SENSORS && Unknown(cfg.engine, Run(cfg, s, es).trace) <= 1
    requires NoLogFailure(es)
    requires RECORD_SIZE * (k + 1) <= |Run(cfg, s, es).tele.chans[j].log|
    ensures var rs := Readings(Run(cfg, s, es).trace, j);
      k < |rs| && (Fits(rs[k]) ==> ReadingAt(Run(cfg, s, es).tele.chans[j].log, k) == rs[k])
  {
    hide Run, Initial, Unknown, NoLogFailure;
    LosslessLog(cfg, s, es, j);
    RunSound(cfg, s, es, j);
    DecodePrefix(Readings(Run(cfg, s, es).trace, j), Run(cfg, s, es).tele.chans[j].log, k);
  }

  lemma DecodePrefix(rs: seq<Reading>, log: seq<byte>, k: nat)
    requires |log| <= |Records(rs)| && log == Records(rs)[..|log|]
    requires RECORD_SIZE * (k + 1) <= |log|
    ensures k < |rs| && (Fits(rs[k]) ==> ReadingAt(log, k) == rs[k])
  {
    hide Records, Fits, FromLittleEndian;
    var from := RECORD_SIZE * k;
    assert log[from..from + RECORD_SIZE] == Records(rs)[from..from + RECORD_SIZE];
    if Fits(rs[k]) {
      RecordsRoundTrip(rs, k);
    }
  }
}
