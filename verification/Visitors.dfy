/** The worker's visitor (visitor/worker_visitor, luna_visitor, titan_visitor) as one object
    that updates its fields, the table, the pins, the rings and the queues in place. A virtual
    call dispatches on the configured engine. Clock readings, ADC readings and the outcome of
    opening a log file are parameters. */
module Visitors {
  import opened Types
  import opened CircularBuffers
  import opened Wire
  import opened SafeQueues
  import opened TimedItems
  import opened BuffLogger
  import opened NetworkWorkers
  import opened Controller
  import opened ScanLoop

  class Gpio {
    var pins: Pins

    constructor (pins: Pins)
      ensures this.pins == pins
    {
      this.pins := pins;
    }

    method Write(pin: Pin, high: bool, via: Writer)
      modifies this
      ensures pins == old(pins).Write(pin, high, via)
    {
      pins := pins.Write(pin, high, via);
    }
  }

  /** The levels both pin initialisations leave. */
  const BOOT_PINS: Pins := Pins(Level(LOW, Boot), Level(LOW, Boot), Level(LOW, Boot), Level(HIGH, Boot))

  class Visitor {
    const cfg: Config
    const qw: SafeQueue<Work>
    const qn: SafeQueue<NetItem>
    const nw: NetworkWorker
    const gpio: Gpio
    const tiList: TimedItemList
    const buffers: seq<CircularBuffer>
    const logs: seq<Sink>

    var now: nat
    var startTimeNitr: nat
    var pressureAvg: real
    var burnOn: bool
    var gitvcOn: bool
    var gitvcCount: nat

    ghost var trace: seq<Obs>
    ghost var streams: seq<seq<byte>>
    ghost var frames: seq<seq<Frame>>

    /** The objects are apart from one another. */
    ghost predicate Wired() {
      && |buffers| == |logs| == SENSORS
      && (forall i | 0 <= i < SENSORS :: buffers[i].Valid())
      && (forall i, j | 0 <= i < j < SENSORS :: buffers[i] != buffers[j] && buffers[i].data != buffers[j].data && logs[i] != logs[j])
      && qw.nullItem == WqNone
      && nw.qn == qn && nw.socket !in logs
    }

    ghost predicate Valid()
      reads `streams, `frames, tiList, tiList.tis
    {
      Wired() && tiList.Valid() && |streams| == |frames| == SENSORS
    }

    ghost function RigModel(): Rig
      requires tiList.Valid()
      reads this, gpio, tiList, tiList.tis
    {
      Rig(tiList.tis[..], gpio.pins, burnOn, startTimeNitr, gitvcOn, gitvcCount)
    }

    /** The rings, logs and frames of the ten channels. */
    ghost function Chans(): Channels
      requires Valid()
      reads `streams, `frames, tiList, tiList.tis, buffers, set b | b in buffers :: b.data, logs
    {
      var streams, frames := streams, frames;
      seq(SENSORS, i requires 0 <= i < SENSORS && Wired() && |streams| == |frames| == SENSORS
          reads buffers, set b | b in buffers :: b.data, logs
          => Channel(buffers[i].Model(), streams[i], logs[i].out, frames[i]))
    }

    /** The transition system's state that these objects stand for. */
    ghost function Model(): State
      requires Valid()
      reads this, gpio, tiList, tiList.tis, buffers, set b | b in buffers :: b.data, logs, qw, nw, qn
    {
      State(now, Poll, qw.q, RigModel(), Telemetry(pressureAvg, Chans()), nw.Model(NetPoll), trace)
    }

    /** Sensor i's log file opens and every write to it makes progress. */
    ghost predicate LogTakes(i: Slot, canOpen: bool)
      requires Wired()
      reads logs
    {
      i < SENSORS && canOpen && AtLeast(logs[i].results, 1)
    }

    /** Every write to a log file makes progress. */
    ghost predicate LogsProgress()
      reads logs
    {
      forall l | l in logs :: AtLeast(l.results, 1)
    }

    constructor (cfg: Config, qw: SafeQueue<Work>, qn: SafeQueue<NetItem>, nw: NetworkWorker,
                 gpio: Gpio, buffers: seq<CircularBuffer>, logs: seq<Sink>)
      requires |buffers| == |logs| == SENSORS && qw.nullItem == WqNone && nw.qn == qn && nw.socket !in logs
      requires forall i | 0 <= i < SENSORS :: buffers[i].Valid()
      requires forall i, j | 0 <= i < j < SENSORS :: buffers[i] != buffers[j] && buffers[i].data != buffers[j].data && logs[i] != logs[j]
      ensures Valid() && fresh(tiList) && fresh(tiList.tis)
      ensures this.cfg == cfg && this.qw == qw && this.qn == qn && this.nw == nw && this.gpio == gpio
      ensures this.buffers == buffers && this.logs == logs
      ensures now == 0 && pressureAvg == 700.0 && trace == []
      ensures forall i | 0 <= i < SENSORS :: streams[i] == [] && frames[i] == []
      ensures gpio.pins == BOOT_PINS ==> InitialRig(cfg, RigModel())
    {
      this.cfg, this.qw, this.qn, this.nw, this.gpio := cfg, qw, qn, nw, gpio;
      this.buffers, this.logs := buffers, logs;
      var list := NewTable(cfg);
      tiList := list;
      now, startTimeNitr, pressureAvg := 0, 0, 700.0;
      burnOn, gitvcOn, gitvcCount := false, false, 0;
      trace := [];
      streams, frames := seq(SENSORS, _ => []), seq(SENSORS, _ => []);
    }

    /** A new table with the three firing delays set. */
    static method NewTable(cfg: Config) returns (list: TimedItemList)
      ensures fresh(list) && fresh(list.tis) && list.Valid()
      ensures forall i: Slot :: list.tis[..][i] == InitialItem(cfg, i)
    {
      hide InTableOrder, FreshItem, InitialItem;
      list := new TimedItemList();
      ghost var items := list.tis[..];
      DelaysSet(cfg, items);
      SetFiringDelay(list, Ign2, cfg.preigniteUs);
      SetFiringDelay(list, Ign3, cfg.hotflowUs);
      SetFiringDelay(list, Gitvc, cfg.gitvcWaitTime);
      assert list.tis[..] == WithDelays(cfg, items);
    }

    static ghost function WithDelays(cfg: Config, items: Table): Table {
      var items1 := items[IGN2 := items[IGN2].(timeDelay := cfg.preigniteUs)];
      var items2 := items1[IGN3 := items1[IGN3].(timeDelay := cfg.hotflowUs)];
      items2[GITVC := items2[GITVC].(timeDelay := cfg.gitvcWaitTime)]
    }

    /** The three firing delays complete the table. */
    static lemma DelaysSet(cfg: Config, items: Table)
      requires forall i: Slot :: items[i] == FreshItem(i)
      ensures forall i: Slot :: WithDelays(cfg, items)[i] == InitialItem(cfg, i)
    {
      forall i: Slot ensures WithDelays(cfg, items)[i] == InitialItem(cfg, i) {
        assert items[i] == FreshItem(i);
      }
    }

    static method SetFiringDelay(list: TimedItemList, a: Action, d: nat)
      requires list.Valid()
      modifies list.tis
      ensures list.Valid()
      ensures list.tis[..] == old(list.tis[..])[SlotOf(a) := old(list.tis[SlotOf(a)]).(timeDelay := d)]
    {
      FindIsSlot(list.tis[..], a);
      list.SetDelay(a, d);
    }

    // -------------------------------------------------------------- commands

    method WorkerVisitProc(c: byte)
      requires Valid()
      modifies gpio, qw
      ensures gpio.pins == BasePins(old(gpio.pins), c)
      ensures qw.q == old(qw.q) +
              if c == IGN_NORMAL then [WqIgn1] else if UNSET_VALVE <= c < IGN_NORMAL then [] else [WqNone]
    {
      if c == UNSET_VALVE {
        gpio.Write(MAIN_VALVE, LOW, Command);
      } else if c == SET_VALVE {
        gpio.Write(MAIN_VALVE, HIGH, Command);
      } else if c == UNSET_IGNITION {
        gpio.Write(IGN_START, LOW, Command);
        gpio.Write(MAIN_VALVE, LOW, Command);
      } else if c == SET_IGNITION {
        gpio.Write(IGN_START, HIGH, Command);
      } else if c == IGN_NORMAL {
        qw.Enqueue(WqIgn1);
      } else {
        qw.Enqueue(WqNone);
      }
    }

    method LunaVisitProc(c: byte)
      requires Valid()
      modifies gpio, qw
      ensures gpio.pins == PinsAfter(Luna, old(gpio.pins), c)
      ensures qw.q == old(qw.q) + FollowUp(Luna, c)
    {
      if c == SET_WATER {
        gpio.Write(WATER_VALVE, HIGH, Command);
      } else if c == UNSET_WATER {
        gpio.Write(WATER_VALVE, LOW, Command);
      } else if c == SET_GITVC {
        gpio.Write(GITVC_VALVE, LOW, Command);
      } else if c == UNSET_GITVC {
        gpio.Write(GITVC_VALVE, HIGH, Command);
      } else {
        WorkerVisitProc(c);
      }
    }

    method SetPreset(main: bool, vent: bool, tank: bool)
      modifies gpio
      ensures gpio.pins == Preset(old(gpio.pins), main, vent, tank)
    {
      gpio.Write(MAIN_VALVE, main, Command);
      gpio.Write(WATER_VALVE, vent, Command);
      gpio.Write(GITVC_VALVE, tank, Command);
    }

    method TitanVisitProc(c: byte)
      requires Valid()
      modifies gpio, qw
      ensures gpio.pins == PinsAfter(Titan, old(gpio.pins), c)
      ensures qw.q == old(qw.q) + FollowUp(Titan, c)
    {
      if c == SET_WATER {
        gpio.Write(WATER_VALVE, LOW, Command);
      } else if c == UNSET_WATER {
        gpio.Write(WATER_VALVE, HIGH, Command);
      } else if c == LEAK_CHECK {
        SetPreset(HIGH, HIGH, HIGH);
      } else if c == FILL {
        SetPreset(HIGH, HIGH, LOW);
      } else if c == FILL_IDLE {
        SetPreset(LOW, HIGH, HIGH);
      } else if c == DEF {
        SetPreset(LOW, LOW, HIGH);
      } else {
        WorkerVisitProc(c);
      }
    }

    method VisitProc(c: byte)
      requires Valid()
      modifies gpio, qw
      ensures gpio.pins == PinsAfter(cfg.engine, old(gpio.pins), c)
      ensures qw.q == old(qw.q) + FollowUp(cfg.engine, c)
    {
      if cfg.engine.Luna? {
        LunaVisitProc(c);
      } else {
        TitanVisitProc(c);
      }
    }

    // -------------------------------------------------------------- ignition and GITVC

    method SetPin(pin: Pin, high: bool, via: Writer)
      requires tiList.Valid()
      modifies gpio
      ensures tiList.Valid() && RigModel() == WritePin(old(RigModel()), pin, high, via)
    {
      gpio.Write(pin, high, via);
    }

    method EnableItem(ti: Action, t: nat)
      requires tiList.Valid()
      modifies tiList.tis
      ensures tiList.Valid() && RigModel() == Enable(old(RigModel()), SlotOf(ti), t)
    {
      FindIsSlot(tiList.tis[..], ti);
      tiList.Enable(ti, t);
    }

    method DisableItem(ti: Action)
      requires tiList.Valid()
      modifies tiList.tis
      ensures tiList.Valid() && RigModel() == Disable(old(RigModel()), SlotOf(ti))
    {
      FindIsSlot(tiList.tis[..], ti);
      tiList.Disable(ti);
    }

    method SetItemDelay(ti: Action, d: nat)
      requires tiList.Valid()
      modifies tiList.tis
      ensures tiList.Valid() && RigModel() == SetDelay(old(RigModel()), SlotOf(ti), d)
    {
      FindIsSlot(tiList.tis[..], ti);
      tiList.SetDelay(ti, d);
    }

    method VisitIgn(t: nat)
      requires tiList.Valid()
      modifies `now, gpio, tiList.tis
      ensures tiList.Valid() && now == t && RigModel() == Ignite(cfg, old(RigModel()), t)
    {
      hide Enable, Disable, SetDelay, WritePin, InTableOrder;
      now := t;
      if cfg.ignitionOn {
        SetPin(IGN_START, HIGH, Ignition);
      }
      SetItemDelay(Ign2, cfg.preigniteUs);
      EnableItem(Ign2, t);
      SetItemDelay(Ign3, cfg.hotflowUs);
    }

    method LunaIgn2(t: nat)
      requires tiList.Valid()
      modifies `burnOn, `startTimeNitr, `gitvcOn, gpio, tiList.tis
      ensures tiList.Valid() && RigModel() == LunaFire2(cfg, old(RigModel()), t)
    {
      hide Enable, Disable, SetDelay, WritePin, InTableOrder;
      DisableItem(Ign2);
      EnableItem(Ign3, t);
      SetPin(MAIN_VALVE, HIGH, Schedule);
      startTimeNitr := t;
      burnOn := true;
      if cfg.useGitvc && |cfg.gitvcTimes| > gitvcCount {
        EnableItem(Gitvc, t);
        gitvcOn := false;
      }
    }

    method LunaIgn3()
      requires tiList.Valid()
      modifies `burnOn, `gitvcCount, gpio, tiList.tis
      ensures tiList.Valid() && RigModel() == LunaFire3(old(RigModel()))
    {
      hide Enable, Disable, SetDelay, WritePin, InTableOrder;
      burnOn := false;
      SetPin(MAIN_VALVE, LOW, Schedule);
      DisableItem(Ign3);
      SetPin(IGN_START, LOW, Schedule);
      DisableItem(Gitvc);
      gitvcCount := INT_MAX;
      SetPin(GITVC_VALVE, HIGH, Schedule);
      SetPin(WATER_VALVE, LOW, Schedule);
    }

    method LunaGitvc(t: nat)
      requires tiList.Valid()
      modifies `gitvcOn, `gitvcCount, gpio, tiList.tis
      ensures tiList.Valid() && RigModel() == LunaPulse(cfg, old(RigModel()), t)
    {
      hide Enable, Disable, SetDelay, WritePin, InTableOrder;
      if gitvcOn {
        SetPin(GITVC_VALVE, HIGH, Schedule);
        gitvcOn := false;
        SetItemDelay(Gitvc, cfg.timeBetweenGitvc);
        EnableItem(Gitvc, t);
      } else if |cfg.gitvcTimes| > gitvcCount && burnOn {
        SetPin(GITVC_VALVE, LOW, Schedule);
        gitvcOn := true;
        SetItemDelay(Gitvc, cfg.gitvcTimes[gitvcCount]);
        EnableItem(Gitvc, t);
        gitvcCount := gitvcCount + 1;
      }
    }

    method TitanIgn2(t: nat)
      requires tiList.Valid()
      modifies `burnOn, `startTimeNitr, gpio, tiList.tis
      ensures tiList.Valid() && RigModel() == TitanFire2(old(RigModel()), t)
    {
      hide Enable, Disable, SetDelay, WritePin, InTableOrder;
      DisableItem(Ign2);
      EnableItem(Ign3, t);
      SetPin(MAIN_VALVE, LOW, Schedule);
      SetPin(VENT, LOW, Schedule);
      SetPin(TANK, HIGH, Schedule);
      startTimeNitr := t;
      burnOn := true;
    }

    method TitanIgn3()
      requires tiList.Valid()
      modifies `burnOn, gpio, tiList.tis
      ensures tiList.Valid() && RigModel() == TitanFire3(old(RigModel()))
    {
      hide Enable, Disable, SetDelay, WritePin, InTableOrder;
      burnOn := false;
      DisableItem(Ign3);
      SetPin(IGN_START, LOW, Schedule);
    }

    /** luna_visitor::visitTimed for items without a ring, by action. */
    method LunaFireTimed(i: Slot, t: nat)
      requires tiList.Valid() && i >= SENSORS && cfg.engine.Luna?
      modifies `burnOn, `startTimeNitr, `gitvcOn, `gitvcCount, gpio, tiList.tis
      ensures tiList.Valid() && RigModel() == Fire(cfg, old(RigModel()), i, t)
    {
      hide LunaFire2, LunaFire3, LunaPulse;
      var action := tiList.tis[i].action;
      if action == Ign2 {
        LunaIgn2(t);
      }
      if action == Ign3 {
        LunaIgn3();
      }
      if action == Gitvc {
        LunaGitvc(t);
      }
    }

    /** titan_visitor::visitTimed for items without a ring, by action. */
    method TitanFireTimed(i: Slot, t: nat)
      requires tiList.Valid() && i >= SENSORS && cfg.engine.Titan?
      modifies `burnOn, `startTimeNitr, gpio, tiList.tis
      ensures tiList.Valid() && RigModel() == Fire(cfg, old(RigModel()), i, t)
    {
      hide TitanFire2, TitanFire3;
      var action := tiList.tis[i].action;
      if action == Ign2 {
        TitanIgn2(t);
      }
      if action == Ign3 {
        TitanIgn3();
      }
    }

    method FireTimed(i: Slot, t: nat)
      requires Valid() && i >= SENSORS
      modifies `burnOn, `startTimeNitr, `gitvcOn, `gitvcCount, gpio, tiList.tis
      ensures Valid() && RigModel() == Fire(cfg, old(RigModel()), i, t) && Chans() == old(Chans())
    {
      hide Fire, InTableOrder;
      if cfg.engine.Luna? {
        LunaFireTimed(i, t);
      } else {
        TitanFireTimed(i, t);
      }
    }

    // -------------------------------------------------------------- the scan

    /** The loop's bound is 20, but it stops at the thirteenth entry. */
    method CheckTiList(t: nat)
      requires Valid()
      modifies qw
      ensures qw.q == old(qw.q) + DueFrom(tiList.tis[..], t, 0)
    {
      hide DueFrom;
      var i, tiSeen := 0, 0;
      while i < MAX_TIMED_LIST_LEN && tiSeen < TI_COUNT
        invariant 0 <= i == tiSeen <= TI_COUNT
        invariant qw.q + DueFrom(tiList.tis[..], t, i) == old(qw.q) + DueFrom(tiList.tis[..], t, 0)
      {
        tiSeen := tiSeen + 1;
        DueStep(tiList.tis[..], t, i);
        if Due(tiList.tis[i], t) {
          qw.Enqueue(WqTimed(i));
        }
        i := i + 1;
      }
      NothingLeft(tiList.tis[..], t);
    }

    static lemma NothingLeft(items: Table, t: nat)
      ensures DueFrom(items, t, TI_COUNT) == []
    {
    }

    method VisitNone(t: nat)
      requires Valid()
      modifies `now, qw
      ensures now == t && qw.q == old(qw.q) + DueFrom(tiList.tis[..], t, 0)
    {
      now := t;
      CheckTiList(t);
    }

    // -------------------------------------------------------------- sampling

    /** The record joins sensor i's ring. */
    method AddRecord(i: Slot, rec: seq<byte>)
      requires Valid() && i < SENSORS
      modifies `streams, buffers[i], buffers[i].data
      ensures Valid()
      ensures Chans() == old(Chans())[i := Recorded(old(Chans())[i], rec)]
    {
      hide Add;
      ghost var before := Chans();
      buffers[i].AddData(rec);
      streams := streams[i := streams[i] + rec];
      forall j | 0 <= j < SENSORS ensures Chans()[j] == before[i := Recorded(before[i], rec)][j] {
        if j != i {
          Apart(i, j);
        }
      }
    }

    lemma Apart(i: nat, j: nat)
      requires Wired() && i < SENSORS && j < SENSORS && i != j
      ensures buffers[i] != buffers[j] && buffers[i].data != buffers[j].data && logs[i] != logs[j]
    {
    }

    /** The n bytes from offset are dumped to sensor i's log file; disk tells how it went. */
    method Dump(i: Slot, n: nat, offset: nat, canOpen: bool) returns (ghost disk: Disk)
      requires Valid() && i < SENSORS
      modifies logs
      ensures Valid()
      ensures var ch := old(Chans())[i];
        Chans() == old(Chans())[i := ch.(log := ch.log + Logged(ch.ring, n, offset, disk))]
      ensures old(LogTakes(i, canOpen)) ==> disk.Takes?
      ensures old(LogsProgress()) ==> LogsProgress()
    {
      hide WriteData, Logged, LogOutcome, AtLeast;
      ghost var before := Chans();
      ghost var ring, results := buffers[i].Model(), logs[i].results;
      disk := LogOutcome(ring, n, offset, results, canOpen);
      LoggedIs(ring, n, offset, results, canOpen);
      if AtLeast(results, 1) {
        RestAtLeast(ring, n, offset, results, 1);
      }
      CodesDiffer();
      assert logs[i] in logs && before[i].log + [] == before[i].log;
      var ret := WriteBuff(buffers[i], SEND_CODES[i], n, offset, logs, canOpen);
      assert logs[i].out == before[i].log + Logged(ring, n, offset, disk);
      forall j | 0 <= j < SENSORS && j != i ensures Chans()[j] == before[j] {
        Apart(i, j);
        assert logs[j] in logs;
      }
    }

    /** How a dump ends: complete, or after the bytes that got through. */
    static ghost function LogOutcome(ring: Ring, n: nat, offset: nat, results: seq<int>, canOpen: bool): Disk
      requires ring.Valid()
    {
      var o := WriteData(ring, n, offset, results);
      if !canOpen then FailsAfter(0) else if |o.emitted| == n then Takes else FailsAfter(|o.emitted|)
    }

    static lemma LoggedIs(ring: Ring, n: nat, offset: nat, results: seq<int>, canOpen: bool)
      requires ring.Valid()
      ensures var disk := LogOutcome(ring, n, offset, results, canOpen);
        && Logged(ring, n, offset, disk) == (if canOpen then WriteData(ring, n, offset, results).emitted else [])
        && (canOpen && AtLeast(results, 1) ==> disk.Takes?)
    {
      hide WriteData;
      WriteDataEmits(ring, n, offset, results);
      assert Cyclic(ring, 0, offset) == [];
      if forall k | k in results :: k > 0 {
        WriteDataComplete(ring, n, offset, results);
      }
    }

    static lemma CodesDiffer()
      ensures forall i, j | 0 <= i < j < SENSORS :: SEND_CODES[i] != SEND_CODES[j]
    {
    }

    /** The bookkeeping of a send, and the frame for the network when someone is connected. */
    method QueueFrame(i: Slot, t: nat) returns (f: Frame)
      requires Valid() && i < SENSORS
      modifies `frames, tiList.tis, qn
      ensures Valid()
      ensures var it, ch := old(tiList.tis[i]), old(Chans())[i];
        && f == SendFrame(it, i, ch.ring.written, t, old(nw.connected))
        && Chans() == old(Chans())[i := ch.(frames := ch.frames + [f])]
        && tiList.tis[..] == old(tiList.tis[..])[i := it.(nbytesLastSend := ch.ring.written, lastSend := t)]
        && qn.q == if f.queued then old(qn.q) + [NqSend(f)] else old(qn.q)
    {
      var it := tiList.tis[i];
      var bw := buffers[i].bytesWritten;
      var n := Minus(bw, it.nbytesLastSend);
      f := Frame(i, it.nbytesLastSend, n, nw.connected && n > 0, t);
      tiList.tis[i] := it.(nbytesLastSend := bw, lastSend := t);
      frames := frames[i := frames[i] + [f]];
      if f.queued {
        qn.Enqueue(NqSend(f));
      }
    }

    /** The send: the frame, then the dump of the same interval to the log. */
    method SendData(i: Slot, t: nat, canOpen: bool) returns (ghost disk: Disk)
      requires Valid() && i < SENSORS
      modifies `frames, tiList.tis, qn, logs
      ensures Valid()
      ensures var it, ch := old(tiList.tis[i]), old(Chans())[i];
        var f := SendFrame(it, i, ch.ring.written, t, old(nw.connected));
        && Chans() == old(Chans())[i := HandOver(ch, f, disk)]
        && tiList.tis[..] == old(tiList.tis[..])[i := it.(nbytesLastSend := ch.ring.written, lastSend := t)]
        && qn.q == if f.queued then old(qn.q) + [NqSend(f)] else old(qn.q)
      ensures old(LogTakes(i, canOpen)) ==> disk.Takes?
      ensures old(LogsProgress()) ==> LogsProgress()
    {
      hide Logged, SendFrame, InTableOrder, Chans, LogTakes, LogsProgress;
      var f := QueueFrame(i, t);
      disk := Dump(i, f.nbytes, f.offset, canOpen);
    }

    /** What storing one reading of sensor i does to channels, table and network queue. */
    static ghost predicate Stored(chans: Channels, chans': Channels, items: Table, items': Table,
                                  qn: seq<NetItem>, qn': seq<NetItem>, i: Slot, t: nat, input: Input, connected: bool)
    {
      i < SENSORS &&
      var it, ch := items[i], chans[i];
      var f := SendFrame(it, i, ch.ring.written + RECORD_SIZE, t, connected);
      && chans' == chans[i := ChannelAfter(ch, it, i, t, input, connected)]
      && items' == (if Sends(it, t)
                    then items[i := it.(nbytesLastSend := ch.ring.written + RECORD_SIZE, lastSend := t)]
                    else items)
      && qn' == (if Sends(it, t) && f.queued then qn + [NqSend(f)] else qn)
    }

    /** add_data, and the send once SEND_TIME has passed. */
    method StoreReading(i: Slot, t: nat, adc: nat, canOpen: bool) returns (ghost disk: Disk)
      requires Valid() && i < SENSORS
      modifies `streams, `frames, tiList.tis, buffers[i], buffers[i].data, qn, logs
      ensures Valid()
      ensures Stored(old(Chans()), Chans(), old(tiList.tis[..]), tiList.tis[..], old(qn.q), qn.q,
                     i, t, Input(0, adc, disk), old(nw.connected))
      ensures old(LogTakes(i, canOpen)) ==> disk.Takes?
      ensures old(LogsProgress()) ==> LogsProgress()
    {
      hide Recorded, HandOver, SendFrame, Record, InTableOrder, Chans, LogTakes, LogsProgress;
      ghost var before := Chans();
      RecordedWritten(before[i], Record(Reading(adc, t)));
      disk := Takes;
      AddRecord(i, Record(Reading(adc, t)));
      if t - tiList.tis[i].lastSend > SEND_TIME {
        disk := SendData(i, t, canOpen);
      }
    }

    static lemma RecordedWritten(ch: Channel, rec: seq<byte>)
      requires ch.ring.Valid()
      ensures Recorded(ch, rec).ring.written == ch.ring.written + |rec|
    {
    }

    static lemma WatchedSlot(items: Table, i: Slot)
      requires InTableOrder(items)
      ensures items[i].action == PtComb <==> i == PT_COMB
    {
    }

    /** The cut-off's own actions. */
    method ShutOff()
      requires tiList.Valid()
      modifies `burnOn, gpio
      ensures RigModel() == CutOff(old(RigModel()))
    {
      gpio.Write(MAIN_VALVE, LOW, Cutoff);
      gpio.Write(IGN_START, LOW, Cutoff);
      gpio.Write(GITVC_VALVE, HIGH, Cutoff);
      burnOn := false;
    }

    /** The pressure cut-off on one reading of item i. */
    method Watch(i: Slot, t: nat, adc: nat) returns (tripped: bool)
      requires Valid()
      modifies `pressureAvg, `burnOn, gpio
      ensures Valid()
      ensures pressureAvg == AverageAfter(cfg, old(pressureAvg), i, adc)
      ensures tripped == Trips(cfg, old(RigModel()), pressureAvg, i, t)
      ensures RigModel() == if tripped then CutOff(old(RigModel())) else old(RigModel())
      ensures Chans() == old(Chans())
    {
      hide CutOff, InTableOrder;
      tripped := false;
      WatchedSlot(tiList.tis[..], i);
      if tiList.tis[i].action == PtComb && cfg.pressureShutoff {
        var ptCal := cfg.pressureSlope * adc as real + cfg.pressureYint;
        pressureAvg := pressureAvg * 0.95 + ptCal * 0.05;
        if (pressureAvg > cfg.pressureMax as real || pressureAvg < cfg.pressureMin as real) && burnOn {
          if t - startTimeNitr > CUTOFF_DELAY {
            tripped := true;
            ShutOff();
          }
        }
      }
    }

    /** visitTimed reads the clock and notes the time in the item. */
    method NoteTime(i: Slot, t: nat)
      requires Valid()
      modifies `now, tiList.tis
      ensures Valid() && now == t && RigModel() == Touch(old(RigModel()), i, t) && Chans() == old(Chans())
    {
      now := t;
      tiList.tis[i] := tiList.tis[i].(scheduled := t);
    }

    /** The reading stored, as the transition system sees it. */
    method StoreSample(i: Slot, t: nat, adc: nat, canOpen: bool) returns (ghost disk: Disk)
      requires Valid() && i < SENSORS
      modifies `streams, `frames, tiList.tis, buffers[i], buffers[i].data, qn, logs
      ensures Valid()
      ensures Model() == Store(old(Model()), i, t, Input(0, adc, disk))
      ensures old(LogTakes(i, canOpen)) ==> disk.Takes?
      ensures old(LogsProgress()) ==> LogsProgress()
    {
      hide Stored, InTableOrder, Store, Chans, LogTakes, LogsProgress;
      ghost var s0 := Model();
      disk := StoreReading(i, t, adc, canOpen);
      StoreParts(s0, Model(), i, t, Input(0, adc, disk));
    }

    /** The parts a stored reading leaves, put together. */
    static lemma StoreParts(s: State, s': State, i: Slot, t: nat, input: Input)
      requires s'.rig == s.rig.(items := s'.rig.items) && s'.net == s.net.(qn := s'.net.qn)
      requires s' == s.(tele := s.tele.(chans := s'.tele.chans), rig := s'.rig, net := s'.net)
      requires Stored(s.tele.chans, s'.tele.chans, s.rig.items, s'.rig.items, s.net.qn, s'.net.qn, i, t, input, s.net.connected)
      ensures s' == Store(s, i, t, input)
    {
      hide ChannelAfter, SendFrame;
    }

    /** The cut-off's part of a sample, as the transition system sees it. */
    method WatchSample(i: Slot, t: nat, adc: nat) returns (tripped: bool)
      requires Valid()
      modifies `pressureAvg, `burnOn, `trace, gpio
      ensures Valid()
      ensures var s, avg := old(Model()), AverageAfter(cfg, old(pressureAvg), i, adc);
        && tripped == Trips(cfg, s.rig, avg, i, t)
        && Model() == s.(tele := s.tele.(pressureAvg := avg), rig := if tripped then CutOff(s.rig) else s.rig,
                         trace := s.trace + [Sampled(i, t, adc, tripped)])
    {
      hide AverageAfter, Trips, CutOff, InTableOrder;
      tripped := Watch(i, t, adc);
      trace := trace + [Sampled(i, t, adc, tripped)];
    }

    /** worker_visitor::visitTimed of a sensor, after the time has been noted. */
    method WorkerVisitTimed(i: Slot, t: nat, adc: nat, canOpen: bool) returns (ghost disk: Disk)
      requires Valid() && i < SENSORS
      modifies `pressureAvg, `burnOn, `streams, `frames, `trace, gpio, tiList.tis, buffers[i], buffers[i].data, qn, logs
      ensures Valid()
      ensures Model() == Sample(cfg, old(Model()), i, t, Input(0, adc, disk))
      ensures old(LogTakes(i, canOpen)) ==> disk.Takes?
      ensures old(LogsProgress()) ==> LogsProgress()
    {
      hide AverageAfter, Trips, CutOff, InTableOrder, Sample, Store, Chans, LogTakes, LogsProgress;
      ghost var s0 := Model();
      var tripped := WatchSample(i, t, adc);
      disk := StoreSample(i, t, adc, canOpen);
      SampleParts(cfg, s0, i, t, Input(0, adc, disk));
    }

    /** A sample may note its history entry before it stores the reading. */
    static lemma SampleParts(cfg: Config, s: State, i: Slot, t: nat, input: Input)
      requires i < SENSORS
      ensures var avg := AverageAfter(cfg, s.tele.pressureAvg, i, input.adc);
        var trips := Trips(cfg, s.rig, avg, i, t);
        Sample(cfg, s, i, t, input) ==
        Store(s.(tele := s.tele.(pressureAvg := avg), rig := if trips then CutOff(s.rig) else s.rig,
                 trace := s.trace + [Sampled(i, t, input.adc, trips)]), i, t, input)
    {
      hide ChannelAfter, SendFrame, AverageAfter, Trips, CutOff;
    }

    // -------------------------------------------------------------- visits

    lemma ProgressTakes(i: Slot, canOpen: bool)
      requires Wired()
      ensures canOpen && i < SENSORS && LogsProgress() ==> LogTakes(i, canOpen)
    {
    }

    method VisitTimed(i: Slot, t: nat, adc: nat, canOpen: bool) returns (ghost disk: Disk)
      requires Valid()
      modifies this, gpio, tiList.tis, buffers, set b | b in buffers :: b.data, qn, logs
      ensures Valid() && now == t
      ensures Model() == Timed(cfg, old(Model()), i, t, Input(0, adc, disk))
      ensures old(LogTakes(i, canOpen)) ==> disk.Takes?
      ensures canOpen && old(LogsProgress()) ==> disk.Takes?
      ensures old(LogsProgress()) ==> LogsProgress()
    {
      hide Touch, Sample, Fire, FireObs, Chans, InTableOrder, LogTakes, LogsProgress;
      ProgressTakes(i, canOpen);
      NoteTime(i, t);
      if i < SENSORS {
        disk := WorkerVisitTimed(i, t, adc, canOpen);
      } else {
        disk := Takes;
        ghost var o := FireObs(cfg, RigModel(), i, t);
        FireTimed(i, t);
        trace := trace + [o];
      }
    }

    /** A timed visit depends on its input only through the reading and the disk. */
    static lemma TimedInput(cfg: Config, s: State, i: Slot, t: nat, dt: nat, adc: nat, disk: Disk)
      ensures Timed(cfg, s, i, t, Input(dt, adc, disk)) == Timed(cfg, s, i, t, Input(0, adc, disk))
    {
      hide Fire, FireObs, Touch, CutOff, AverageAfter, Trips, Record, Logged;
    }

    /** Only the visit of no item starts a scan. */
    static lemma OtherVisits(cfg: Config, s: State, x: Work, input: Input)
      requires s.pc.Poll? && x != WqNone
      ensures var s' := Controller.Visit(cfg, s, x, input); Settle(s') == s'
    {
      hide Fire, FireObs, ChannelAfter, SendFrame, Ignite, PinsAfter, FollowUp, AverageAfter, Trips;
      SettlePoll(Controller.Visit(cfg, s, x, input));
    }

    lemma Polling()
      requires Valid()
      ensures Model().now == now && Model().pc.Poll?
    {
    }

    /** A command's visit. */
    method OnProcess(c: byte)
      requires Valid()
      modifies gpio, qw, `trace
      ensures Valid() && Model() == Proc(cfg, old(Model()), c)
    {
      hide PinsAfter, FollowUp, InTableOrder;
      VisitProc(c);
      trace := trace + [Commanded(c)];
    }

    /** An ign1 item's visit. */
    method OnIgn1(t: nat)
      requires Valid()
      modifies `now, `trace, gpio, tiList.tis
      ensures Valid() && now == t && Model() == Ignition1(cfg, old(Model()), t)
    {
      hide Ignite, InTableOrder;
      VisitIgn(t);
      trace := trace + [Ignited(t)];
    }

    /** A visit of no item: the whole scan. */
    method OnNone(t: nat)
      requires Valid()
      modifies `now, `trace, qw
      ensures Valid() && now == t && Model() == Settle(StartScan(old(Model()), t))
    {
      hide Settle, DueFrom, InTableOrder;
      ghost var s0 := Model();
      SettleIsScan(StartScan(s0, t));
      VisitNone(t);
      trace := trace + [Polled(t)];
    }

    /** worker_visitor::visit; a scan runs through undisturbed. */
    method Visit(item: Work, t: nat, adc: nat, canOpen: bool) returns (ghost disk: Disk)
      requires Valid() && t >= now
      modifies this, gpio, tiList.tis, buffers, set b | b in buffers :: b.data, qn, qw, logs
      ensures Valid()
      ensures Model() == Settle(Controller.Visit(cfg, old(Model()), item, Input(t - old(now), adc, disk)))
      ensures now == if item.WqProcess? then old(now) else t
      ensures item.WqTimed? && old(LogTakes(item.i, canOpen)) ==> disk.Takes?
      ensures canOpen && old(LogsProgress()) ==> disk.Takes?
      ensures old(LogsProgress()) ==> LogsProgress()
    {
      hide Proc, Timed, Ignition1, StartScan, Settle, Model, Valid, LogTakes, LogsProgress;
      ghost var s0 := Model();
      Polling();
      if item != WqNone {
        OtherVisits(cfg, s0, item, Input(t - s0.now, adc, Takes));
      }
      disk := Takes;
      match item
      case WqProcess(c) =>
        OnProcess(c);
      case WqTimed(i) =>
        disk := VisitTimed(i, t, adc, canOpen);
        TimedInput(cfg, s0, i, t, t - s0.now, adc, disk);
        OtherVisits(cfg, s0, item, Input(t - s0.now, adc, disk));
      case WqIgn1 =>
        OnIgn1(t);
      case WqNone =>
        OnNone(t);
    }
  }
}
