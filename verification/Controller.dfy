/** The two threads as one transition system: the network thread reads commands and sends
    frames, the worker thread polls its queue and visits one item at a time. */
module Controller {
  import opened Types
  import opened CircularBuffers
  import opened Wire

  /** Where the worker is: about to poll, or at entry i of check_ti_list called with time t. */
  datatype WorkerPc = Poll | Scan(i: Slot, t: nat)

  /** Where the network thread is: about to poll, or about to enqueue an item after an
      empty poll. */
  datatype NetPc = NetPoll | Put(item: NetItem)

  /** One sensor's ring, everything ever added to it, its log file, and the intervals it
      handed over so far. */
  datatype Channel = Channel(ring: Ring, stream: seq<byte>, log: seq<byte>, frames: seq<Frame>)

  type Channels = s: seq<Channel> | |s| == SENSORS && forall c | c in s :: c.ring.Valid()
    witness seq(SENSORS, _ => Channel(Ring([0], 0), [], [], []))

  /** What happened, in order: one entry for each byte received and for each visit. */
  datatype Obs =
    | Arrived(c: byte)
    | Commanded(c: byte)
    | Ignited(t: nat)
    | Polled(t: nat)
    | Sampled(i: Slot, t: nat, adc: nat, tripped: bool)
    | Fired2(t: nat)
    | Fired3(t: nat)
    | Opened(k: nat, t: nat, lasts: nat)
    | Closed(t: nat)
    | NoPulse(t: nat)

  /** What the firing handlers work on: the timed items, the pins and the burn's state. */
  datatype Rig = Rig(
    items: Table,
    pins: Pins,
    burnOn: bool,
    startTimeNitr: nat,
    gitvcOn: bool,
    gitvcCount: nat)

  datatype Telemetry = Telemetry(pressureAvg: real, chans: Channels)

  datatype Net = Net(
    pc: NetPc,
    qn: seq<NetItem>,
    connected: bool,
    hasAcked: bool,
    sent: seq<Frame>)

  /** The history of sends: the frames, when they were sent, whether the ring still held them,
      and the messages they became. */
  datatype Ledger = Ledger(frames: seq<Frame>, at: seq<nat>, kept: seq<bool>, messages: seq<Message>)

  datatype State = State(
    now: nat,
    pc: WorkerPc,
    q: seq<Work>,
    rig: Rig,
    tele: Telemetry,
    net: Net,
    trace: seq<Obs>)

  /** What the log file does with one write_data: takes everything, or fails after k bytes. */
  datatype Disk = Takes | FailsAfter(k: nat)

  /** What the worker meets in one step: the microseconds since its last clock reading, the
      ADC reading, and the log file's behaviour. */
  datatype Input = Input(dt: nat, adc: nat, disk: Disk)

  /** What the network thread meets in one step on its socket. */
  datatype Recv = Nothing | Byte(c: byte) | Eof | Fault

  /** One step of either thread. idle is the time since the last byte was received. */
  datatype Event = Network(recv: Recv, idle: nat) | Worker(input: Input)

  // ---------------------------------------------------------------- timed items

  function Enable(r: Rig, i: Slot, t: nat): Rig {
    r.(items := r.items[i := r.items[i].(scheduled := t, enabled := true)])
  }

  function Disable(r: Rig, i: Slot): Rig {
    r.(items := r.items[i := r.items[i].(enabled := false)])
  }

  function SetDelay(r: Rig, i: Slot, d: nat): Rig {
    r.(items := r.items[i := r.items[i].(timeDelay := d)])
  }

  /** visitTimed notes when it last handled the item. */
  function Touch(r: Rig, i: Slot, t: nat): Rig {
    r.(items := r.items[i := r.items[i].(scheduled := t)])
  }

  function WritePin(r: Rig, pin: Pin, high: bool, via: Writer): Rig {
    r.(pins := r.pins.Write(pin, high, via))
  }

  /** The test of check_ti_list on one entry at time t. */
  predicate Due(it: TimedItem, t: nat) {
    it.enabled && t > it.scheduled && t - it.scheduled > it.timeDelay
  }

  // ---------------------------------------------------------------- commands

  function BasePins(p: Pins, c: byte): Pins {
    if c == UNSET_VALVE then p.Write(MAIN_VALVE, LOW, Command)
    else if c == SET_VALVE then p.Write(MAIN_VALVE, HIGH, Command)
    else if c == UNSET_IGNITION then
      p.Write(IGN_START, LOW, Command).Write(MAIN_VALVE, LOW, Command)
    else if c == SET_IGNITION then p.Write(IGN_START, HIGH, Command)
    else p
  }

  function LunaPins(p: Pins, c: byte): Pins {
    if c == SET_WATER then p.Write(WATER_VALVE, HIGH, Command)
    else if c == UNSET_WATER then p.Write(WATER_VALVE, LOW, Command)
    else if c == SET_GITVC then p.Write(GITVC_VALVE, LOW, Command)
    else if c == UNSET_GITVC then p.Write(GITVC_VALVE, HIGH, Command)
    else BasePins(p, c)
  }

  function Preset(p: Pins, main: bool, vent: bool, tank: bool): Pins {
    p.Write(MAIN_VALVE, main, Command).Write(WATER_VALVE, vent, Command).Write(GITVC_VALVE, tank, Command)
  }

  function TitanPins(p: Pins, c: byte): Pins {
    if c == SET_WATER then p.Write(WATER_VALVE, LOW, Command)
    else if c == UNSET_WATER then p.Write(WATER_VALVE, HIGH, Command)
    else if c == LEAK_CHECK then Preset(p, HIGH, HIGH, HIGH)
    else if c == FILL then Preset(p, HIGH, HIGH, LOW)
    else if c == FILL_IDLE then Preset(p, LOW, HIGH, HIGH)
    else if c == DEF then Preset(p, LOW, LOW, HIGH)
    else BasePins(p, c)
  }

  /** The pins after command c. */
  function PinsAfter(engine: Engine, p: Pins, c: byte): Pins {
    if engine.Luna? then LunaPins(p, c) else TitanPins(p, c)
  }

  /** What command c puts back on the work queue. */
  function FollowUp(engine: Engine, c: byte): seq<Work> {
    if c == IGN_NORMAL then [WqIgn1] else if Known(engine, c) then [] else [WqNone]
  }

  function Proc(cfg: Config, s: State, c: byte): State {
    s.(q := s.q + FollowUp(cfg.engine, c),
       rig := s.rig.(pins := PinsAfter(cfg.engine, s.rig.pins, c)),
       trace := s.trace + [Commanded(c)])
  }

  // ---------------------------------------------------------------- ignition and GITVC

  function Ignite(cfg: Config, r: Rig, t: nat): Rig {
    var r1 := if cfg.ignitionOn then WritePin(r, IGN_START, HIGH, Ignition) else r;
    SetDelay(Enable(SetDelay(r1, IGN2, cfg.preigniteUs), IGN2, t), IGN3, cfg.hotflowUs)
  }

  function LunaFire2(cfg: Config, r: Rig, t: nat): Rig {
    var r1 := WritePin(Enable(Disable(r, IGN2), IGN3, t), MAIN_VALVE, HIGH, Schedule);
    var r2 := r1.(startTimeNitr := t, burnOn := true);
    if cfg.useGitvc && |cfg.gitvcTimes| > r2.gitvcCount
    then Enable(r2, GITVC, t).(gitvcOn := false)
    else r2
  }

  function TitanFire2(r: Rig, t: nat): Rig {
    var r1 := WritePin(Enable(Disable(r, IGN2), IGN3, t), MAIN_VALVE, LOW, Schedule);
    WritePin(WritePin(r1, VENT, LOW, Schedule), TANK, HIGH, Schedule)
    .(startTimeNitr := t, burnOn := true)
  }

  function LunaFire3(r: Rig): Rig {
    var r1 := Disable(WritePin(r.(burnOn := false), MAIN_VALVE, LOW, Schedule), IGN3);
    var r2 := Disable(WritePin(r1, IGN_START, LOW, Schedule), GITVC).(gitvcCount := INT_MAX);
    WritePin(WritePin(r2, GITVC_VALVE, HIGH, Schedule), WATER_VALVE, LOW, Schedule)
  }

  function TitanFire3(r: Rig): Rig {
    WritePin(Disable(r.(burnOn := false), IGN3), IGN_START, LOW, Schedule)
  }

  predicate Opens(cfg: Config, r: Rig) {
    !r.gitvcOn && |cfg.gitvcTimes| > r.gitvcCount && r.burnOn
  }

  function LunaPulse(cfg: Config, r: Rig, t: nat): Rig {
    if r.gitvcOn then
      var r1 := WritePin(r, GITVC_VALVE, HIGH, Schedule).(gitvcOn := false);
      Enable(SetDelay(r1, GITVC, cfg.timeBetweenGitvc), GITVC, t)
    else if Opens(cfg, r) then
      var r1 := WritePin(r, GITVC_VALVE, LOW, Schedule).(gitvcOn := true);
      Enable(SetDelay(r1, GITVC, cfg.gitvcTimes[r.gitvcCount]), GITVC, t).(gitvcCount := r.gitvcCount + 1)
    else r
  }

  /** The handler of an item without a ring. */
  function Fire(cfg: Config, r: Rig, i: Slot, t: nat): Rig
    requires i >= SENSORS
  {
    if i == IGN2 then if cfg.engine.Luna? then LunaFire2(cfg, r, t) else TitanFire2(r, t)
    else if i == IGN3 then if cfg.engine.Luna? then LunaFire3(r) else TitanFire3(r)
    else if cfg.engine.Luna? then LunaPulse(cfg, r, t)
    else r
  }

  function FireObs(cfg: Config, r: Rig, i: Slot, t: nat): Obs
    requires i >= SENSORS
  {
    if i == IGN2 then Fired2(t)
    else if i == IGN3 then Fired3(t)
    else if cfg.engine.Titan? then NoPulse(t)
    else if r.gitvcOn then Closed(t)
    else if Opens(cfg, r) then Opened(r.gitvcCount, t, cfg.gitvcTimes[r.gitvcCount])
    else NoPulse(t)
  }

  // ---------------------------------------------------------------- sampling

  function Calibrated(cfg: Config, adc: nat): real {
    cfg.pressureSlope * adc as real + cfg.pressureYint
  }

  /** The running average of the pressure after one more calibrated reading. */
  function Average(avg: real, x: real): real { avg * 0.95 + x * 0.05 }

  predicate OutOfRange(cfg: Config, avg: real) {
    avg > cfg.pressureMax as real || avg < cfg.pressureMin as real
  }

  predicate Watched(cfg: Config, i: Slot) { i == PT_COMB && cfg.pressureShutoff }

  function AverageAfter(cfg: Config, avg: real, i: Slot, adc: nat): real {
    if Watched(cfg, i) then Average(avg, Calibrated(cfg, adc)) else avg
  }

  /** Whether the sample makes the pressure cut-off fire; avg already includes it. */
  predicate Trips(cfg: Config, r: Rig, avg: real, i: Slot, t: nat) {
    Watched(cfg, i) && OutOfRange(cfg, avg) && r.burnOn && t - r.startTimeNitr > CUTOFF_DELAY
  }

  function CutOff(r: Rig): Rig {
    WritePin(WritePin(WritePin(r, MAIN_VALVE, LOW, Cutoff), IGN_START, LOW, Cutoff),
             GITVC_VALVE, HIGH, Cutoff)
    .(burnOn := false)
  }

  function Minus(a: nat, b: nat): nat { if a >= b then a - b else 0 }

  /** The bytes that reach the log when n bytes from offset are written to it. */
  function Logged(ring: Ring, n: nat, offset: nat, disk: Disk): seq<byte>
    requires ring.Valid()
  {
    match disk
    case Takes => Cyclic(ring, n, offset)
    case FailsAfter(k) => Cyclic(ring, Min(k, n), offset)
  }

  function Recorded(ch: Channel, rec: seq<byte>): (ch': Channel)
    requires ch.ring.Valid()
    ensures ch'.ring.Valid()
  {
    ch.(ring := Add(ch.ring, rec), stream := ch.stream + rec)
  }

  function HandOver(ch: Channel, f: Frame, disk: Disk): (ch': Channel)
    requires ch.ring.Valid()
    ensures ch'.ring.Valid()
  {
    ch.(frames := ch.frames + [f], log := ch.log + Logged(ch.ring, f.nbytes, f.offset, disk))
  }

  predicate Sends(it: TimedItem, t: nat) { t - it.lastSend > SEND_TIME }

  /** The interval handed over by a send of item it at time t when bw bytes have been added. */
  function SendFrame(it: TimedItem, i: Slot, bw: nat, t: nat, connected: bool): Frame {
    var n := Minus(bw, it.nbytesLastSend);
    Frame(i, it.nbytesLastSend, n, connected && n > 0, t)
  }

  /** The channel after its item's sample: one more record, and a send when it is time. */
  function ChannelAfter(ch: Channel, it: TimedItem, i: Slot, t: nat, input: Input, connected: bool): (ch': Channel)
    requires ch.ring.Valid()
    ensures ch'.ring.Valid()
  {
    var ch1 := Recorded(ch, Record(Reading(input.adc, t)));
    if Sends(it, t) then HandOver(ch1, SendFrame(it, i, ch1.ring.written, t, connected), input.disk) else ch1
  }

  function Store(s: State, i: Slot, t: nat, input: Input): State
    requires i < SENSORS
  {
    var it, ch := s.rig.items[i], s.tele.chans[i];
    var bw := ch.ring.written + RECORD_SIZE;
    var f := SendFrame(it, i, bw, t, s.net.connected);
    var s1 := s.(tele := s.tele.(chans := s.tele.chans[i := ChannelAfter(ch, it, i, t, input, s.net.connected)]));
    if Sends(it, t) then
      s1.(rig := s.rig.(items := s.rig.items[i := it.(nbytesLastSend := bw, lastSend := t)]),
          net := if f.queued then s.net.(qn := s.net.qn + [NqSend(f)]) else s.net)
    else s1
  }

  function Sample(cfg: Config, s: State, i: Slot, t: nat, input: Input): State
    requires i < SENSORS
  {
    var avg := AverageAfter(cfg, s.tele.pressureAvg, i, input.adc);
    var trips := Trips(cfg, s.rig, avg, i, t);
    var s1 := s.(tele := s.tele.(pressureAvg := avg), rig := if trips then CutOff(s.rig) else s.rig);
    var s2 := Store(s1, i, t, input);
    s2.(trace := s2.trace + [Sampled(i, t, input.adc, trips)])
  }

  // ---------------------------------------------------------------- the worker

  /** An item without a ring. */
  function FireItem(cfg: Config, s: State, i: Slot, t: nat): State
    requires i >= SENSORS
  {
    s.(rig := Fire(cfg, s.rig, i, t), trace := s.trace + [FireObs(cfg, s.rig, i, t)])
  }

  function Touched(s: State, i: Slot, t: nat): State {
    s.(now := t, rig := Touch(s.rig, i, t))
  }

  function Timed(cfg: Config, s: State, i: Slot, t: nat, input: Input): State {
    if i < SENSORS then Sample(cfg, Touched(s, i, t), i, t, input)
    else FireItem(cfg, Touched(s, i, t), i, t)
  }

  function Ignition1(cfg: Config, s: State, t: nat): State {
    s.(now := t, rig := Ignite(cfg, s.rig, t), trace := s.trace + [Ignited(t)])
  }

  function StartScan(s: State, t: nat): State {
    s.(now := t, pc := Scan(0, t), trace := s.trace + [Polled(t)])
  }

  function Visit(cfg: Config, s: State, x: Work, input: Input): State {
    match x
    case WqProcess(c) => Proc(cfg, s, c)
    case WqTimed(i) => Timed(cfg, s, i, s.now + input.dt, input)
    case WqIgn1 => Ignition1(cfg, s, s.now + input.dt)
    case WqNone => StartScan(s, s.now + input.dt)
  }

  /** One iteration of check_ti_list's loop. */
  function ScanEntry(s: State, i: Slot, t: nat): State {
    s.(q := if Due(s.rig.items[i], t) then s.q + [WqTimed(i)] else s.q,
       pc := if i + 1 < TI_COUNT then Scan(i + 1, t) else Poll)
  }

  /** The queue without its head, as the handlers see it. */
  function Popped(s: State): State
    requires s.q != []
  {
    s.(q := s.q[1..])
  }

  function WorkerStep(cfg: Config, s: State, input: Input): State {
    match s.pc
    case Scan(i, t) => ScanEntry(s, i, t)
    case Poll =>
      if s.q == [] then Visit(cfg, s, WqNone, input)
      else Visit(cfg, Popped(s), s.q[0], input)
  }

  // ---------------------------------------------------------------- the network thread

  /** process_nqi on nq_none: connect, then time out, ask for an ack or re-arm the read. */
  function NetNone(timeout: nat, n: Net, idle: nat): Net {
    var n1 := if n.connected then n else n.(connected := true, hasAcked := false);
    if timeout > 0 && idle > timeout then n1.(connected := false)
    else if timeout > 0 && !n1.hasAcked && idle > timeout / 2 then n1.(pc := Put(NqSendAck))
    else n1.(pc := Put(NqRecv))
  }

  function NetRecv(n: Net, recv: Recv): Net {
    match recv
    case Nothing => n
    case Byte(_) => n.(hasAcked := false)
    case Eof => n.(connected := false)
    case Fault => n
  }

  function NetStep(timeout: nat, n: Net, recv: Recv, idle: nat): Net {
    match n.pc
    case Put(item) => n.(pc := NetPoll, qn := n.qn + [item])
    case NetPoll =>
      if n.qn == [] then NetNone(timeout, n, idle) else
      var n1 := n.(qn := n.qn[1..]);
      match n.qn[0]
      case NqNone => NetNone(timeout, n1, idle)
      case NqRecv => NetRecv(n1, recv)
      case NqSendAck => n1
      case NqSend(f) => n1.(sent := n.sent + [f])
  }

  /** The item that poll gives the network thread. */
  function NextItem(n: Net): NetItem {
    if n.qn == [] then NqNone else n.qn[0]
  }

  /** When the connection was opened or last brought a byte, once the item was processed at t. */
  function Heard(n: Net, item: NetItem, recv: Recv, t: nat, lastRecv: nat): nat {
    if (item.NqRecv? && recv.Byte?) || (item.NqNone? && !n.connected) then t else lastRecv
  }

  /** The network thread reads from its socket in this step. */
  predicate Reads(n: Net) { n.pc.NetPoll? && n.qn != [] && n.qn[0].NqRecv? }

  function NetworkStep(cfg: Config, s: State, recv: Recv, idle: nat): State {
    var s1 := s.(net := NetStep(cfg.timeout, s.net, recv, idle));
    if Reads(s.net) && recv.Byte? then
      s1.(q := s.q + [WqProcess(recv.c)], trace := s.trace + [Arrived(recv.c)])
    else s1
  }

  // ---------------------------------------------------------------- runs

  function Step(cfg: Config, s: State, e: Event): State {
    match e
    case Network(recv, idle) => NetworkStep(cfg, s, recv, idle)
    case Worker(input) => WorkerStep(cfg, s, input)
  }

  /** The state after the events, in order, from s. */
  function Run(cfg: Config, s: State, es: seq<Event>): State {
    if es == [] then s else Step(cfg, Run(cfg, s, es[..|es| - 1]), es[|es| - 1])
  }

  lemma RunSnoc(cfg: Config, s: State, es: seq<Event>, e: Event)
    ensures Run(cfg, s, es + [e]) == Step(cfg, Run(cfg, s, es), e)
  {
    assert (es + [e])[..|es|] == es;
  }

  lemma {:induction false} RunConcat(cfg: Config, s: State, es: seq<Event>, fs: seq<Event>)
    ensures Run(cfg, s, es + fs) == Run(cfg, Run(cfg, s, es), fs)
    decreases |fs|
  {
    hide Step;
    if fs == [] {
      assert es + fs == es;
    } else {
      RunConcat(cfg, s, es, fs[..|fs| - 1]);
      assert (es + fs)[..|es + fs| - 1] == es + fs[..|fs| - 1];
    }
  }

  function InitialItem(cfg: Config, i: Slot): TimedItem {
    TimedItem(ACTIONS[i], 0,
              if i < SENSORS then SENSOR_DELAYS[i]
              else if i == IGN2 then cfg.preigniteUs
              else if i == IGN3 then cfg.hotflowUs
              else cfg.gitvcWaitTime,
              i < SENSORS, 0, 0)
  }

  /** The state both threads start in. The rings' memory and the connected flag are not
      initialised by the constructors, so they are arbitrary. */
  ghost predicate Initial(cfg: Config, s: State) {
    && s.now == 0 && s.pc.Poll? && s.q == [] && s.trace == []
    && InitialRig(cfg, s.rig)
    && s.tele.pressureAvg == 700.0
    && (forall i | 0 <= i < SENSORS :: InitialChannel(s.tele.chans[i]))
    && s.net.pc.NetPoll? && s.net.qn == [NqRecv] && s.net.sent == []
  }

  ghost predicate InitialRig(cfg: Config, r: Rig) {
    && (forall i: Slot :: r.items[i] == InitialItem(cfg, i))
    && r.pins == Pins(Level(LOW, Boot), Level(LOW, Boot), Level(LOW, Boot), Level(HIGH, Boot))
    && !r.burnOn && r.startTimeNitr == 0 && !r.gitvcOn && r.gitvcCount == 0
  }

  ghost predicate InitialChannel(ch: Channel) {
    && |ch.ring.data| == RING_SIZE && ch.ring.written == 0
    && ch.stream == [] && ch.log == [] && ch.frames == []
  }

  // ---------------------------------------------------------------- histories

  /** Bytes received that the engine's visitor has no case for. */
  function Unknown(engine: Engine, trace: seq<Obs>): nat {
    if trace == [] then 0 else
    var o := trace[|trace| - 1];
    Unknown(engine, trace[..|trace| - 1]) + if o.Arrived? && !Known(engine, o.c) then 1 else 0
  }

  /** The bytes received, in order. */
  function Received(trace: seq<Obs>): seq<byte> {
    if trace == [] then [] else
    var o := trace[|trace| - 1];
    Received(trace[..|trace| - 1]) + if o.Arrived? then [o.c] else []
  }

  /** A step adds at most one entry to the history, of a visit or of a byte received. */
  lemma StepTrace(cfg: Config, s: State, e: Event)
    ensures var s' := Step(cfg, s, e);
      s'.trace == s.trace || (|s'.trace| == |s.trace| + 1 && s'.trace[..|s.trace|] == s.trace)
    ensures Unknown(cfg.engine, s.trace) <= Unknown(cfg.engine, Step(cfg, s, e).trace)
  {
    hide PinsAfter, FollowUp, Fire, FireObs, Ignite, ChannelAfter, NetStep, SendFrame;
  }
}
