/** main: how the objects are set up, and what the whole program achieves. */
module Programs {
  import opened Types
  import opened CircularBuffers
  import opened SafeQueues
  import opened Wire
  import opened Controller
  import opened Schedules
  import opened Duplicates
  import opened TelemetryPipeline
  import opened NetworkWorkers
  import opened Visitors
  import opened MainWorkers
  import opened Turns
  import opened Delivery
  import opened Threads

  /** One ring and one log file for each sensor; outcomes say how the files' writes will end. */
  method Storage(outcomes: seq<seq<int>>) returns (buffers: seq<CircularBuffer>, logs: seq<Sink>)
    requires |outcomes| == SENSORS
    ensures |buffers| == |logs| == SENSORS
    ensures forall i | 0 <= i < SENSORS :: fresh(buffers[i]) && fresh(buffers[i].data) && fresh(logs[i])
    ensures forall i | 0 <= i < SENSORS ::
      buffers[i].Valid() && buffers[i].nbytes == RING_SIZE && buffers[i].bytesWritten == 0 && logs[i].out == []
    ensures forall i, j | 0 <= i < j < SENSORS ::
      buffers[i] != buffers[j] && buffers[i].data != buffers[j].data && logs[i] != logs[j]
    ensures forall i | 0 <= i < SENSORS :: logs[i].results == outcomes[i]
  {
    buffers, logs := [], [];
    while |buffers| < SENSORS
      invariant |buffers| == |logs| <= SENSORS
      invariant forall i | 0 <= i < |logs| :: fresh(buffers[i]) && fresh(buffers[i].data) && fresh(logs[i])
      invariant forall i | 0 <= i < |logs| ::
        buffers[i].Valid() && buffers[i].nbytes == RING_SIZE && buffers[i].bytesWritten == 0 && logs[i].out == []
      invariant forall i, j | 0 <= i < j < |logs| ::
        buffers[i] != buffers[j] && buffers[i].data != buffers[j].data && logs[i] != logs[j]
      invariant forall i | 0 <= i < |logs| :: logs[i].results == outcomes[i]
    {
      var buffer := new CircularBuffer(RING_SIZE);
      var log := new Sink(outcomes[|logs|]);
      buffers, logs := buffers + [buffer], logs + [log];
    }
  }

  /** What the constructors promise adds up to an initial state. */
  lemma ConstructedInitial(v: Visitor)
    requires v.Valid() && InitialRig(v.cfg, v.RigModel())
    requires v.now == 0 && v.pressureAvg == 700.0 && v.trace == []
    requires v.qw.q == [] && v.qn.q == [NqRecv] && v.nw.sent == []
    requires forall i | 0 <= i < SENSORS ::
      v.buffers[i].nbytes == RING_SIZE && v.buffers[i].bytesWritten == 0 && v.logs[i].out == []
      && v.streams[i] == [] && v.frames[i] == []
    ensures Initial(v.cfg, v.Model())
  {
    hide InitialRig;
    var s := v.Model();
    forall i | 0 <= i < SENSORS ensures InitialChannel(s.tele.chans[i]) {
      assert s.tele.chans[i] == Channel(v.buffers[i].Model(), v.streams[i], v.logs[i].out, v.frames[i]);
    }
  }

  /** The queues, with the first read waiting, and the network thread's object. */
  method NetworkSide(cfg: Config, connected: bool, hasAcked: bool, t: nat, buffers: seq<CircularBuffer>, replies: seq<int>)
    returns (qn: SafeQueue<NetItem>, qw: SafeQueue<Work>, nw: NetworkWorker)
    requires |buffers| == SENSORS && forall b | b in buffers :: b.Valid()
    ensures fresh(qn) && fresh(qw) && fresh(nw) && fresh(nw.socket)
    ensures qn.q == [NqRecv] && qw.q == [] && qw.nullItem == WqNone
    ensures nw.Valid() && nw.qn == qn && nw.qw == qw && nw.timeout == cfg.timeout
    ensures nw.buffers == buffers && nw.socket.results == replies
    ensures nw.History() == Ledger([], [], [], []) && nw.lastRecv == Minus(t, cfg.timeout) && nw.Framed() && nw.whole
  {
    hide NetworkWorker.Framed;
    qn := new SafeQueue<NetItem>(NqNone);
    qw := new SafeQueue<Work>(WqNone);
    qn.Enqueue(NqRecv);
    var socket := new Sink(replies);
    nw := new NetworkWorker(qn, qw, buffers, cfg.timeout, connected, hasAcked, t, socket);
  }

  ghost predicate AllProgress(outcomes: seq<seq<int>>) { forall i | 0 <= i < |outcomes| :: AtLeast(outcomes[i], 1) }

  lemma ProgressingLogs(v: Visitor, outcomes: seq<seq<int>>)
    requires |v.logs| == |outcomes| && AllProgress(outcomes)
    requires forall i | 0 <= i < |outcomes| :: v.logs[i].results == outcomes[i]
    ensures v.LogsProgress()
  {
    hide AtLeast;
  }

  /** main's order of construction leaves the objects in an initial state of the transition
      system, so every theorem about runs speaks of them. The pins have been initialised. */
  method StartUp(cfg: Config, connected: bool, hasAcked: bool, t: nat, outcomes: seq<seq<int>>, replies: seq<int>)
    returns (cw: MainWorker)
    requires |outcomes| == SENSORS
    ensures var v := cw.visitor;
      && fresh(v) && fresh(v.gpio) && fresh(v.tiList.tis) && fresh(v.qn) && fresh(v.qw)
      && fresh(v.nw) && fresh(v.nw.qn) && fresh(v.nw.qw) && fresh(v.nw.socket)
      && fresh(v.buffers) && fresh(set b | b in v.buffers :: b.data) && fresh(v.logs)
    ensures fresh(cw) && cw.visitor.cfg == cfg
    ensures Coupled(cw, cw.visitor.nw) && Initial(cfg, cw.visitor.Model())
    ensures cw.visitor.now == 0 && cw.visitor.nw.lastRecv == Minus(t, cfg.timeout)
    ensures cw.visitor.nw.History() == Ledger([], [], [], []) && cw.visitor.nw.Framed() && cw.visitor.nw.whole
    ensures AllProgress(outcomes) ==> cw.visitor.LogsProgress()
    ensures cw.visitor.nw.socket.results == replies
  {
    hide InitialRig, Visitor.RigModel, Visitor.Chans, Visitor.Model, Visitor.LogsProgress, AllProgress, Initial,
      NetworkWorker.Framed, NetworkWorker.History;
    var gpio := new Gpio(BOOT_PINS);
    var buffers, logs := Storage(outcomes);
    var qn, qw, nw := NetworkSide(cfg, connected, hasAcked, t, buffers, replies);
    var visitor := new Visitor(cfg, qw, qn, nw, gpio, buffers, logs);
    HistorySent(nw);
    ConstructedInitial(visitor);
    cw := new MainWorker(qw, visitor);
    if AllProgress(outcomes) {
      ProgressingLogs(visitor, outcomes);
    }
  }

  lemma HistorySent(nw: NetworkWorker)
    ensures nw.History().frames == nw.sent
  {
  }

  lemma StartReached(cw: MainWorker, s0: State)
    requires Coupled(cw, cw.visitor.nw) && s0 == cw.visitor.Model() && Initial(cw.visitor.cfg, s0)
    requires cw.visitor.nw.History() == Ledger([], [], [], []) && cw.visitor.nw.Framed()
    ensures Reached(cw, cw.visitor.nw, s0, [])
  {
    hide Initial, Run, NetworkWorker.Framed, Visitor.Model, Visitor.Valid;
    NetOf(cw, cw.visitor.nw);
    RunNothing(cw.visitor.cfg, s0);
  }

  // ---------------------------------------------------------------- what the user gets

  /** Log file j holds exactly what was added to its ring up to the last send, and that is the
      records of its sensor's readings. */
  ghost predicate LogComplete(v: Visitor, j: nat)
    requires v.Valid() && j < SENSORS
    reads v, v.gpio, v.tiList, v.tiList.tis, v.buffers, set b | b in v.buffers :: b.data, v.logs, v.qw, v.nw, v.qn
  {
    && v.streams[j] == Records(Readings(v.trace, j))
    && v.tiList.tis[j].nbytesLastSend <= |v.streams[j]|
    && v.logs[j].out == v.streams[j][..v.tiList.tis[j].nbytesLastSend]
  }

  ghost predicate LogsComplete(v: Visitor)
    requires v.Valid()
    reads v, v.gpio, v.tiList, v.tiList.tis, v.buffers, set b | b in v.buffers :: b.data, v.logs, v.qw, v.nw, v.qn
  {
    forall j | 0 <= j < SENSORS :: LogComplete(v, j)
  }

  lemma ChannelOf(v: Visitor, j: nat)
    requires v.Valid() && j < SENSORS
    ensures v.Model().tele.chans[j].stream == v.streams[j] && v.Model().tele.chans[j].log == v.logs[j].out
    ensures v.Model().rig.items[j] == v.tiList.tis[j] && v.Model().trace == v.trace
  {
  }

  lemma ObjectLog(cw: MainWorker, s0: State, es: seq<Event>, j: nat)
    requires Coupled(cw, cw.visitor.nw) && Reached(cw, cw.visitor.nw, s0, es) && j < SENSORS
    requires NoLogFailure(es) && Unknown(cw.visitor.cfg.engine, cw.visitor.Model().trace) <= 1
    ensures LogComplete(cw.visitor, j)
  {
    hide Initial, Run, Unknown, NoLogFailure, Conveys, NetworkWorker.Framed, Visitor.Model, Visitor.Valid, Readings, Records, Intact;
    ChannelOf(cw.visitor, j);
    RunSound(cw.visitor.cfg, s0, es, j);
    LosslessLog(cw.visitor.cfg, s0, es, j);
  }

  /** The log files are complete, with at most one unknown byte and no failing write. */
  lemma ObjectLogs(cw: MainWorker, s0: State, es: seq<Event>)
    requires Coupled(cw, cw.visitor.nw) && Reached(cw, cw.visitor.nw, s0, es)
    requires NoLogFailure(es) && Unknown(cw.visitor.cfg.engine, cw.visitor.Model().trace) <= 1
    ensures LogsComplete(cw.visitor)
  {
    hide Reached, LogComplete, Unknown, NoLogFailure;
    forall j | 0 <= j < SENSORS ensures LogComplete(cw.visitor, j) {
      ObjectLog(cw, s0, es, j);
    }
  }

  /** From the socket's bytes the base station recovers each sensor's frames, as slices of
      its readings' records, in order. */
  ghost predicate BaseStationHas(cw: MainWorker)
    requires Coupled(cw, cw.visitor.nw)
    reads cw.visitor, cw.visitor.gpio, cw.visitor.tiList, cw.visitor.tiList.tis, cw.visitor.buffers,
          set b | b in cw.visitor.buffers :: b.data, cw.visitor.logs, cw.visitor.qw, cw.visitor.nw, cw.visitor.qn,
          cw.visitor.nw.socket
  {
    var (ms, rest) := Parse(cw.visitor.nw.socket.out);
    rest == [] && BaseStationReads(cw.visitor.Model(), ms)
  }

  /** It does, with at most one unknown byte, when all writes were whole and each frame was sent
      within RESIDENCE of its hand-over. */
  lemma Recovered(cw: MainWorker, s0: State, es: seq<Event>)
    requires Coupled(cw, cw.visitor.nw) && Reached(cw, cw.visitor.nw, s0, es)
    requires Unknown(cw.visitor.cfg.engine, cw.visitor.Model().trace) <= 1
    requires cw.visitor.nw.whole && Prompt(cw.visitor.nw.History())
    ensures BaseStationHas(cw)
  {
    hide Initial, Run, Unknown, BaseStationReads, Prompt, Visitor.Model, Visitor.Valid, Parse, Pow256, EmitAll, Faithful;
    var v, nw, cfg := cw.visitor, cw.visitor.nw, cw.visitor.cfg;
    NetOf(cw, nw);
    RunDelivered(cfg, s0, es, nw.History());
    forall i | 0 <= i < |nw.sent| ensures nw.sent[i].nbytes < Pow256(8) {
      SentSmall(cfg, s0, es, nw.sent[i]);
    }
    nw.WireParsed();
  }

  /** The whole program: set up at time t, then both loops' turns in any interleaving. The
      objects end in the state that TakeTurns gives, reached by a run from an initial state.
      Under conditions on what the program meets, and with each frame sent in time, the log
      files and the base station have the sensors' records. */
  method Program(cfg: Config, connected: bool, hasAcked: bool, t: nat, outcomes: seq<seq<int>>, replies: seq<int>,
                 turns: seq<Turn>)
    returns (cw: MainWorker, ghost s0: State, ghost es: seq<Event>, ghost disks: seq<Disk>)
    requires |outcomes| == SENSORS && InOrder(turns, t)
    ensures Coupled(cw, cw.visitor.nw) && cw.visitor.cfg == cfg && Reached(cw, cw.visitor.nw, s0, es)
    ensures |disks| == |turns|
    ensures Present(cw, cw.visitor.nw) == TakeTurns(cfg, Moment(s0, Minus(t, cfg.timeout)), turns, disks)
    ensures AllOpen(turns) && AllProgress(outcomes) ==> AllTake(disks) && NoLogFailure(es)
    ensures AllOpen(turns) && AllProgress(outcomes) && UnknownIn(cfg.engine, Offered(turns)) <= 1 ==>
              LogsComplete(cw.visitor)
    ensures Ample(replies) ==> cw.visitor.nw.whole
    ensures cw.visitor.nw.whole && UnknownIn(cfg.engine, Offered(turns)) <= 1 && Prompt(cw.visitor.nw.History()) ==>
              BaseStationHas(cw)
  {
    hide Run, Initial, Reached, TakeTurns, AllProgress, AllOpen, AllTake, NoLogFailure, Unknown, UnknownIn, Offered, Prompt,
      Visitor.Model, Visitor.Valid, Visitor.LogsProgress, NetworkWorker.Framed, NetworkWorker.History, LogsComplete,
      BaseStationHas, Ample;
    cw := StartUp(cfg, connected, hasAcked, t, outcomes, replies);
    s0 := cw.visitor.Model();
    StartReached(cw, s0);
    ghost var m0 := Present(cw, cw.visitor.nw);
    disks, es := Interleave(cw, cw.visitor.nw, turns, s0, []);
    NoEvents();
    if UnknownIn(cfg.engine, Offered(turns)) <= 1 {
      UnknownOffered(cfg, m0, turns, disks);
      NothingUnknown(cfg, s0);
      if NoLogFailure(es) {
        ObjectLogs(cw, s0, es);
      }
      if cw.visitor.nw.whole && Prompt(cw.visitor.nw.History()) {
        Recovered(cw, s0, es);
      }
    }
  }

  lemma NoEvents()
    ensures NoLogFailure([])
  {
  }

  lemma NothingUnknown(cfg: Config, s: State)
    requires Initial(cfg, s)
    ensures Unknown(cfg.engine, s.trace) == 0
  {
  }
}
