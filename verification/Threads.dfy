/** Both threads' objects together: what any interleaving of their loops' turns does. */
module Threads {
  import opened Types
  import opened Wire
  import opened Controller
  import opened ScanLoop
  import opened TelemetryPipeline
  import opened Turns
  import opened Delivery
  import opened Flows
  import opened NetworkWorkers
  import opened Visitors
  import opened MainWorkers

  ghost predicate Coupled(cw: MainWorker, nw: NetworkWorker)
    reads cw.visitor`streams, cw.visitor`frames, cw.visitor.tiList, cw.visitor.tiList.tis
  {
    && cw.Valid() && nw.Valid() && cw.visitor.nw == nw && cw.qw == nw.qw
    && nw.buffers == cw.visitor.buffers && nw.timeout == cw.visitor.cfg.timeout
  }

  lemma NetOf(cw: MainWorker, nw: NetworkWorker)
    requires Coupled(cw, nw)
    ensures cw.visitor.Model().net == nw.Model(NetPoll) && nw.socket !in cw.visitor.logs
    ensures cw.visitor.Model().now == cw.visitor.now && nw.qn == cw.visitor.qn
  {
  }

  /** Every frame waiting for the network belongs to a channel. */
  ghost predicate Routed(n: Net) {
    forall f | NqSend(f) in n.qn :: f.chan < SENSORS
  }

  lemma NetRouted(timeout: nat, n: Net, recv: Recv, idle: nat)
    requires Routed(n) && OneRequest(timeout, n)
    ensures Routed(NetStep(timeout, n, recv, idle))
  {
    hide Count;
    var n' := NetStep(timeout, n, recv, idle);
    forall f | NqSend(f) in n'.qn ensures NqSend(f) in n.qn {
      assert n.pc.Put? ==> n.pc.item != NqSend(f);
    }
  }

  lemma StepRouted(cfg: Config, s: State, e: Event)
    requires Routed(s.net) && OneRequest(cfg.timeout, s.net)
    ensures Routed(Step(cfg, s, e).net)
  {
    hide OneRequest, WorkerStep, NetStep;
    match e
    case Network(recv, idle) =>
      NetRouted(cfg.timeout, s.net, recv, idle);
    case Worker(_) =>
      WorkerNet(cfg, s, e);
      var n' := Step(cfg, s, e).net;
      if n' != s.net {
        assert n'.qn == s.net.qn + [n'.qn[|s.net.qn|]];
      }
  }

  /** What both threads keep of the network's state. */
  ghost predicate Orderly(timeout: nat, n: Net) { Routed(n) && OneRequest(timeout, n) }

  lemma {:induction false} RunOrderlyNet(cfg: Config, s: State, es: seq<Event>)
    requires Orderly(cfg.timeout, s.net)
    ensures Orderly(cfg.timeout, Run(cfg, s, es).net)
  {
    if es != [] {
      hide Routed, OneRequest, Step;
      RunOrderlyNet(cfg, s, es[..|es| - 1]);
      StepRouted(cfg, Run(cfg, s, es[..|es| - 1]), es[|es| - 1]);
      StepOneRequest(cfg, Run(cfg, s, es[..|es| - 1]), es[|es| - 1]);
    }
  }

  lemma TurnParts(cfg: Config, s: State, nw: NetworkWorker, recv: Recv, idle: nat)
    requires nw.timeout == cfg.timeout && s.net.pc.NetPoll?
    ensures var arrived := Reads(s.net) && recv.Byte?;
      AfterNetwork(cfg, s, recv, idle) ==
      s.(net := nw.Iteration(s.net, recv, idle),
         q := s.q + if arrived then [WqProcess(recv.c)] else [],
         trace := s.trace + if arrived then [Arrived(recv.c)] else [])
  {
    assert s.q + [] == s.q && s.trace + [] == s.trace;
    if Reads(s.net) && recv.Byte? {
      assert !NetStep(cfg.timeout, s.net, recv, idle).pc.Put?;
    }
  }

  /** The state that the objects stand for, reached by the run es from s0, with a history of
      sends that fits it and the socket's bytes. */
  ghost predicate Reached(cw: MainWorker, nw: NetworkWorker, s0: State, es: seq<Event>)
    requires Coupled(cw, nw)
    reads cw.visitor, cw.visitor.gpio, cw.visitor.tiList, cw.visitor.tiList.tis, cw.visitor.buffers,
          set b | b in cw.visitor.buffers :: b.data, cw.visitor.logs, cw.visitor.qw, nw, cw.visitor.qn, nw.socket
  {
    var cfg := cw.visitor.cfg;
    && Initial(cfg, s0) && cw.visitor.Model() == Run(cfg, s0, es)
    && Conveys(cfg.engine, cw.visitor.Model(), nw.History()) && nw.Framed()
  }

  /** The state the objects stand for, and when the connection last brought something. */
  ghost function Present(cw: MainWorker, nw: NetworkWorker): Moment
    requires Coupled(cw, nw)
    reads cw.visitor, cw.visitor.gpio, cw.visitor.tiList, cw.visitor.tiList.tis, cw.visitor.buffers,
          set b | b in cw.visitor.buffers :: b.data, cw.visitor.logs, cw.visitor.qw, nw, cw.visitor.qn
  {
    Moment(cw.visitor.Model(), nw.lastRecv)
  }

  lemma InitialOrderly(cfg: Config, s: State)
    requires Initial(cfg, s)
    ensures Orderly(cfg.timeout, s.net)
  {
    assert [] + [NqRecv] == [NqRecv];
    CountPush([], NqRecv, NqRecv);
    CountPush([], NqRecv, NqSendAck);
  }

  lemma ReachedOrderly(cfg: Config, s0: State, es: seq<Event>)
    requires Initial(cfg, s0)
    ensures Orderly(cfg.timeout, Run(cfg, s0, es).net)
  {
    hide Initial, Run, Orderly;
    InitialOrderly(cfg, s0);
    RunOrderlyNet(cfg, s0, es);
  }

  // ---------------------------------------------------------------- a turn of the network thread

  lemma FrameNow(cw: MainWorker, nw: NetworkWorker, f: Frame)
    requires Coupled(cw, nw) && f.chan < SENSORS
    ensures nw.MessageOf(f) == MessageNow(cw.visitor.Model(), f) && nw.InRing(f) == KeptNow(cw.visitor.Model(), f)
  {
  }

  lemma AfterNetworkKeeps(cfg: Config, s: State, recv: Recv, idle: nat)
    requires s.net.pc.NetPoll?
    ensures var s' := AfterNetwork(cfg, s, recv, idle);
      && s'.tele == s.tele && s'.now == s.now
      && s'.net.sent == if NextItem(s.net).NqSend? then s.net.sent + [NextItem(s.net).frame] else s.net.sent
  {
  }

  /** The history of sends after one more turn. */
  function LedgerNext(s: State, h: Ledger, t: nat): Ledger
    requires NextItem(s.net).NqSend? ==> NextItem(s.net).frame.chan < SENSORS
  {
    if NextItem(s.net).NqSend? then Sent(s, h, NextItem(s.net).frame, t) else h
  }

  lemma NextRouted(n: Net)
    requires Routed(n)
    ensures NextItem(n).NqSend? ==> NextItem(n).frame.chan < SENSORS && NqSend(NextItem(n).frame) in n.qn
  {
  }

  lemma LedgerTurn(cfg: Config, s0: State, es: seq<Event>, recv: Recv, idle: nat, t: nat, h: Ledger)
    requires Initial(cfg, s0) && Routed(Run(cfg, s0, es).net) && Run(cfg, s0, es).net.pc.NetPoll?
    requires Run(cfg, s0, es).now <= t && Conveys(cfg.engine, Run(cfg, s0, es), h)
    requires NextItem(Run(cfg, s0, es).net).NqSend? ==> NextItem(Run(cfg, s0, es).net).frame.chan < SENSORS
    ensures Conveys(cfg.engine, AfterNetwork(cfg, Run(cfg, s0, es), recv, idle), LedgerNext(Run(cfg, s0, es), h, t))
  {
    hide Run, Initial, Conveys, Grows, AfterNetwork, NextItem, Sent, Routed;
    var s := Run(cfg, s0, es);
    NextRouted(s.net);
    AfterNetworkKeeps(cfg, s, recv, idle);
    var more := NetworkRuns(cfg, s, recv, idle);
    RunGrows(cfg, s, more);
    var s' := AfterNetwork(cfg, s, recv, idle);
    if NextItem(s.net).NqSend? {
      ConveysPush(cfg, s0, es, s', h, NextItem(s.net).frame, t);
    } else {
      ConveysGrows(cfg.engine, s, s', h);
    }
  }

  /** The network thread's own turn, with the byte it received noted in the history. */
  method NetworkMove(cw: MainWorker, nw: NetworkWorker, recv: Recv, t: nat, pad: Padding)
    requires Coupled(cw, nw) && t >= nw.lastRecv && Routed(nw.Model(NetPoll))
    modifies cw.visitor`trace, nw, nw.qn, nw.qw, nw.socket
    ensures Coupled(cw, nw)
    ensures cw.visitor.Model() == AfterNetwork(cw.visitor.cfg, old(cw.visitor.Model()), recv, Idle(old(Present(cw, nw)), t))
    ensures NextItem(old(nw.Model(NetPoll))).NqSend? ==> NextItem(old(nw.Model(NetPoll))).frame.chan < SENSORS
    ensures nw.History() == nw.Noted(old(nw.History()), NextItem(old(nw.Model(NetPoll))), t)
    ensures nw.lastRecv == Heard(old(nw.Model(NetPoll)), NextItem(old(nw.Model(NetPoll))), recv, t, old(nw.lastRecv))
    ensures old(nw.Framed()) ==> nw.Framed()
    ensures Ample(old(nw.socket.results)) ==> nw.whole == old(nw.whole) && Ample(nw.socket.results)
  {
    hide AfterNetwork, NetworkWorker.Iteration, NetStep, NetworkWorker.Framed, Visitor.Chans, Ample, Heard,
      NetworkWorker.Noted, NetworkWorker.History, Routed;
    ghost var s0 := cw.visitor.Model();
    NextRouted(s0.net);
    ghost var idle := if nw.connected then t - nw.lastRecv else 0;
    ghost var arrived := Reads(s0.net) && recv.Byte?;
    RoutedAll(s0.net);
    nw.WorkerMethod(recv, t, pad);
    if arrived {
      cw.visitor.trace := cw.visitor.trace + [Arrived(recv.c)];
    }
    TurnParts(cw.visitor.cfg, s0, nw, recv, idle);
  }

  lemma RoutedAll(n: Net)
    requires Routed(n)
    ensures forall f | NqSend(f) in n.qn :: f.chan < SENSORS
  {
  }

  /** A frame's message depends on the rings only. */
  lemma SameTelemetry(s: State, s': State, f: Frame)
    requires s.tele == s'.tele && f.chan < SENSORS
    ensures MessageNow(s, f) == MessageNow(s', f) && KeptNow(s, f) == KeptNow(s', f)
  {
  }

  /** What was noted is the next history of sends. */
  lemma NotedLedger(cw: MainWorker, nw: NetworkWorker, s: State, h: Ledger, t: nat)
    requires Coupled(cw, nw) && s.tele == cw.visitor.Model().tele
    requires NextItem(s.net).NqSend? ==> NextItem(s.net).frame.chan < SENSORS
    ensures nw.Noted(h, NextItem(s.net), t) == LedgerNext(s, h, t)
  {
    hide MessageNow, KeptNow, NetworkWorker.MessageOf, NetworkWorker.InRing;
    if NextItem(s.net).NqSend? {
      FrameNow(cw, nw, NextItem(s.net).frame);
      SameTelemetry(s, cw.visitor.Model(), NextItem(s.net).frame);
    }
  }

  lemma NetworkTurnStep(cfg: Config, m: Moment, t: nat, recv: Recv, pad: Padding)
    ensures TurnStep(cfg, m, NetworkTurn(t, recv, pad), Takes) ==
            Moment(AfterNetwork(cfg, m.s, recv, Idle(m, t)), Heard(m.s.net, NextItem(m.s.net), recv, t, m.lastRecv))
  {
  }

  /** A turn of the network thread. */
  method NetworkGo(cw: MainWorker, nw: NetworkWorker, recv: Recv, t: nat, pad: Padding, ghost s0: State, ghost es: seq<Event>)
    returns (ghost more: seq<Event>)
    requires Coupled(cw, nw) && Reached(cw, nw, s0, es) && t >= nw.lastRecv && t >= cw.visitor.now
    modifies cw.visitor`trace, nw, nw.qn, nw.qw, nw.socket
    ensures Coupled(cw, nw) && Reached(cw, nw, s0, es + more) && NoLogFailure(more) && nw.lastRecv <= t
    ensures Present(cw, nw) == TurnStep(cw.visitor.cfg, old(Present(cw, nw)), NetworkTurn(t, recv, pad), Takes)
    ensures Ample(old(nw.socket.results)) ==> nw.whole == old(nw.whole) && Ample(nw.socket.results)
  {
    hide AfterNetwork, Run, Initial, Conveys, NetworkWorker.Framed, NetworkWorker.Noted, Visitor.Model, Visitor.Valid,
      Routed, OneRequest, Ample, TurnStep;
    ghost var cfg, s, h := cw.visitor.cfg, cw.visitor.Model(), nw.History();
    ghost var m := Present(cw, nw);
    ghost var idle := Idle(m, t);
    ReachedOrderly(cfg, s0, es);
    NetOf(cw, nw);
    NetworkMove(cw, nw, recv, t, pad);
    AfterNetworkKeeps(cfg, s, recv, idle);
    NotedLedger(cw, nw, s, h, t);
    LedgerTurn(cfg, s0, es, recv, idle, t, h);
    more := NetworkRuns(cfg, s, recv, idle);
    RunConcat(cfg, s0, es, more);
    NetworkTurnStep(cfg, m, t, recv, pad);
  }

  // ---------------------------------------------------------------- any interleaving

  /** A turn of the worker. */
  method WorkerGo(cw: MainWorker, nw: NetworkWorker, t: nat, adc: nat, canOpen: bool, ghost s0: State, ghost es: seq<Event>)
    returns (ghost disk: Disk, ghost more: seq<Event>)
    requires Coupled(cw, nw) && Reached(cw, nw, s0, es) && t >= cw.visitor.now
    modifies cw.visitor, cw.visitor.gpio, cw.visitor.tiList.tis, cw.visitor.buffers,
             set b | b in cw.visitor.buffers :: b.data, cw.visitor.qn, cw.visitor.qw, cw.visitor.logs
    ensures Coupled(cw, nw) && Reached(cw, nw, s0, es + more) && cw.visitor.now <= t
    ensures Present(cw, nw) == TurnStep(cw.visitor.cfg, old(Present(cw, nw)), WorkerTurn(t, adc, canOpen), disk)
    ensures canOpen && old(cw.visitor.LogsProgress()) ==> disk.Takes?
    ensures old(cw.visitor.LogsProgress()) ==> cw.visitor.LogsProgress()
    ensures disk.Takes? ==> NoLogFailure(more)
  {
    hide Run, Initial, Conveys, Grows, Settle, WorkerStep, NetworkWorker.Framed, Visitor.Model, Visitor.Valid, Visitor.LogsProgress;
    ghost var cfg, s := cw.visitor.cfg, cw.visitor.Model();
    NetOf(cw, nw);
    ghost var input := cw.Turn(t, adc, canOpen);
    disk := input.disk;
    NetOf(cw, nw);
    more := WorkerRuns(cfg, s, input);
    RunConcat(cfg, s0, es, more);
    RunGrows(cfg, s, more);
    ConveysGrows(cfg.engine, s, cw.visitor.Model(), nw.History());
  }

  predicate AllOpen(turns: seq<Turn>) {
    forall k | 0 <= k < |turns| && turns[k].WorkerTurn? :: turns[k].canOpen
  }

  /** Clock readings do not go back. */
  predicate InOrder(turns: seq<Turn>, from: nat) {
    && (forall k | 0 <= k < |turns| :: turns[k].t >= from)
    && (forall j, k | 0 <= j < k < |turns| :: turns[j].t <= turns[k].t)
  }

  ghost predicate AllTake(disks: seq<Disk>) { forall k | 0 <= k < |disks| :: disks[k].Takes? }

  lemma NoLogFailureConcat(es: seq<Event>, more: seq<Event>)
    requires NoLogFailure(es) && NoLogFailure(more)
    ensures NoLogFailure(es + more)
  {
  }

  /** Any interleaving of the two loops' turns takes the objects from the state they stand for
      to the one TakeTurns gives, through a run; while the log files open and their writes make
      progress, none of that run's log writes fails. */
  method Interleave(cw: MainWorker, nw: NetworkWorker, turns: seq<Turn>, ghost s0: State, ghost es0: seq<Event>)
    returns (ghost disks: seq<Disk>, ghost es: seq<Event>)
    requires Coupled(cw, nw) && Reached(cw, nw, s0, es0)
    requires InOrder(turns, cw.visitor.now) && InOrder(turns, nw.lastRecv)
    modifies cw.visitor, cw.visitor.gpio, cw.visitor.tiList.tis, cw.visitor.buffers,
             set b | b in cw.visitor.buffers :: b.data, cw.visitor.logs,
             cw.visitor.qn, cw.visitor.qw, nw, nw.qn, nw.qw, nw.socket
    ensures Coupled(cw, nw) && Reached(cw, nw, s0, es) && |disks| == |turns|
    ensures Present(cw, nw) == TakeTurns(cw.visitor.cfg, old(Present(cw, nw)), turns, disks)
    ensures AllOpen(turns) && old(cw.visitor.LogsProgress()) ==> AllTake(disks)
    ensures AllOpen(turns) && old(cw.visitor.LogsProgress()) && NoLogFailure(es0) ==> NoLogFailure(es)
    ensures Ample(old(nw.socket.results)) ==> nw.whole == old(nw.whole)
  {
    hide Coupled, Reached, Present, TurnStep, TakeTurns, NoLogFailure, Visitor.Model, Visitor.Valid, Visitor.LogsProgress, Ample;
    ghost var cfg, m0 := cw.visitor.cfg, Present(cw, nw);
    disks, es := [], es0;
    NoTurns(cfg, m0);
    for k := 0 to |turns|
      invariant Coupled(cw, nw) && Reached(cw, nw, s0, es) && |disks| == k
      invariant forall l | k <= l < |turns| :: turns[l].t >= cw.visitor.now && turns[l].t >= nw.lastRecv
      invariant Present(cw, nw) == TakeTurns(cfg, m0, turns[..k], disks)
      invariant old(cw.visitor.LogsProgress()) ==> cw.visitor.LogsProgress()
      invariant AllOpen(turns) && old(cw.visitor.LogsProgress()) ==> AllTake(disks)
      invariant AllOpen(turns) && old(cw.visitor.LogsProgress()) && NoLogFailure(es0) ==> NoLogFailure(es)
      invariant Ample(old(nw.socket.results)) ==> nw.whole == old(nw.whole) && Ample(nw.socket.results)
    {
      ghost var disk: Disk := Takes;
      ghost var more;
      NetOf(cw, nw);
      assert turns[..k + 1] == turns[..k] + [turns[k]];
      TurnsSnocAny(cfg, m0, turns[..k], disks, turns[k]);
      match turns[k] {
        case WorkerTurn(t, adc, canOpen) =>
          disk, more := WorkerGo(cw, nw, t, adc, canOpen, s0, es);
        case NetworkTurn(t, recv, pad) =>
          more := NetworkGo(cw, nw, recv, t, pad, s0, es);
      }
      if NoLogFailure(es) && NoLogFailure(more) {
        NoLogFailureConcat(es, more);
      }
      disks, es := disks + [disk], es + more;
    }
    assert turns[..|turns|] == turns;
  }

  lemma NoTurns(cfg: Config, m: Moment)
    ensures TakeTurns(cfg, m, [], []) == m
  {
  }

  lemma TurnsSnocAny(cfg: Config, m: Moment, turns: seq<Turn>, disks: seq<Disk>, turn: Turn)
    requires |turns| == |disks|
    ensures forall disk :: TakeTurns(cfg, m, turns + [turn], disks + [disk]) == TurnStep(cfg, TakeTurns(cfg, m, turns, disks), turn, disk)
  {
    hide TakeTurns, TurnStep;
    forall disk ensures TakeTurns(cfg, m, turns + [turn], disks + [disk]) == TurnStep(cfg, TakeTurns(cfg, m, turns, disks), turn, disk) {
      TurnsSnoc(cfg, m, turns, disks, turn, disk);
    }
  }
}
