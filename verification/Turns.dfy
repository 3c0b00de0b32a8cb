/** Whole turns of the two loops, as a function of what the threads meet in each. */
module Turns {
  import opened Types
  import opened Wire
  import opened Controller
  import opened Schedules
  import opened ScanLoop
  import opened Duplicates
  import opened TelemetryPipeline
  import opened BoundedShutdown

  /** One turn of either loop, at clock reading t. */
  datatype Turn =
    | WorkerTurn(t: nat, adc: nat, canOpen: bool)
    | NetworkTurn(t: nat, recv: Recv, pad: Padding)

  /** The transition system's state, and when the connection was opened or last brought a byte. */
  datatype Moment = Moment(s: State, lastRecv: nat)

  /** The state after one whole turn of the network thread. */
  function AfterNetwork(cfg: Config, s: State, recv: Recv, idle: nat): State {
    var s1 := NetworkStep(cfg, s, recv, idle);
    if s1.net.pc.Put? then NetworkStep(cfg, s1, recv, idle) else s1
  }

  lemma NetworkRuns(cfg: Config, s: State, recv: Recv, idle: nat) returns (es: seq<Event>)
    ensures Run(cfg, s, es) == AfterNetwork(cfg, s, recv, idle)
    ensures forall e | e in es :: e.Network?
  {
    hide Run, NetworkStep;
    var e := Network(recv, idle);
    RunNothing(cfg, s);
    RunSnoc(cfg, s, [], e);
    assert [] + [e] == [e];
    RunSnoc(cfg, s, [e], e);
    es := if NetworkStep(cfg, s, recv, idle).net.pc.Put? then [e, e] else [e];
    assert [e] + [e] == [e, e];
  }

  lemma WorkerRuns(cfg: Config, s: State, input: Input) returns (es: seq<Event>)
    ensures Run(cfg, s, es) == Settle(WorkerStep(cfg, s, input))
    ensures input.disk.Takes? ==> NoLogFailure(es)
  {
    hide Run, WorkerStep, Settle;
    var e := Worker(input);
    RunNothing(cfg, s);
    RunSnoc(cfg, s, [], e);
    assert [] + [e] == [e];
    var rest := SettleRuns(cfg, WorkerStep(cfg, s, input));
    RunConcat(cfg, s, [e], rest);
    es := [e] + rest;
  }

  function Idle(m: Moment, t: nat): nat {
    if m.s.net.connected then Minus(t, m.lastRecv) else 0
  }

  /** One turn: the worker visits one item, with any scan run to its end, or the network
      thread processes one. Only the log file's behaviour is left to choose. */
  function TurnStep(cfg: Config, m: Moment, turn: Turn, disk: Disk): Moment {
    match turn
    case WorkerTurn(t, adc, _) =>
      m.(s := Settle(WorkerStep(cfg, m.s, Input(Minus(t, m.s.now), adc, disk))))
    case NetworkTurn(t, recv, _) =>
      Moment(AfterNetwork(cfg, m.s, recv, Idle(m, t)), Heard(m.s.net, NextItem(m.s.net), recv, t, m.lastRecv))
  }

  function TakeTurns(cfg: Config, m: Moment, turns: seq<Turn>, disks: seq<Disk>): Moment
    requires |turns| == |disks|
  {
    if turns == [] then m else
    var n := |turns| - 1;
    TurnStep(cfg, TakeTurns(cfg, m, turns[..n], disks[..n]), turns[n], disks[n])
  }

  lemma TurnsSnoc(cfg: Config, m: Moment, turns: seq<Turn>, disks: seq<Disk>, turn: Turn, disk: Disk)
    requires |turns| == |disks|
    ensures TakeTurns(cfg, m, turns + [turn], disks + [disk]) == TurnStep(cfg, TakeTurns(cfg, m, turns, disks), turn, disk)
  {
    hide TurnStep;
    assert (turns + [turn])[..|turns|] == turns && (disks + [disk])[..|disks|] == disks;
  }

  /** Each turn is a run, with no failing log write unless disk says so. */
  lemma TurnRuns(cfg: Config, m: Moment, turn: Turn, disk: Disk) returns (es: seq<Event>)
    ensures Run(cfg, m.s, es) == TurnStep(cfg, m, turn, disk).s
    ensures disk.Takes? ==> NoLogFailure(es)
  {
    hide Run, WorkerStep, Settle, AfterNetwork, Heard, NextItem, Idle;
    match turn
    case WorkerTurn(t, adc, _) => es := WorkerRuns(cfg, m.s, Input(Minus(t, m.s.now), adc, disk));
    case NetworkTurn(t, recv, _) => es := NetworkRuns(cfg, m.s, recv, Idle(m, t));
  }

  // ---------------------------------------------------------------- bytes

  /** The bytes the socket offers during the turns, whether read or not. */
  function Offered(turns: seq<Turn>): seq<byte> {
    if turns == [] then [] else
    var turn := turns[|turns| - 1];
    Offered(turns[..|turns| - 1]) + if turn.NetworkTurn? && turn.recv.Byte? then [turn.recv.c] else []
  }

  lemma UnknownPush(engine: Engine, cs: seq<byte>, c: byte)
    ensures UnknownIn(engine, cs + [c]) == UnknownIn(engine, cs) + if Known(engine, c) then 0 else 1
  {
    assert (cs + [c])[..|cs|] == cs;
  }

  lemma SettleTrace(s: State)
    ensures Settle(s).trace == s.trace
  {
    hide DueFrom, ScanEntry;
    if s.pc.Scan? {
      SettleIsScan(s);
    }
  }

  /** The worker receives nothing. */
  lemma WorkerReceives(cfg: Config, s: State, input: Input)
    ensures Received(WorkerStep(cfg, s, input).trace) == Received(s.trace)
  {
    hide Visit;
    if s.pc.Poll? {
      var s0, x := if s.q == [] then s else Popped(s), if s.q == [] then WqNone else s.q[0];
      VisitNotes(cfg, s0, x, input);
      var trace := Visit(cfg, s0, x, input).trace;
      assert Received(trace) == Received(trace[..|trace| - 1]) + [];
    }
  }

  /** The network thread receives at most the byte its socket offers. */
  lemma NetworkReceives(cfg: Config, s: State, recv: Recv, idle: nat)
    ensures var trace := AfterNetwork(cfg, s, recv, idle).trace;
      Received(trace) == Received(s.trace) || (recv.Byte? && Received(trace) == Received(s.trace) + [recv.c])
  {
    var s1 := NetworkStep(cfg, s, recv, idle);
    if Reads(s.net) && recv.Byte? {
      ReceivedPush(s.trace, Arrived(recv.c));
      assert !s1.net.pc.Put?;
    }
  }

  lemma TurnReceives(cfg: Config, m: Moment, turn: Turn, disk: Disk)
    ensures var trace := TurnStep(cfg, m, turn, disk).s.trace;
      || Received(trace) == Received(m.s.trace)
      || (turn.NetworkTurn? && turn.recv.Byte? && Received(trace) == Received(m.s.trace) + [turn.recv.c])
  {
    hide WorkerStep, Settle, AfterNetwork, Received;
    match turn
    case WorkerTurn(t, adc, _) =>
      var input := Input(Minus(t, m.s.now), adc, disk);
      WorkerReceives(cfg, m.s, input);
      SettleTrace(WorkerStep(cfg, m.s, input));
    case NetworkTurn(t, recv, _) =>
      NetworkReceives(cfg, m.s, recv, Idle(m, t));
  }

  /** No more unknown bytes are received than were offered. */
  lemma {:induction false} UnknownOffered(cfg: Config, m: Moment, turns: seq<Turn>, disks: seq<Disk>)
    requires |turns| == |disks|
    ensures Unknown(cfg.engine, TakeTurns(cfg, m, turns, disks).s.trace)
            <= Unknown(cfg.engine, m.s.trace) + UnknownIn(cfg.engine, Offered(turns))
  {
    hide TurnStep, Unknown, UnknownIn, Known, Received;
    if turns != [] {
      var n := |turns| - 1;
      var m1 := TakeTurns(cfg, m, turns[..n], disks[..n]);
      UnknownOffered(cfg, m, turns[..n], disks[..n]);
      TurnReceives(cfg, m1, turns[n], disks[n]);
      UnknownReceived(cfg.engine, m1.s.trace);
      UnknownReceived(cfg.engine, TakeTurns(cfg, m, turns, disks).s.trace);
      if turns[n].NetworkTurn? && turns[n].recv.Byte? {
        UnknownPush(cfg.engine, Received(m1.s.trace), turns[n].recv.c);
        UnknownPush(cfg.engine, Offered(turns[..n]), turns[n].recv.c);
      } else {
        assert Offered(turns) == Offered(turns[..n]);
      }
    }
  }
}
