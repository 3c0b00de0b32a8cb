/** What passes between the two threads: commands one way, frames the other. */
module Flows {
  import opened Types
  import opened CircularBuffers
  import opened Wire
  import opened Controller
  import opened Scheduling
  import opened FiringSequence
  import opened TelemetryPipeline

  // ---------------------------------------------------------------- commands

  /** The bytes visitProc has handled, in order. */
  function Handled(trace: seq<Obs>): seq<byte> {
    if trace == [] then [] else
    var o := trace[|trace| - 1];
    Handled(trace[..|trace| - 1]) + if o.Commanded? then [o.c] else []
  }

  /** The bytes waiting in the work queue, in order. */
  function Pending(q: seq<Work>): seq<byte> {
    if q == [] then [] else
    Pending(q[..|q| - 1]) + if q[|q| - 1].WqProcess? then [q[|q| - 1].c] else []
  }

  lemma PendingPush(q: seq<Work>, x: Work)
    ensures Pending(q + [x]) == if x.WqProcess? then Pending(q) + [x.c] else Pending(q)
  {
    assert (q + [x])[..|q|] == q;
  }

  lemma {:induction false} PendingHead(q: seq<Work>)
    requires q != []
    ensures Pending(q) == if q[0].WqProcess? then [q[0].c] + Pending(q[1..]) else Pending(q[1..])
  {
    if |q| == 1 {
      assert q[..0] == [] && q[1..] == [];
    } else {
      PendingHead(q[..|q| - 1]);
      assert q[..|q| - 1][1..] == q[1..][..|q[1..]| - 1];
    }
  }

  lemma FlowPush(trace: seq<Obs>, o: Obs)
    ensures Handled(trace + [o]) == if o.Commanded? then Handled(trace) + [o.c] else Handled(trace)
    ensures Received(trace + [o]) == if o.Arrived? then Received(trace) + [o.c] else Received(trace)
  {
    assert (trace + [o])[..|trace|] == trace;
  }

  /** Handled bytes, then bytes between, then pending ones, are the bytes received. */
  predicate Conserved(s: State, between: seq<byte>) {
    Handled(s.trace) + between + Pending(s.q) == Received(s.trace)
  }

  lemma ProcConserved(cfg: Config, s: State, c: byte)
    requires Conserved(s, [c])
    ensures Conserved(Proc(cfg, s, c), [])
  {
    hide Handled, Pending, Received, PinsAfter, Known;
    FlowPush(s.trace, Commanded(c));
    assert s.q + [] == s.q;
    PendingPush(s.q, WqIgn1);
    PendingPush(s.q, WqNone);
  }

  lemma FireConserved(cfg: Config, s: State, i: Slot, t: nat)
    requires Conserved(s, []) && i >= SENSORS
    ensures Conserved(FireItem(cfg, s, i, t), [])
  {
    hide Handled, Pending, Received, Fire;
    FlowPush(s.trace, FireObs(cfg, s.rig, i, t));
  }

  lemma SampleConserved(cfg: Config, s: State, i: Slot, t: nat, input: Input)
    requires Conserved(s, []) && i < SENSORS
    ensures Conserved(Sample(cfg, s, i, t, input), [])
  {
    hide Handled, Pending, Received, Sample;
    SampleKeeps(cfg, s, i, t, input);
    FlowPush(s.trace, Sample(cfg, s, i, t, input).trace[|s.trace|]);
  }

  lemma VisitConserved(cfg: Config, s: State, x: Work, input: Input)
    requires Conserved(s, if x.WqProcess? then [x.c] else [])
    ensures Conserved(Visit(cfg, s, x, input), [])
  {
    hide Handled, Pending, Received, Proc, Sample, FireItem;
    var t := s.now + input.dt;
    match x
    case WqProcess(c) => ProcConserved(cfg, s, c);
    case WqNone => FlowPush(s.trace, Polled(t));
    case WqIgn1 => FlowPush(s.trace, Ignited(t));
    case WqTimed(i) =>
      if i < SENSORS {
        SampleConserved(cfg, Touched(s, i, t), i, t, input);
      } else {
        FireConserved(cfg, Touched(s, i, t), i, t);
      }
  }

  lemma StepConserved(cfg: Config, s: State, e: Event)
    requires Conserved(s, [])
    ensures Conserved(Step(cfg, s, e), [])
  {
    hide Handled, Pending, Received, Visit, NetStep;
    match e
    case Network(recv, _) =>
      if recv.Byte? {
        FlowPush(s.trace, Arrived(recv.c));
        PendingPush(s.q, WqProcess(recv.c));
      }
    case Worker(input) =>
      if s.pc.Scan? {
        PendingPush(s.q, WqTimed(s.pc.i));
      } else if s.q == [] {
        VisitConserved(cfg, s, WqNone, input);
      } else {
        PendingHead(s.q);
        assert Conserved(Popped(s), if s.q[0].WqProcess? then [s.q[0].c] else []);
        VisitConserved(cfg, Popped(s), s.q[0], input);
      }
  }

  lemma {:induction false} RunConserved(cfg: Config, s: State, es: seq<Event>)
    requires Initial(cfg, s)
    ensures Conserved(Run(cfg, s, es), [])
  {
    if es != [] {
      hide Step, Conserved, Initial;
      RunConserved(cfg, s, es[..|es| - 1]);
      StepConserved(cfg, Run(cfg, s, es[..|es| - 1]), es[|es| - 1]);
    }
  }

  /** In every interleaving the command bytes handled, followed by those pending, are the
      bytes received, in order. */
  lemma CommandsConserved(cfg: Config, s: State, es: seq<Event>)
    requires Initial(cfg, s)
    ensures var s' := Run(cfg, s, es); Handled(s'.trace) + Pending(s'.q) == Received(s'.trace)
  {
    hide Run, Handled, Pending, Received, Initial;
    RunConserved(cfg, s, es);
    var s' := Run(cfg, s, es);
    assert Handled(s'.trace) + [] == Handled(s'.trace);
  }

  // ---------------------------------------------------------------- the network queue

  /** Among the queue and the item about to be queued there is at most one read or ack
      request, and without a timeout it is a read. */
  predicate OneRequest(timeout: nat, n: Net) {
    && NqNone !in n.qn
    && Count(n.qn, NqRecv) + Count(n.qn, NqSendAck) + One(n.pc.Put?) <= 1
    && (n.pc.Put? ==> n.pc.item.NqRecv? || n.pc.item.NqSendAck?)
    && (timeout == 0 ==> NqSendAck !in n.qn && n.pc != Put(NqSendAck))
  }

  lemma NetOneRequest(timeout: nat, n: Net, recv: Recv, idle: nat)
    requires OneRequest(timeout, n)
    ensures OneRequest(timeout, NetStep(timeout, n, recv, idle))
  {
    hide Count;
    if n.pc.Put? {
      CountPush(n.qn, n.pc.item, NqRecv);
      CountPush(n.qn, n.pc.item, NqSendAck);
    } else if n.qn != [] {
      CountHead(n.qn, NqRecv);
      CountHead(n.qn, NqSendAck);
    } else {
      assert Count(n.qn, NqRecv) == 0 && Count(n.qn, NqSendAck) == 0 by { CountEmpty<NetItem>(NqRecv); CountEmpty<NetItem>(NqSendAck); }
    }
  }

  lemma CountEmpty<T>(x: T)
    ensures Count([], x) == 0
  {
  }

  /** The worker only ever adds frames to the network queue. */
  lemma WorkerNet(cfg: Config, s: State, e: Event)
    requires e.Worker?
    ensures var n' := Step(cfg, s, e).net;
      n' == s.net || (n' == s.net.(qn := n'.qn) && n'.qn != [] && n'.qn[..|n'.qn| - 1] == s.net.qn && n'.qn[|s.net.qn|].NqSend?
          && n'.qn[|s.net.qn|].frame.chan < SENSORS)
  {
    hide PinsAfter, FollowUp, Fire, FireObs, Ignite, Touch, ChannelAfter, Trips, AverageAfter;
  }

  lemma StepOneRequest(cfg: Config, s: State, e: Event)
    requires OneRequest(cfg.timeout, s.net)
    ensures OneRequest(cfg.timeout, Step(cfg, s, e).net)
  {
    hide Count;
    match e
    case Network(recv, idle) =>
      hide OneRequest, NetStep;
      NetOneRequest(cfg.timeout, s.net, recv, idle);
    case Worker(_) =>
      hide WorkerStep;
      WorkerNet(cfg, s, e);
      var n' := Step(cfg, s, e).net;
      if n' != s.net {
        assert n'.qn == s.net.qn + [n'.qn[|s.net.qn|]];
        CountPush(s.net.qn, n'.qn[|s.net.qn|], NqRecv);
        CountPush(s.net.qn, n'.qn[|s.net.qn|], NqSendAck);
      }
  }

  lemma {:induction false} RunOneRequest(cfg: Config, s: State, es: seq<Event>)
    requires Initial(cfg, s)
    ensures OneRequest(cfg.timeout, Run(cfg, s, es).net)
  {
    if es == [] {
      assert [] + [NqRecv] == [NqRecv];
      CountPush([], NqRecv, NqRecv);
      CountPush([], NqRecv, NqSendAck);
    } else {
      hide OneRequest, Step, Initial;
      RunOneRequest(cfg, s, es[..|es| - 1]);
      StepOneRequest(cfg, Run(cfg, s, es[..|es| - 1]), es[|es| - 1]);
    }
  }

  /** Without a timeout the network queue always holds at most one read and never an ack. */
  lemma AtMostOneRead(cfg: Config, s: State, es: seq<Event>)
    requires Initial(cfg, s) && cfg.timeout == 0
    ensures Count(Run(cfg, s, es).net.qn, NqRecv) <= 1
    ensures NqSendAck !in Run(cfg, s, es).net.qn
  {
    hide Run, Initial, Count;
    RunOneRequest(cfg, s, es);
  }

  // ---------------------------------------------------------------- frames

  /** The frames of channel i among fs. */
  function OfChannel(fs: seq<Frame>, i: nat): seq<Frame> {
    if fs == [] then [] else
    var f := fs[|fs| - 1];
    OfChannel(fs[..|fs| - 1], i) + if f.chan == i then [f] else []
  }

  /** The frames waiting in the network queue. */
  function Waiting(qn: seq<NetItem>): seq<Frame> {
    if qn == [] then [] else
    var x := qn[|qn| - 1];
    Waiting(qn[..|qn| - 1]) + if x.NqSend? then [x.frame] else []
  }

  /** The frames that were given to the network thread. */
  function QueuedOnes(fs: seq<Frame>): seq<Frame> {
    if fs == [] then [] else
    var f := fs[|fs| - 1];
    QueuedOnes(fs[..|fs| - 1]) + if f.queued then [f] else []
  }

  lemma FramePush(fs: seq<Frame>, f: Frame, i: nat)
    ensures OfChannel(fs + [f], i) == if f.chan == i then OfChannel(fs, i) + [f] else OfChannel(fs, i)
    ensures QueuedOnes(fs + [f]) == if f.queued then QueuedOnes(fs) + [f] else QueuedOnes(fs)
  {
    assert (fs + [f])[..|fs|] == fs;
  }

  lemma WaitingPush(qn: seq<NetItem>, x: NetItem)
    ensures Waiting(qn + [x]) == if x.NqSend? then Waiting(qn) + [x.frame] else Waiting(qn)
  {
    assert (qn + [x])[..|qn|] == qn;
  }

  lemma {:induction false} WaitingHead(qn: seq<NetItem>)
    requires qn != []
    ensures Waiting(qn) == if qn[0].NqSend? then [qn[0].frame] + Waiting(qn[1..]) else Waiting(qn[1..])
  {
    if |qn| == 1 {
      assert qn[..0] == [] && qn[1..] == [];
    } else {
      WaitingHead(qn[..|qn| - 1]);
      assert qn[..|qn| - 1][1..] == qn[1..][..|qn[1..]| - 1];
    }
  }

  /** Everything handed to the network thread so far, sent or waiting. */
  function Conveyed(n: Net): seq<Frame> { n.sent + Waiting(n.qn) }

  lemma NetConveyed(timeout: nat, n: Net, recv: Recv, idle: nat)
    requires OneRequest(timeout, n)
    ensures Conveyed(NetStep(timeout, n, recv, idle)) == Conveyed(n)
  {
    hide Waiting, Count;
    if n.pc.Put? {
      WaitingPush(n.qn, n.pc.item);
    } else if n.qn != [] {
      WaitingHead(n.qn);
    }
  }

  /** The network's frames of channel i are the queued ones among the channel's frames. */
  predicate Delivers(s: State, i: nat)
    requires i < SENSORS
  {
    OfChannel(Conveyed(s.net), i) == QueuedOnes(s.tele.chans[i].frames)
  }

  /** The frame a sample of sensor i at time t would hand over. */
  function NextFrame(s: State, i: Slot, t: nat): Frame
    requires i < SENSORS
  {
    SendFrame(s.rig.items[i], i, s.tele.chans[i].ring.written + RECORD_SIZE, t, s.net.connected)
  }

  /** A sample gives its frame to the network when it sends and someone is connected. */
  lemma SampleNet(cfg: Config, s: State, i: Slot, t: nat, input: Input)
    requires i < SENSORS
    ensures var f := NextFrame(s, i, t);
      Timed(cfg, s, i, t, input).net ==
      if Sends(s.rig.items[i], t) && f.queued then s.net.(qn := s.net.qn + [NqSend(f)]) else s.net
  {
    hide ChannelAfter, Trips, AverageAfter;
  }

  lemma ChannelFrames(ch: Channel, it: TimedItem, i: Slot, t: nat, input: Input, connected: bool)
    requires ch.ring.Valid()
    ensures var f := SendFrame(it, i, ch.ring.written + RECORD_SIZE, t, connected);
      ChannelAfter(ch, it, i, t, input, connected).frames == (if Sends(it, t) then ch.frames + [f] else ch.frames)
      && f.chan == i
  {
    hide Add, Record, Logged;
  }

  lemma SampleDelivers(cfg: Config, s: State, i: Slot, t: nat, input: Input, j: nat)
    requires i < SENSORS && j < SENSORS && Delivers(s, j)
    ensures Delivers(Timed(cfg, s, i, t, input), j)
  {
    hide OfChannel, Waiting, QueuedOnes, Timed, ChannelAfter, SendFrame;
    SampleChannels(cfg, s, i, t, input);
    SampleNet(cfg, s, i, t, input);
    ChannelFrames(s.tele.chans[i], s.rig.items[i].(scheduled := t), i, t, input, s.net.connected);
    NextTouched(s, i, t);
    var f := NextFrame(s, i, t);
    FramePush(Conveyed(s.net), f, j);
    FramePush(s.tele.chans[i].frames, f, j);
    WaitingPush(s.net.qn, NqSend(f));
    assert s.net.sent + (Waiting(s.net.qn) + [f]) == Conveyed(s.net) + [f];
  }

  lemma NextTouched(s: State, i: Slot, t: nat)
    requires i < SENSORS
    ensures SendFrame(s.rig.items[i].(scheduled := t), i, s.tele.chans[i].ring.written + RECORD_SIZE, t, s.net.connected)
         == NextFrame(s, i, t)
  {
  }

  /** A worker step that samples nothing leaves the network alone. */
  lemma QuietNet(cfg: Config, s: State, e: Event)
    requires e.Worker? && !Samples(s, e)
    ensures Step(cfg, s, e).net == s.net
  {
    hide PinsAfter, FollowUp, Fire, FireObs, Ignite, Touch;
  }

  lemma StepDelivers(cfg: Config, s: State, e: Event, j: nat)
    requires j < SENSORS && Delivers(s, j) && OneRequest(cfg.timeout, s.net)
    ensures Delivers(Step(cfg, s, e), j)
  {
    hide OfChannel, Conveyed, QueuedOnes, OneRequest, Timed, Proc, Ignition1, StartScan, ScanEntry, NetStep;
    if Samples(s, e) {
      hide Delivers;
      DeliversPopped(s, j);
      SampleDelivers(cfg, Popped(s), s.q[0].i, s.now + e.input.dt, e.input, j);
    } else {
      QuietTelemetry(cfg, s, e);
      match e
      case Network(recv, idle) => NetConveyed(cfg.timeout, s.net, recv, idle);
      case Worker(_) => QuietNet(cfg, s, e);
    }
  }

  lemma DeliversPopped(s: State, j: nat)
    requires j < SENSORS && Delivers(s, j) && s.q != []
    ensures Delivers(Popped(s), j)
  {
  }

  lemma {:induction false} RunDelivers(cfg: Config, s: State, es: seq<Event>, j: nat)
    requires Initial(cfg, s) && j < SENSORS
    ensures Delivers(Run(cfg, s, es), j)
  {
    if es == [] {
      assert InitialChannel(s.tele.chans[j]);
      assert [] + [NqRecv] == [NqRecv];
      WaitingPush([], NqRecv);
    } else {
      hide Delivers, OneRequest, Step, Initial;
      RunDelivers(cfg, s, es[..|es| - 1], j);
      RunOneRequest(cfg, s, es[..|es| - 1]);
      StepDelivers(cfg, Run(cfg, s, es[..|es| - 1]), es[|es| - 1], j);
    }
  }

  // ---------------------------------------------------------------- tiling

  predicate Covers(f: Frame, x: nat) { f.offset <= x < f.offset + f.nbytes }

  /** Tiled frames cover each position below end once, and nothing from end on. */
  lemma {:induction false} TiledCovers(frames: seq<Frame>, i: nat, end: nat, x: nat)
    requires Tiled(frames, i, end)
    ensures x < end <==> exists k :: 0 <= k < |frames| && Covers(frames[k], x)
    ensures forall k, l | 0 <= k < l < |frames| && Covers(frames[k], x) :: !Covers(frames[l], x)
  {
    if frames != [] {
      var n := |frames| - 1;
      var init := frames[..n];
      TiledCovers(init, i, frames[n].offset, x);
      if x < frames[n].offset {
        var k :| 0 <= k < |init| && Covers(init[k], x);
        assert Covers(frames[k], x);
      } else if x < end {
        assert Covers(frames[n], x);
      }
    }
  }

  /** In every run: the frames of channel j, queued to the network or skipped because no one
      was connected, cover each byte up to the last send exactly once, in order; and what the
      network thread sent and still holds of channel j is exactly its queued frames, in order. */
  lemma FrameTiling(cfg: Config, s: State, es: seq<Event>, j: nat, x: nat)
    requires Initial(cfg, s) && j < SENSORS
    ensures var s' := Run(cfg, s, es);
      var frames := s'.tele.chans[j].frames;
      && OfChannel(s'.net.sent + Waiting(s'.net.qn), j) == QueuedOnes(frames)
      && (x < s'.rig.items[j].nbytesLastSend <==> exists k :: 0 <= k < |frames| && Covers(frames[k], x))
      && (forall k, l | 0 <= k < l < |frames| && Covers(frames[k], x) :: !Covers(frames[l], x))
  {
    hide Run, Initial, OfChannel, QueuedOnes, Waiting, Tiled;
    RunSound(cfg, s, es, j);
    RunDelivers(cfg, s, es, j);
    TiledCovers(Run(cfg, s, es).tele.chans[j].frames, j, Run(cfg, s, es).rig.items[j].nbytesLastSend, x);
  }
}
