/** When a frame goes to the network, and when the base station is connected. Every number
    stands here as the source has it. */
module Links {
  import opened Types
  import opened CircularBuffers
  import opened Controller
  import opened Scheduling
  import opened TelemetryPipeline
  import opened Flows

  // ---------------------------------------------------------------- frames

  /** The frame's bytes that its log file takes: all, or the first k. */
  function Dumped(r: Ring, f: Frame, disk: Disk): seq<byte>
    requires r.Valid()
  {
    Cyclic(r, if disk.FailsAfter? && disk.k < f.nbytes then disk.k else f.nbytes, f.offset)
  }

  /** A sample of sensor i at time t that hands over everything since the last send, to its
      log, and to the network exactly if someone is connected. */
  predicate HandsOver(s: State, s': State, i: nat, t: nat, disk: Disk)
    requires i < SENSORS
  {
    var ch, ch', it := s.tele.chans[i], s'.tele.chans[i], s.rig.items[i];
    && |ch'.frames| == |ch.frames| + 1 && ch'.frames[..|ch.frames|] == ch.frames
    && var f := ch'.frames[|ch.frames|];
    && f.chan == i && f.offset == it.nbytesLastSend && f.offset + f.nbytes == ch'.ring.written && f.at == t
    && f.queued == s.net.connected
    && ch'.log == ch.log + Dumped(ch'.ring, f, disk)
    && s'.net.qn == (if s.net.connected then s.net.qn + [NqSend(f)] else s.net.qn)
    && s'.rig.items[i].nbytesLastSend == ch'.ring.written && s'.rig.items[i].lastSend == t
  }

  /** A sample of sensor i that hands over nothing. */
  predicate HoldsBack(s: State, s': State, i: nat)
    requires i < SENSORS
  {
    var it, it' := s.rig.items[i], s'.rig.items[i];
    && s'.tele.chans[i].frames == s.tele.chans[i].frames && s'.tele.chans[i].log == s.tele.chans[i].log
    && s'.net.qn == s.net.qn
    && it'.nbytesLastSend == it.nbytesLastSend && it'.lastSend == it.lastSend
  }

  lemma ChannelUplink(ch: Channel, it: TimedItem, i: Slot, t: nat, input: Input, connected: bool)
    requires ch.ring.Valid() && it.nbytesLastSend <= ch.ring.written
    ensures var ch' := ChannelAfter(ch, it, i, t, input, connected);
      && ch'.ring.written == ch.ring.written + 16
      && if t - it.lastSend > 500_000 then
           var f := Frame(i, it.nbytesLastSend, ch.ring.written + 16 - it.nbytesLastSend, connected, t);
           ch'.frames == ch.frames + [f] && ch'.log == ch.log + Dumped(ch'.ring, f, input.disk)
         else ch'.frames == ch.frames && ch'.log == ch.log
  {
    hide Add, Cyclic;
  }

  lemma SampleUplink(cfg: Config, s: State, i: Slot, t: nat, input: Input)
    requires i < SENSORS && s.rig.items[i].nbytesLastSend <= s.tele.chans[i].ring.written
    ensures var s' := Timed(cfg, s, i, t, input);
      && s'.tele.chans[i].ring.written == s.tele.chans[i].ring.written + 16
      && (forall j | 0 <= j < SENSORS && j != i :: s'.tele.chans[j] == s.tele.chans[j])
      && s'.net == s.net.(qn := s'.net.qn)
      && if t - s.rig.items[i].lastSend > 500_000 then HandsOver(s, s', i, t, input.disk) else HoldsBack(s, s', i)
  {
    hide ChannelAfter, Timed, SendFrame;
    SampleChannels(cfg, s, i, t, input);
    SampleNet(cfg, s, i, t, input);
    var it := s.rig.items[i].(scheduled := t);
    ChannelUplink(s.tele.chans[i], it, i, t, input, s.net.connected);
    SameFrame(s, i, t);
  }

  /** The frame that a send would put on the queue. */
  lemma SameFrame(s: State, i: Slot, t: nat)
    requires i < SENSORS && s.rig.items[i].nbytesLastSend <= s.tele.chans[i].ring.written
    ensures var it, written := s.rig.items[i], s.tele.chans[i].ring.written;
      NextFrame(s, i, t) == Frame(i, it.nbytesLastSend, written + 16 - it.nbytesLastSend, s.net.connected, t)
  {
  }

  /** In any reachable state: when the worker samples sensor i at time t more than 500 ms after
      its last send, it hands over a frame from the old to the new end of the stream to its log, and
      puts it on the network queue exactly if someone is connected; all other steps of the worker leave
      network queue and frames alone. */
  lemma UplinkRule(cfg: Config, s0: State, es: seq<Event>, input: Input)
    requires Initial(cfg, s0)
    ensures var s := Run(cfg, s0, es);
      var s' := Step(cfg, s, Worker(input));
      var t := s.now + input.dt;
      if s.pc.Poll? && s.q != [] && s.q[0].WqTimed? && s.q[0].i < 10 then
        var i := s.q[0].i;
        && s'.tele.chans[i].ring.written == s.tele.chans[i].ring.written + 16
        && (forall j | 0 <= j < SENSORS && j != i :: s'.tele.chans[j] == s.tele.chans[j])
        && s'.net == s.net.(qn := s'.net.qn)
        && if t - s.rig.items[i].lastSend > 500_000 then HandsOver(s, s', i, t, input.disk) else HoldsBack(s, s', i)
      else s'.net == s.net && s'.tele.chans == s.tele.chans
  {
    hide Run, Initial, Timed, Tiled, HandsOver, HoldsBack;
    var s := Run(cfg, s0, es);
    if s.pc.Poll? && s.q != [] && s.q[0].WqTimed? && s.q[0].i < 10 {
      var i := s.q[0].i;
      RunSound(cfg, s0, es, i);
      SampleUplink(cfg, Popped(s), i, s.now + input.dt, input);
      PoppedUplink(s, Step(cfg, s, Worker(input)), i, s.now + input.dt, input.disk);
    } else {
      QuietNet(cfg, s, Worker(input));
      QuietTelemetry(cfg, s, Worker(input));
    }
  }

  lemma PoppedUplink(s: State, s': State, i: nat, t: nat, disk: Disk)
    requires s.q != [] && i < SENSORS
    ensures HandsOver(Popped(s), s', i, t, disk) == HandsOver(s, s', i, t, disk) && HoldsBack(Popped(s), s', i) == HoldsBack(s, s', i)
  {
  }

  /** What a step does to the frames of channel j: at most one more, skipped exactly if the
      connection was down. */
  predicate FramesStep(s: State, s': State, j: nat)
    requires j < SENSORS
  {
    var fs, fs' := s.tele.chans[j].frames, s'.tele.chans[j].frames;
    || fs' == fs
    || (|fs'| == |fs| + 1 && fs'[..|fs|] == fs && fs'[|fs|].queued == s.net.connected && fs'[|fs|].at == s'.now)
  }

  lemma StepFrames(cfg: Config, s0: State, es: seq<Event>, e: Event, j: nat)
    requires Initial(cfg, s0) && j < SENSORS
    ensures FramesStep(Run(cfg, s0, es), Step(cfg, Run(cfg, s0, es), e), j)
  {
    hide Run, Initial, Timed, Proc, Ignition1, StartScan, NetStep;
    var s := Run(cfg, s0, es);
    if Samples(s, e) {
      UplinkRule(cfg, s0, es, e.input);
      SampleItems(cfg, Popped(s), s.q[0].i, s.now + e.input.dt, e.input);
    } else {
      QuietTelemetry(cfg, s, e);
    }
  }

  /** In every run: frame a of channel j was handed over in some step k, and it was skipped
      exactly if the connection was down then. */
  lemma {:induction false} SkipsExactly(cfg: Config, s: State, es: seq<Event>, j: nat, a: nat) returns (k: nat)
    requires Initial(cfg, s) && j < SENSORS && a < |Run(cfg, s, es).tele.chans[j].frames|
    ensures k < |es|
    ensures var s1, s2 := Run(cfg, s, es[..k]), Run(cfg, s, es[..k + 1]);
      var f := Run(cfg, s, es).tele.chans[j].frames[a];
      && |s1.tele.chans[j].frames| == a && s2.tele.chans[j].frames == s1.tele.chans[j].frames + [f]
      && f.queued == s1.net.connected && f.at == s2.now
  {
    hide Run, Step, Initial, FramesStep;
    if es == [] {
      NoFrames(cfg, s, j);
      assert false;
    } else {
      var n := |es| - 1;
      var s1 := Run(cfg, s, es[..n]);
      StepFrames(cfg, s, es[..n], es[n], j);
      RunSnoc(cfg, s, es[..n], es[n]);
      assert es[..n] + [es[n]] == es;
      FramesGrow(s1, Run(cfg, s, es), j, a);
      if a < |s1.tele.chans[j].frames| {
        k := SkipsExactly(cfg, s, es[..n], j, a);
        assert es[..n][..k] == es[..k] && es[..n][..k + 1] == es[..k + 1];
      } else {
        k := n;
        assert es[..n + 1] == es;
      }
    }
  }

  lemma FramesGrow(s: State, s': State, j: nat, a: nat)
    requires j < SENSORS && FramesStep(s, s', j) && a < |s'.tele.chans[j].frames|
    ensures var fs, fs' := s.tele.chans[j].frames, s'.tele.chans[j].frames;
      if a < |fs| then fs'[a] == fs[a]
      else a == |fs| && fs' == fs + [fs'[a]] && fs'[a].queued == s.net.connected && fs'[a].at == s'.now
  {
  }

  lemma NoFrames(cfg: Config, s: State, j: nat)
    requires Initial(cfg, s) && j < SENSORS
    ensures Run(cfg, s, []).tele.chans[j].frames == []
  {
    assert InitialChannel(s.tele.chans[j]);
  }

  // ---------------------------------------------------------------- the network thread

  /** The item the network thread takes in this step, if it takes one. */
  predicate TakesItem(s: State, e: Event, x: NetItem) {
    e.Network? && s.net.pc.NetPoll? && x == if s.net.qn == [] then NqNone else s.net.qn[0]
  }

  predicate ReadsEof(s: State, e: Event) { TakesItem(s, e, NqRecv) && e.recv.Eof? }

  predicate TimesOut(cfg: Config, s: State, e: Event) {
    TakesItem(s, e, NqNone) && cfg.timeout > 0 && e.idle > cfg.timeout
  }

  /** The thread drops the connection: end of file, or, with a timeout, silence. */
  predicate Drops(cfg: Config, s: State, e: Event) { ReadsEof(s, e) || TimesOut(cfg, s, e) }

  /** The thread connects: it finds nothing to do, and no connection. */
  predicate Connects(s: State, e: Event) { TakesItem(s, e, NqNone) && !s.net.connected }

  lemma StepConnection(cfg: Config, s: State, e: Event)
    ensures Step(cfg, s, e).net.connected <==> (s.net.connected || Connects(s, e)) && !Drops(cfg, s, e)
  {
    match e
    case Network(recv, idle) =>
    case Worker(_) =>
      hide WorkerStep;
      WorkerNet(cfg, s, e);
  }

  predicate DropsAt(cfg: Config, s: State, es: seq<Event>, k: nat) { k < |es| && Drops(cfg, Run(cfg, s, es[..k]), es[k]) }

  predicate ConnectsAt(cfg: Config, s: State, es: seq<Event>, k: nat) { k < |es| && Connects(Run(cfg, s, es[..k]), es[k]) }

  /** There was a connection, from the start or made in some step, and none dropped it from
      then on. */
  ghost predicate Linked(cfg: Config, s: State, es: seq<Event>) {
    || (s.net.connected && forall l: nat :: !DropsAt(cfg, s, es, l))
    || exists k: nat :: ConnectsAt(cfg, s, es, k) && forall l: nat | k <= l :: !DropsAt(cfg, s, es, l)
  }

  lemma LinkedNext(cfg: Config, s: State, es: seq<Event>)
    requires es != []
    ensures var n := |es| - 1;
      Linked(cfg, s, es) <==> (Linked(cfg, s, es[..n]) || ConnectsAt(cfg, s, es, n)) && !DropsAt(cfg, s, es, n)
  {
    hide Run, Drops, Connects;
    var n := |es| - 1;
    var init := es[..n];
    forall l: nat
      ensures DropsAt(cfg, s, init, l) == (l != n && DropsAt(cfg, s, es, l))
      ensures ConnectsAt(cfg, s, init, l) == (l != n && ConnectsAt(cfg, s, es, l))
    {
      assert l < n ==> init[..l] == es[..l];
    }
    if Linked(cfg, s, es) {
      assert !DropsAt(cfg, s, es, n);
      if !(s.net.connected && forall l: nat :: !DropsAt(cfg, s, es, l)) {
        var k: nat :| ConnectsAt(cfg, s, es, k) && forall l: nat | k <= l :: !DropsAt(cfg, s, es, l);
        assert k != n ==> ConnectsAt(cfg, s, init, k);
      }
    }
  }

  /** After any run the base station is connected exactly if it was linked. Without a timeout
      only an end of file drops it. */
  lemma {:induction false} ConnectedExactly(cfg: Config, s: State, es: seq<Event>)
    ensures Run(cfg, s, es).net.connected <==> Linked(cfg, s, es)
  {
    if es != [] {
      hide Step, Linked, Drops, Connects;
      var n := |es| - 1;
      ConnectedExactly(cfg, s, es[..n]);
      StepConnection(cfg, Run(cfg, s, es[..n]), es[n]);
      LinkedNext(cfg, s, es);
    }
  }

  /** Each step of the network thread: it enqueues the request it owes, or it takes an item. A
      frame is sent, a byte goes to the worker; on nothing the connection is made, times out,
      or a read or an ack request is owed. */
  lemma NetworkRule(cfg: Config, s: State, recv: Recv, idle: nat)
    ensures var n, s' := s.net, Step(cfg, s, Network(recv, idle));
      var n' := s'.net;
      var gets := n.pc.NetPoll? && n.qn != [] && n.qn[0].NqRecv?;
      && s' == s.(net := n', q := s'.q, trace := s'.trace)
      && s'.q == (if gets && recv.Byte? then s.q + [WqProcess(recv.c)] else s.q)
      && s'.trace == (if gets && recv.Byte? then s.trace + [Arrived(recv.c)] else s.trace)
      && match n.pc
         case Put(x) => n' == n.(pc := NetPoll, qn := n.qn + [x])
         case NetPoll =>
           var x, late := if n.qn == [] then NqNone else n.qn[0], cfg.timeout > 0 && idle > cfg.timeout;
           && n'.qn == (if n.qn == [] then [] else n.qn[1..])
           && n'.sent == (if x.NqSend? then n.sent + [x.frame] else n.sent)
           && n'.connected == (if x.NqNone? then !late else n.connected && !(x.NqRecv? && recv.Eof?))
           && n'.hasAcked == (n.hasAcked && !(x.NqRecv? && recv.Byte?) && !(x.NqNone? && !n.connected))
           && n'.pc == (if !x.NqNone? || late then NetPoll
                        else if cfg.timeout > 0 && !(n.connected && n.hasAcked) && idle > cfg.timeout / 2 then Put(NqSendAck)
                        else Put(NqRecv))
  {
  }
}
