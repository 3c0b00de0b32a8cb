/** The network thread (server/network_worker, final/main_network_worker). */
module NetworkWorkers {
  import opened Types
  import opened CircularBuffers
  import opened Wire
  import opened SafeQueues
  import opened BuffLogger
  import opened Controller

  /** One more message adds its bytes at the end. */
  lemma EmitAllSnoc(ms: seq<Message>, pads: seq<Padding>, m: Message, pad: Padding)
    requires |pads| == |ms|
    ensures EmitAll(ms + [m], pads + [pad]) == EmitAll(ms, pads) + Emit(m, pad)
  {
    hide Emit;
    if ms == [] {
      assert ms + [m] == [m] && pads + [pad] == [pad];
      assert [m][1..] == [] && [pad][1..] == [];
    } else {
      assert (ms + [m])[1..] == ms[1..] + [m] && (pads + [pad])[1..] == pads[1..] + [pad];
      EmitAllSnoc(ms[1..], pads[1..], m, pad);
    }
  }

  /** The header goes out in one piece and no later write fails. */
  ghost predicate Whole(results: seq<int>) {
    WriteResult(results, HEADER_SIZE) == HEADER_SIZE && forall k | k in Rest(results) :: k > 0
  }

  /** Every scripted write takes at least a header. */
  ghost predicate Ample(results: seq<int>) { AtLeast(results, HEADER_SIZE) }

  lemma AmpleIsWhole(r: Ring, n: nat, offset: nat, results: seq<int>)
    requires r.Valid() && Ample(results)
    ensures Whole(results) && Ample(WriteData(r, n, offset, Rest(results)).rest)
  {
    hide WriteData;
    assert results != [] ==> results[0] in results;
    SuffixAtLeast(results, Rest(results), HEADER_SIZE);
    RestAtLeast(r, n, offset, Rest(results), HEADER_SIZE);
  }

  class NetworkWorker {
    const qn: SafeQueue<NetItem>
    const qw: SafeQueue<Work>
    const buffers: seq<CircularBuffer>
    const timeout: nat
    var connected: bool
    var hasAcked: bool
    var lastRecv: nat
    /** The connection's output. */
    const socket: Sink
    /** The frames processed, when, whether the ring still held them, the messages they became
        and the paddings of their headers; and whether every write so far took all it was
        given or could be continued. */
    ghost var sent: seq<Frame>
    ghost var sentAt: seq<nat>
    ghost var kept: seq<bool>
    ghost var messages: seq<Message>
    ghost var pads: seq<Padding>
    ghost var whole: bool

    ghost predicate Valid() {
      && |buffers| == SENSORS
      && (forall b | b in buffers :: b.Valid())
      && qn.nullItem == NqNone
    }

    ghost function Model(pc: NetPc): Net
      reads this, qn
    {
      Net(pc, qn.q, connected, hasAcked, sent)
    }

    /** One message for each frame sent, with its channel's code and its length; while all
        writes were whole the socket carries exactly these messages. */
    ghost predicate Framed()
      reads this, socket
    {
      FramedAs(socket.out)
    }

    ghost predicate FramedAs(out: seq<byte>)
      reads this
    {
      && |sent| == |sentAt| == |kept|
      && FramesOf(sent, messages, pads)
      && (whole ==> out == EmitAll(messages, pads))
    }

    static ghost predicate FramesOf(sent: seq<Frame>, messages: seq<Message>, pads: seq<Padding>)
      ensures FramesOf(sent, messages, pads) ==> |messages| == |pads| == |sent|
    {
      && |messages| == |pads| == |sent|
      && (forall i | 0 <= i < |sent| ::
            && sent[i].chan < SENSORS
            && messages[i].code == SEND_CODES[sent[i].chan] && |messages[i].payload| == sent[i].nbytes)
    }

    static lemma FramesPush(sent: seq<Frame>, messages: seq<Message>, pads: seq<Padding>, f: Frame, m: Message, pad: Padding)
      requires FramesOf(sent, messages, pads)
      requires f.chan < SENSORS && m.code == SEND_CODES[f.chan] && |m.payload| == f.nbytes
      ensures FramesOf(sent + [f], messages + [m], pads + [pad])
    {
    }

    static lemma FrameEncodable(f: Frame, m: Message)
      requires f.chan < SENSORS && m.code == SEND_CODES[f.chan] && |m.payload| == f.nbytes < Pow256(8)
      ensures Encodable(m)
    {
      assert Pow256(4) >= 256;
    }

    /** The base station recovers from the socket's bytes the message of each frame sent. */
    lemma WireParsed()
      requires Framed() && whole && forall i | 0 <= i < |sent| :: sent[i].nbytes < Pow256(8)
      ensures Parse(socket.out) == (messages, [])
    {
      forall m | m in messages ensures Encodable(m) {
        var i :| 0 <= i < |messages| && messages[i] == m;
        FrameEncodable(sent[i], m);
      }
      hide Parse, EmitAll, Encodable;
      ParseEmitAll(messages, pads, []);
      assert socket.out + [] == socket.out;
    }

    /** timeout is 0 in main_network_worker. The connected flag is not initialised. */
    constructor (qn: SafeQueue<NetItem>, qw: SafeQueue<Work>, buffers: seq<CircularBuffer>,
                 timeout: nat, connected: bool, hasAcked: bool, now: nat, socket: Sink)
      requires |buffers| == SENSORS && (forall b | b in buffers :: b.Valid()) && qn.nullItem == NqNone
      ensures Valid() && this.qn == qn && this.qw == qw && this.buffers == buffers && this.socket == socket
      ensures this.timeout == timeout && this.connected == connected && sent == []
      ensures lastRecv == Minus(now, timeout)
      ensures socket.out == [] ==> Framed() && whole
      ensures messages == [] && pads == [] && sentAt == [] && kept == []
    {
      this.qn, this.qw, this.buffers, this.timeout, this.socket := qn, qw, buffers, timeout, socket;
      this.connected, this.hasAcked := connected, hasAcked;
      lastRecv := if now >= timeout then now - timeout else 0;
      sent, messages, pads, whole := [], [], [], true;
      sentAt, kept := [], [];
    }

    method OpenConnection(t: nat)
      modifies this
      ensures connected && !hasAcked && lastRecv == t && sent == old(sent)
      ensures messages == old(messages) && sentAt == old(sentAt) && kept == old(kept) && whole == old(whole)
      ensures old(Framed()) ==> Framed()
    {
      connected, hasAcked, lastRecv := true, false, t;
    }

    method FailConnection()
      modifies this
      ensures !connected && hasAcked == old(hasAcked) && lastRecv == old(lastRecv) && sent == old(sent)
      ensures messages == old(messages) && sentAt == old(sentAt) && kept == old(kept) && whole == old(whole)
      ensures old(Framed()) ==> Framed()
    {
      connected := false;
    }

    /** read of one byte: nothing there, a byte, end of file, or an error. */
    method DoRecv(recv: Recv, t: nat) returns (result: int)
      modifies this
      ensures result == match recv case Nothing => -2 case Byte(_) => 1 case Eof => 0 case Fault => -1
      ensures connected == (old(connected) && !recv.Eof?) && hasAcked == (old(hasAcked) && !recv.Byte?)
      ensures forall pc: NetPc :: Model(pc) == NetRecv(old(Model(pc)), recv)
      ensures lastRecv == if recv.Byte? then t else old(lastRecv)
      ensures sent == old(sent) && messages == old(messages) && sentAt == old(sentAt) && kept == old(kept) && whole == old(whole)
      ensures old(Framed()) ==> Framed()
    {
      match recv
      case Nothing =>
        result := -2;
      case Fault =>
        result := -1;
      case Byte(_) =>
        lastRecv, hasAcked := t, false;
        result := 1;
      case Eof =>
        FailConnection();
        result := 0;
    }

    /** One write of the header; its result is ignored. */
    method SendHeader(code: nat, n: nat, pad: Padding)
      modifies socket
      ensures var k := WriteResult(old(socket.results), HEADER_SIZE);
        && socket.out == old(socket.out) + (if k > 0 then Header(code, pad, n)[..k] else [])
        && socket.results == Rest(old(socket.results))
    {
      var k := socket.Write(Header(code, pad, n));
    }

    /** The header, then the ring's bytes. */
    method SendBytes(f: Frame, pad: Padding)
      requires Valid() && f.chan < SENSORS
      modifies socket
      ensures var k := WriteResult(old(socket.results), HEADER_SIZE);
        var o := WriteData(buffers[f.chan].Model(), f.nbytes, f.offset, Rest(old(socket.results)));
        && socket.out == old(socket.out) + (if k > 0 then Header(SEND_CODES[f.chan], pad, f.nbytes)[..k] else []) + o.emitted
        && socket.results == o.rest
      ensures Whole(old(socket.results)) ==> socket.out == old(socket.out) + Emit(MessageOf(f), pad)
      ensures Ample(old(socket.results)) ==> Whole(old(socket.results)) && Ample(socket.results)
    {
      hide WriteData, Header, Cyclic;
      if Ample(socket.results) {
        AmpleIsWhole(buffers[f.chan].Model(), f.nbytes, f.offset, socket.results);
      }
      ghost var before, results := socket.out, socket.results;
      ghost var m := MessageOf(f);
      if Whole(results) {
        WriteDataComplete(buffers[f.chan].Model(), f.nbytes, f.offset, Rest(results));
      }
      SendHeader(SEND_CODES[f.chan], f.nbytes, pad);
      var ret := buffers[f.chan].WriteTo(socket, f.nbytes, f.offset);
      if Whole(results) {
        assert Header(m.code, pad, f.nbytes)[..HEADER_SIZE] == Header(m.code, pad, f.nbytes);
        Associative(before, Header(m.code, pad, f.nbytes), m.payload);
      }
    }

    /** The history of sends after frame f, written to a socket that carried before. */
    ghost method NoteSent(f: Frame, pad: Padding, t: nat, good: bool, before: seq<byte>)
      requires Valid() && f.chan < SENSORS
      requires good ==> socket.out == before + Emit(MessageOf(f), pad)
      modifies `sent, `messages, `pads, `whole, `sentAt, `kept
      ensures sent == old(sent) + [f] && messages == old(messages) + [MessageOf(f)]
      ensures sentAt == old(sentAt) + [t] && kept == old(kept) + [InRing(f)]
      ensures whole == (old(whole) && good)
      ensures old(FramedAs(before)) ==> Framed()
    {
      hide EmitAll, Emit, MessageOf, FramesOf, InRing;
      var m := MessageOf(f);
      if FramedAs(before) {
        EmitAllSnoc(messages, pads, m, pad);
        FramesPush(sent, messages, pads, f, m, pad);
      }
      sent, messages, pads, whole := sent + [f], messages + [m], pads + [pad], whole && good;
      sentAt, kept := sentAt + [t], kept + [InRing(f)];
    }

    /** nq_send. The test whether the socket would block never holds: its mask is applied to
        a negated flag word. */
    method SendFrame(f: Frame, pad: Padding, ghost t: nat)
      requires Valid() && f.chan < SENSORS
      modifies this, socket
      ensures connected == old(connected) && hasAcked == old(hasAcked) && lastRecv == old(lastRecv)
      ensures sent == old(sent) + [f] && messages == old(messages) + [MessageOf(f)]
      ensures sentAt == old(sentAt) + [t] && kept == old(kept) + [InRing(f)]
      ensures whole == (old(whole) && Whole(old(socket.results)))
      ensures Ample(old(socket.results)) ==> whole == old(whole) && Ample(socket.results)
      ensures old(Framed()) ==> Framed()
    {
      hide WriteData, Header, EmitAll, Emit, MessageOf, Whole, Ample, FramedAs, InRing;
      ghost var good := Whole(socket.results);
      ghost var before := socket.out;
      SendBytes(f, pad);
      NoteSent(f, pad, t, good, before);
    }

    /** No byte of the frame has been overwritten. */
    ghost predicate InRing(f: Frame)
      requires Valid() && f.chan < SENSORS
      reads buffers
    {
      f.offset + f.nbytes <= buffers[f.chan].bytesWritten <= f.offset + buffers[f.chan].nbytes
    }

    ghost function History(): Ledger
      reads this
    {
      Ledger(sent, sentAt, kept, messages)
    }

    /** The history of sends after the item was processed at time t. */
    ghost function Noted(h: Ledger, item: NetItem, t: nat): Ledger
      requires Valid() && (item.NqSend? ==> item.frame.chan < SENSORS)
      reads buffers, set b | b in buffers :: b.data
    {
      if item.NqSend? then
        var f := item.frame;
        Ledger(h.frames + [f], h.at + [t], h.kept + [InRing(f)], h.messages + [MessageOf(f)])
      else h
    }

    /** What a frame's message carries: its channel's code and the ring's bytes. */
    ghost function MessageOf(f: Frame): (m: Message)
      requires Valid() && f.chan < SENSORS
      reads buffers, set b | b in buffers :: b.data
      ensures m.code == SEND_CODES[f.chan] && |m.payload| == f.nbytes
    {
      Message(SEND_CODES[f.chan], Cyclic(buffers[f.chan].Model(), f.nbytes, f.offset))
    }

    /** network_worker::process_nqi on nq_none; anything else is not handled. */
    method BaseProcessNqi(item: NetItem, t: nat) returns (ok: bool)
      requires Valid() && t >= lastRecv
      modifies this, qn
      ensures ok == item.NqNone? && History() == old(History())
      ensures !item.NqNone? ==>
                Model(NetPoll) == (if old(connected) then old(Model(NetPoll))
                                   else old(Model(NetPoll)).(connected := true, hasAcked := false))
      ensures item.NqNone? ==>
                var n1 := NetNone(timeout, old(Model(NetPoll)), if old(connected) then t - old(lastRecv) else 0);
                Model(NetPoll) == if n1.pc.Put? then n1.(pc := NetPoll, qn := n1.qn + [n1.pc.item]) else n1
      ensures whole == old(whole)
      ensures old(Framed()) ==> Framed()
      ensures lastRecv == if old(connected) then old(lastRecv) else t
    {
      if !connected {
        OpenConnection(t);
      }
      if !item.NqNone? {
        return false;
      }
      if timeout > 0 && t - lastRecv > timeout {
        FailConnection();
        return true;
      }
      if timeout > 0 && !hasAcked && t - lastRecv > timeout / 2 {
        qn.Enqueue(NqSendAck);
        return true;
      }
      qn.Enqueue(NqRecv);
      return true;
    }

    /** The thread's state after an item taken off the queue has been processed. */
    ghost function Processed(n: Net, item: NetItem, recv: Recv, idle: nat): Net {
      match item
      case NqNone =>
        var n1 := NetNone(timeout, n, idle);
        if n1.pc.Put? then n1.(pc := NetPoll, qn := n1.qn + [n1.pc.item]) else n1
      case NqRecv => NetRecv(n, recv)
      case NqSendAck => n
      case NqSend(f) => n.(sent := n.sent + [f])
    }

    /** main_network_worker::process_nqi. For an ack request it returns no defined value. */
    method ProcessNqi(item: NetItem, recv: Recv, t: nat, pad: Padding) returns (ok: bool)
      requires Valid() && t >= lastRecv && (item.NqSend? ==> item.frame.chan < SENSORS)
      modifies this, qn, qw, socket
      ensures Model(NetPoll) == Processed(old(Model(NetPoll)), item, recv, if old(connected) then t - old(lastRecv) else 0)
      ensures qw.q == old(qw.q) + if item.NqRecv? && recv.Byte? then [WqProcess(recv.c)] else []
      ensures old(Framed()) ==> Framed()
      ensures !item.NqSendAck? ==> ok
      ensures History() == Noted(old(History()), item, t)
      ensures lastRecv == Heard(old(Model(NetPoll)), item, recv, t, old(lastRecv))
      ensures Ample(old(socket.results)) ==> whole == old(whole) && Ample(socket.results)
    {
      hide WriteData, Header, EmitAll, Whole, Framed, Ample, MessageOf;
      match item
      case NqNone =>
        ok := BaseProcessNqi(item, t);
      case NqRecv =>
        var result := DoRecv(recv, t);
        if result > 0 {
          qw.Enqueue(WqProcess(recv.c));
        }
        ok := true;
      case NqSendAck =>
        ok := *;
      case NqSend(f) =>
        SendFrame(f, pad, t);
        ok := true;
    }

    /** What the whole iteration does to the thread's state: a step, and the enqueue it owes. */
    ghost function Iteration(n: Net, recv: Recv, idle: nat): Net {
      var n1 := NetStep(timeout, n, recv, idle);
      if n1.pc.Put? then NetStep(timeout, n1, recv, idle) else n1
    }

    lemma IterationIsProcessed(n: Net, recv: Recv, idle: nat)
      requires n.pc.NetPoll?
      ensures Iteration(n, recv, idle) ==
              if n.qn == [] then Processed(n, NqNone, recv, idle)
              else Processed(n.(qn := n.qn[1..]), n.qn[0], recv, idle)
    {
    }

    /** One iteration of worker_method: polls the queue and processes the item. */
    method WorkerMethod(recv: Recv, t: nat, pad: Padding)
      requires Valid() && t >= lastRecv
      requires forall f | NqSend(f) in qn.q :: f.chan < SENSORS
      modifies this, qn, qw, socket
      ensures Model(NetPoll) == Iteration(old(Model(NetPoll)), recv, if old(connected) then t - old(lastRecv) else 0)
      ensures qw.q == old(qw.q) + if Reads(old(Model(NetPoll))) && recv.Byte? then [WqProcess(recv.c)] else []
      ensures old(Framed()) ==> Framed()
      ensures old(NextItem(Model(NetPoll))).NqSend? ==> old(NextItem(Model(NetPoll))).frame.chan < SENSORS
      ensures History() == Noted(old(History()), old(NextItem(Model(NetPoll))), t)
      ensures lastRecv == Heard(old(Model(NetPoll)), old(NextItem(Model(NetPoll))), recv, t, old(lastRecv))
      ensures Ample(old(socket.results)) ==> whole == old(whole) && Ample(socket.results)
    {
      hide Processed, Iteration, Ample, MessageOf, InRing;
      IterationIsProcessed(Model(NetPoll), recv, if connected then t - lastRecv else 0);
      var item := qn.Poll();
      assert item.NqSend? ==> NqSend(item.frame) in old(qn.q);
      var ok := ProcessNqi(item, recv, t, pad);
    }
  }
}
