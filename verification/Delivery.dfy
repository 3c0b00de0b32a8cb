/** End to end: what the base station can read from the socket about each sensor's stream. */
module Delivery {
  import opened Types
  import opened CircularBuffers
  import opened Wire
  import opened Controller
  import opened Scheduling
  import opened TelemetryPipeline
  import opened Residence
  import opened Flows
  import opened BuffLogger
  import opened ConcurrentRead

  function Slice(stream: seq<byte>, f: Frame): seq<byte> {
    if f.offset + f.nbytes <= |stream| then stream[f.offset..f.offset + f.nbytes] else []
  }

  /** The message of frame f, as read from its ring now. */
  function MessageNow(s: State, f: Frame): Message
    requires f.chan < SENSORS
  {
    Message(SEND_CODES[f.chan], Cyclic(s.tele.chans[f.chan].ring, f.nbytes, f.offset))
  }

  /** No byte of the frame has been overwritten. */
  predicate KeptNow(s: State, f: Frame)
    requires f.chan < SENSORS
  {
    var r := s.tele.chans[f.chan].ring; f.offset + f.nbytes <= r.written <= f.offset + |r.data|
  }

  /** A frame sent while its ring still held it became its slice of the stream; and the ring
      did hold it when it was sent within RESIDENCE. */
  predicate Faithful(engine: Engine, s: State, f: Frame, at: nat, kept: bool, m: Message) {
    && f.chan < SENSORS && m.code == SEND_CODES[f.chan]
    && (kept ==> f.offset + f.nbytes <= |s.tele.chans[f.chan].stream| && m.payload == Slice(s.tele.chans[f.chan].stream, f))
    && (Unknown(engine, s.trace) <= 1 && at <= f.at + RESIDENCE ==> kept)
  }

  ghost predicate Conveys(engine: Engine, s: State, h: Ledger) {
    && |h.frames| == |h.at| == |h.kept| == |h.messages| && h.frames == s.net.sent
    && forall i | 0 <= i < |h.frames| :: Faithful(engine, s, h.frames[i], h.at[i], h.kept[i], h.messages[i])
  }

  // ---------------------------------------------------------------- streams only grow

  /** A channel only ever gains bytes and frames. */
  predicate Longer(ch: Channel, ch': Channel) { ch.stream <= ch'.stream && ch.frames <= ch'.frames }

  lemma SampleStreams(cfg: Config, s: State, i: Slot, t: nat, input: Input, j: nat)
    requires i < SENSORS && j < SENSORS
    ensures Longer(s.tele.chans[j], Timed(cfg, s, i, t, input).tele.chans[j])
  {
    hide Timed, ChannelAfter, Record;
    SampleChannels(cfg, s, i, t, input);
    StreamAfter(s.tele.chans[i], s.rig.items[i].(scheduled := t), i, t, input, s.net.connected);
    ChannelFrames(s.tele.chans[i], s.rig.items[i].(scheduled := t), i, t, input, s.net.connected);
  }

  lemma StepStreams(cfg: Config, s: State, e: Event, j: nat)
    requires j < SENSORS
    ensures Longer(s.tele.chans[j], Step(cfg, s, e).tele.chans[j])
  {
    hide Timed, Proc, Ignition1, StartScan, ScanEntry, NetworkStep;
    if Samples(s, e) {
      SampleStreams(cfg, Popped(s), s.q[0].i, s.now + e.input.dt, e.input, j);
    } else {
      QuietTelemetry(cfg, s, e);
    }
  }

  /** What a run never takes back. */
  ghost predicate Grows(engine: Engine, s: State, s': State) {
    && (forall j | 0 <= j < SENSORS :: Longer(s.tele.chans[j], s'.tele.chans[j]))
    && Unknown(engine, s.trace) <= Unknown(engine, s'.trace)
  }

  lemma {:induction false} RunGrows(cfg: Config, s: State, es: seq<Event>)
    ensures Grows(cfg.engine, s, Run(cfg, s, es))
  {
    if es != [] {
      hide Step, Unknown;
      var s1, e := Run(cfg, s, es[..|es| - 1]), es[|es| - 1];
      RunGrows(cfg, s, es[..|es| - 1]);
      StepTrace(cfg, s1, e);
      forall j | 0 <= j < SENSORS ensures Longer(s.tele.chans[j], Step(cfg, s1, e).tele.chans[j]) {
        StepStreams(cfg, s1, e, j);
      }
    }
  }

  lemma FaithfulGrows(engine: Engine, s: State, s': State, f: Frame, at: nat, kept: bool, m: Message)
    requires f.chan < SENSORS && s.tele.chans[f.chan].stream <= s'.tele.chans[f.chan].stream
    requires Unknown(engine, s.trace) <= Unknown(engine, s'.trace)
    ensures Faithful(engine, s, f, at, kept, m) ==> Faithful(engine, s', f, at, kept, m)
  {
    hide Unknown;
  }

  lemma FaithfulChan(engine: Engine, s: State, f: Frame, at: nat, kept: bool, m: Message)
    requires Faithful(engine, s, f, at, kept, m)
    ensures f.chan < SENSORS
  {
  }

  lemma ConveysGrows(engine: Engine, s: State, s': State, h: Ledger)
    requires Grows(engine, s, s') && s'.net.sent == s.net.sent && Conveys(engine, s, h)
    ensures Conveys(engine, s', h)
  {
    hide Faithful, Unknown;
    forall i | 0 <= i < |h.frames| ensures Faithful(engine, s', h.frames[i], h.at[i], h.kept[i], h.messages[i]) {
      FaithfulChan(engine, s, h.frames[i], h.at[i], h.kept[i], h.messages[i]);
      FaithfulGrows(engine, s, s', h.frames[i], h.at[i], h.kept[i], h.messages[i]);
    }
  }

  // ---------------------------------------------------------------- frames in the queue

  lemma {:induction false} WaitingHas(qn: seq<NetItem>, f: Frame)
    requires NqSend(f) in qn
    ensures f in Waiting(qn)
  {
    var n := |qn| - 1;
    if qn[n] != NqSend(f) {
      WaitingHas(qn[..n], f);
    }
  }

  lemma {:induction false} OfChannelHas(fs: seq<Frame>, f: Frame)
    requires f in fs
    ensures f in OfChannel(fs, f.chan)
  {
    var n := |fs| - 1;
    if fs[n] != f {
      OfChannelHas(fs[..n], f);
    }
  }

  lemma {:induction false} QueuedAreFrames(fs: seq<Frame>, f: Frame)
    requires f in QueuedOnes(fs)
    ensures f in fs
  {
    var n := |fs| - 1;
    if fs[n] != f {
      QueuedAreFrames(fs[..n], f);
    }
  }

  /** Every frame sent or waiting was handed over by its channel. */
  lemma ConveyedAreFrames(cfg: Config, s: State, es: seq<Event>, f: Frame)
    requires Initial(cfg, s) && f.chan < SENSORS
    requires f in Run(cfg, s, es).net.sent || NqSend(f) in Run(cfg, s, es).net.qn
    ensures f in Run(cfg, s, es).tele.chans[f.chan].frames
  {
    hide Run, Initial, Waiting, OfChannel, QueuedOnes;
    var s' := Run(cfg, s, es);
    RunDelivers(cfg, s, es, f.chan);
    if NqSend(f) in s'.net.qn {
      WaitingHas(s'.net.qn, f);
    }
    OfChannelHas(Conveyed(s'.net), f);
    QueuedAreFrames(s'.tele.chans[f.chan].frames, f);
  }

  // ---------------------------------------------------------------- a send

  /** A waiting frame that is sent at t becomes a faithful message. */
  lemma SendFaithful(cfg: Config, s: State, es: seq<Event>, f: Frame, t: nat)
    requires Initial(cfg, s) && f.chan < SENSORS && NqSend(f) in Run(cfg, s, es).net.qn
    requires Run(cfg, s, es).now <= t
    ensures var s' := Run(cfg, s, es); Faithful(cfg.engine, s', f, t, KeptNow(s', f), MessageNow(s', f))
  {
    hide Run, Initial, Unknown, Cyclic, Tiled;
    var s' := Run(cfg, s, es);
    var ch := s'.tele.chans[f.chan];
    RunSound(cfg, s, es, f.chan);
    ConveyedAreFrames(cfg, s, es, f);
    if KeptNow(s', f) {
      CyclicReads(ch.ring, ch.stream, f.nbytes, f.offset);
    }
    if Unknown(cfg.engine, s'.trace) <= 1 && t <= f.at + RESIDENCE {
      FrameKept(cfg, s, es, f.chan, f);
    }
  }

  /** The history with one more send. */
  function Sent(s: State, h: Ledger, f: Frame, t: nat): Ledger
    requires f.chan < SENSORS
  {
    Ledger(h.frames + [f], h.at + [t], h.kept + [KeptNow(s, f)], h.messages + [MessageNow(s, f)])
  }

  lemma ConveysPush(cfg: Config, s: State, es: seq<Event>, s': State, h: Ledger, f: Frame, t: nat)
    requires Initial(cfg, s) && f.chan < SENSORS && NqSend(f) in Run(cfg, s, es).net.qn
    requires Run(cfg, s, es).now <= t && Conveys(cfg.engine, Run(cfg, s, es), h)
    requires Grows(cfg.engine, Run(cfg, s, es), s') && s'.net.sent == Run(cfg, s, es).net.sent + [f]
    ensures Conveys(cfg.engine, s', Sent(Run(cfg, s, es), h, f, t))
  {
    hide Run, Initial, Faithful, KeptNow, MessageNow, Unknown;
    var s1 := Run(cfg, s, es);
    SendFaithful(cfg, s, es, f, t);
    FaithfulGrows(cfg.engine, s1, s', f, t, KeptNow(s1, f), MessageNow(s1, f));
    forall i | 0 <= i < |h.frames| ensures Faithful(cfg.engine, s', h.frames[i], h.at[i], h.kept[i], h.messages[i]) {
      FaithfulChan(cfg.engine, s1, h.frames[i], h.at[i], h.kept[i], h.messages[i]);
      FaithfulGrows(cfg.engine, s1, s', h.frames[i], h.at[i], h.kept[i], h.messages[i]);
    }
  }

  /** The read of frame f begins, byte by byte, in state s. */
  function ReadBegun(s: State, f: Frame): Shared
    requires f.chan < SENSORS
  {
    var ch := s.tele.chans[f.chan];
    Shared(ch.ring.data, ch.stream, [], {}, f.offset, f.nbytes, [], [])
  }

  /** The sensor is sampled while the network thread's writes read the ring byte by byte. From
      the state after es1, in which frame f was handed over, to that after es2, no more than
      RESIDENCE after the hand-over, let copying, publishing and short writes interleave in any
      way that has one record in flight at most. Then all bytes emitted are the frame's. */
  lemma ReadWhileWriting(cfg: Config, s: State, es1: seq<Event>, es2: seq<Event>, f: Frame, ms: seq<Move>)
    requires Initial(cfg, s) && f.chan < SENSORS && f in Run(cfg, s, es1).tele.chans[f.chan].frames
    requires Unknown(cfg.engine, Run(cfg, s, es1 + es2).trace) <= 1
    requires Run(cfg, s, es1 + es2).now <= f.at + RESIDENCE
    requires var r := Moves(ReadBegun(Run(cfg, s, es1), f), ms);
      |r.stream| <= |Run(cfg, s, es1 + es2).tele.chans[f.chan].stream| && |r.block| <= RECORD_SIZE
    ensures var r := Moves(ReadBegun(Run(cfg, s, es1), f), ms);
      var slice := Slice(Run(cfg, s, es1 + es2).tele.chans[f.chan].stream, f);
      |slice| == f.nbytes && r.emitted <= slice
  {
    hide Run, Initial, Unknown, Moves, Tiled;
    var s1, s2 := Run(cfg, s, es1), Run(cfg, s, es1 + es2);
    var ch1, ch2 := s1.tele.chans[f.chan], s2.tele.chans[f.chan];
    RunConcat(cfg, s, es1, es2);
    RunGrows(cfg, s1, es2);
    RunSound(cfg, s, es1, f.chan);
    RunSound(cfg, s, es1 + es2, f.chan);
    FrameKept(cfg, s, es1 + es2, f.chan, f);
    TiledWithin(ch1.frames, f.chan, s1.rig.items[f.chan].nbytesLastSend, f);
    ConcurrentReadValid(ReadBegun(s1, f), ms);
    var n := |Moves(ReadBegun(s1, f), ms).emitted|;
    assert Slice(ch2.stream, f)[..n] == ch1.stream[f.offset..f.offset + n];
  }

  lemma {:induction false} TiledWithin(frames: seq<Frame>, chan: nat, end: nat, f: Frame)
    requires Tiled(frames, chan, end) && f in frames
    ensures f.offset + f.nbytes <= end
  {
    var last := frames[|frames| - 1];
    if f != last {
      TiledWithin(frames[..|frames| - 1], chan, last.offset, f);
    }
  }

  // ---------------------------------------------------------------- what the base station has

  /** The payloads of the messages with one code, in order. */
  function PayloadsOf(ms: seq<Message>, code: nat): seq<seq<byte>> {
    if ms == [] then [] else
    var m := ms[|ms| - 1];
    PayloadsOf(ms[..|ms| - 1], code) + if m.code == code then [m.payload] else []
  }

  /** The frames' slices of a stream, in order. */
  function Slices(stream: seq<byte>, fs: seq<Frame>): seq<seq<byte>> {
    if fs == [] then [] else Slices(stream, fs[..|fs| - 1]) + [Slice(stream, fs[|fs| - 1])]
  }

  lemma SlicesPush(stream: seq<byte>, fs: seq<Frame>, f: Frame)
    ensures Slices(stream, fs + [f]) == Slices(stream, fs) + [Slice(stream, f)]
  {
    assert (fs + [f])[..|fs|] == fs;
  }

  /** Frame by frame, each message has its channel's code and its slice of the stream. */
  ghost predicate Matches(ms: seq<Message>, fs: seq<Frame>, chans: Channels) {
    && |ms| == |fs|
    && forall i | 0 <= i < |fs| ::
         fs[i].chan < SENSORS && ms[i] == Message(SEND_CODES[fs[i].chan], Slice(chans[fs[i].chan].stream, fs[i]))
  }

  lemma CodesDiffer(i: nat, j: nat)
    requires i < SENSORS && j < SENSORS && i != j
    ensures SEND_CODES[i] != SEND_CODES[j]
  {
  }

  lemma {:induction false} MatchedPayloads(ms: seq<Message>, fs: seq<Frame>, chans: Channels, j: nat)
    requires Matches(ms, fs, chans) && j < SENSORS
    ensures PayloadsOf(ms, SEND_CODES[j]) == Slices(chans[j].stream, OfChannel(fs, j))
  {
    if ms != [] {
      var n := |ms| - 1;
      hide Slices;
      MatchedPayloads(ms[..n], fs[..n], chans, j);
      if fs[n].chan == j {
        SlicesPush(chans[j].stream, OfChannel(fs[..n], j), fs[n]);
      } else {
        CodesDiffer(fs[n].chan, j);
        assert OfChannel(fs, j) == OfChannel(fs[..n], j);
      }
    } else {
      assert OfChannel(fs, j) == [];
    }
  }

  /** Every frame was sent within RESIDENCE of its hand-over. */
  predicate Prompt(h: Ledger) {
    |h.frames| == |h.at| && forall i | 0 <= i < |h.frames| :: h.at[i] <= h.frames[i].at + RESIDENCE
  }

  lemma PromptMatches(engine: Engine, s: State, h: Ledger)
    requires Conveys(engine, s, h) && Prompt(h) && Unknown(engine, s.trace) <= 1
    ensures Matches(h.messages, h.frames, s.tele.chans)
  {
    hide Unknown, Slice;
    forall i | 0 <= i < |h.frames|
      ensures h.messages[i] == Message(SEND_CODES[h.frames[i].chan], Slice(s.tele.chans[h.frames[i].chan].stream, h.frames[i]))
    {
      assert Faithful(engine, s, h.frames[i], h.at[i], h.kept[i], h.messages[i]);
    }
  }

  /** Received messages give each sensor's frames, the first of those that were queued, as the
      slices of its readings' records, in order. */
  ghost predicate BaseStationReads(s: State, ms: seq<Message>) {
    forall j | 0 <= j < SENSORS ::
      && PayloadsOf(ms, SEND_CODES[j]) == Slices(Records(Readings(s.trace, j)), OfChannel(s.net.sent, j))
      && OfChannel(s.net.sent, j) <= QueuedOnes(s.tele.chans[j].frames)
  }

  lemma {:induction false} OfChannelConcat(fs: seq<Frame>, gs: seq<Frame>, j: nat)
    ensures OfChannel(fs + gs, j) == OfChannel(fs, j) + OfChannel(gs, j)
  {
    if gs == [] {
      assert fs + gs == fs;
    } else {
      OfChannelConcat(fs, gs[..|gs| - 1], j);
      assert (fs + gs)[..|fs + gs| - 1] == fs + gs[..|gs| - 1];
    }
  }

  lemma RunDelivered(cfg: Config, s: State, es: seq<Event>, h: Ledger)
    requires Initial(cfg, s) && Unknown(cfg.engine, Run(cfg, s, es).trace) <= 1
    requires Conveys(cfg.engine, Run(cfg, s, es), h) && Prompt(h)
    ensures BaseStationReads(Run(cfg, s, es), h.messages)
  {
    hide Run, Initial, Unknown, OfChannel, QueuedOnes, PayloadsOf, Slices, Matches, Waiting, Records, Readings, Intact;
    var s' := Run(cfg, s, es);
    PromptMatches(cfg.engine, s', h);
    forall j | 0 <= j < SENSORS
      ensures PayloadsOf(h.messages, SEND_CODES[j]) == Slices(Records(Readings(s'.trace, j)), OfChannel(s'.net.sent, j))
      ensures OfChannel(s'.net.sent, j) <= QueuedOnes(s'.tele.chans[j].frames)
    {
      MatchedPayloads(h.messages, h.frames, s'.tele.chans, j);
      RunSound(cfg, s, es, j);
      RunDelivers(cfg, s, es, j);
      OfChannelConcat(s'.net.sent, Waiting(s'.net.qn), j);
    }
  }

  /** Every frame sent fits its header's length field. */
  lemma SentSmall(cfg: Config, s: State, es: seq<Event>, f: Frame)
    requires Initial(cfg, s) && Unknown(cfg.engine, Run(cfg, s, es).trace) <= 1
    requires f in Run(cfg, s, es).net.sent && f.chan < SENSORS
    ensures f.nbytes < Pow256(8)
  {
    hide Run, Initial, Unknown, Pow256;
    ConveyedAreFrames(cfg, s, es, f);
    FrameSizes(cfg, s, es, f.chan, f);
    EnoughBytes();
  }

  lemma EnoughBytes()
    ensures 1000 * RECORD_SIZE < Pow256(8)
  {
    assert Pow256(8) == 256 * Pow256(7) && Pow256(7) == 256 * Pow256(6) && Pow256(6) == 256 * Pow256(5);
  }

  // ---------------------------------------------------------------- no frame skipped

  lemma SliceAppend(stream: seq<byte>, f: Frame)
    requires f.offset + f.nbytes <= |stream|
    ensures stream[..f.offset] + Slice(stream, f) == stream[..f.offset + f.nbytes]
  {
  }

  /** The first n of tiled frames are tiled, and their slices join into a prefix of the stream. */
  lemma {:induction false} TiledConcat(frames: seq<Frame>, chan: nat, end: nat, n: nat, stream: seq<byte>) returns (mid: nat)
    requires Tiled(frames, chan, end) && n <= |frames| && end <= |stream|
    ensures mid <= end && Tiled(frames[..n], chan, mid) && Concat(Slices(stream, frames[..n])) == stream[..mid]
    decreases |frames|
  {
    if n < |frames| {
      mid := TiledConcat(frames[..|frames| - 1], chan, frames[|frames| - 1].offset, n, stream);
      assert frames[..|frames| - 1][..n] == frames[..n];
    } else {
      mid := end;
      assert frames[..n] == frames;
      if n > 0 {
        var f, before := frames[n - 1], frames[..n - 1];
        var at := TiledConcat(before, chan, f.offset, n - 1, stream);
        assert before[..n - 1] == before;
        TiledEnd(before, chan, at, f.offset);
        ConcatPush(Slices(stream, before), Slice(stream, f));
        SliceAppend(stream, f);
      }
    }
  }

  lemma TiledEnd(frames: seq<Frame>, chan: nat, end: nat, end': nat)
    requires Tiled(frames, chan, end) && Tiled(frames, chan, end')
    ensures end == end'
  {
  }

  lemma ConcatPush(blocks: seq<seq<byte>>, block: seq<byte>)
    ensures Concat(blocks + [block]) == Concat(blocks) + block
  {
    assert (blocks + [block])[..|blocks|] == blocks;
  }

  /** While no frame of channel j is skipped for want of a connection, the payloads received
      for it join into the first bytes of its sensor's records. */
  lemma Unbroken(cfg: Config, s: State, es: seq<Event>, ms: seq<Message>, j: nat) returns (n: nat)
    requires Initial(cfg, s) && j < SENSORS && BaseStationReads(Run(cfg, s, es), ms)
    requires forall f | f in Run(cfg, s, es).tele.chans[j].frames :: f.queued
    ensures var s' := Run(cfg, s, es);
      && n <= s'.rig.items[j].nbytesLastSend <= |Records(Readings(s'.trace, j))|
      && Concat(PayloadsOf(ms, SEND_CODES[j])) == Records(Readings(s'.trace, j))[..n]
  {
    hide Run, Initial, OfChannel, QueuedOnes, PayloadsOf, Slices, Tiled, Readings, Records, Concat;
    var s' := Run(cfg, s, es);
    var ch := s'.tele.chans[j];
    RunSound(cfg, s, es, j);
    AllQueued(ch.frames);
    var sent := OfChannel(s'.net.sent, j);
    n := TiledConcat(ch.frames, j, s'.rig.items[j].nbytesLastSend, |sent|, ch.stream);
    assert ch.frames[..|sent|] == sent;
  }

  lemma {:induction false} AllQueued(fs: seq<Frame>)
    requires forall f | f in fs :: f.queued
    ensures QueuedOnes(fs) == fs
  {
    if fs != [] {
      AllQueued(fs[..|fs| - 1]);
    }
  }
}
