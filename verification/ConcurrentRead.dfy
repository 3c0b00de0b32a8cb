/** add_data and write_data on one ring at the same time: the worker copies bytes in any
    order and then publishes them, while the network thread's writes read slot by slot. */
module ConcurrentRead {
  import opened Types
  import opened CircularBuffers

  /** The ring's memory, the published stream (bytes_written is its length), the block that
      memcpy is copying and how far it got, and the reader: the n bytes asked for from
      offset, those emitted, and those the running write has read. */
  datatype Shared = Shared(
    data: seq<byte>,
    stream: seq<byte>,
    block: seq<byte>,
    copied: set<nat>,
    offset: nat,
    n: nat,
    emitted: seq<byte>,
    got: seq<byte>)
  {
    /** The slot where the block starts. */
    function Start(): nat
      requires data != []
    {
      SlotAt(|stream|, |data|)
    }

    /** The position of the next byte a write has to emit. */
    function Pos(): nat { offset + |emitted| }

    /** How much the running write was asked for. */
    function ToSend(): nat
      requires data != []
    {
      if |emitted| >= n then 0 else Contiguous(Ring(data, |stream|), n - |emitted|, Pos())
    }
  }

  datatype Move =
    | Begin(block: seq<byte>)  // add_data starts a memcpy that does not wrap
    | CopyByte(j: nat)         // memcpy stores one byte, in any order
    | Publish                  // bytes_written += to_add
    | Fetch                    // the running write reads its next byte
    | Return(k: nat)           // the running write accepted k bytes

  function MoveStep(s: Shared, m: Move): (s': Shared)
    requires s.data != []
    ensures |s'.data| == |s.data|
  {
    match m
    case Begin(b) =>
      if s.block == [] && s.Start() + |b| <= |s.data| then s.(block := b, copied := {}) else s
    case CopyByte(j) =>
      if j < |s.block| && s.Start() + j < |s.data|
      then s.(data := s.data[s.Start() + j := s.block[j]], copied := s.copied + {j}) else s
    case Publish =>
      if forall j | 0 <= j < |s.block| :: j in s.copied
      then s.(stream := s.stream + s.block, block := [], copied := {}) else s
    case Fetch =>
      if |s.got| < s.ToSend() then s.(got := s.got + [s.data[SlotAt(s.Pos() + |s.got|, |s.data|)]]) else s
    case Return(k) =>
      if 0 < k <= |s.got| then s.(emitted := s.emitted + s.got[..k], got := []) else s
  }

  function Moves(s: Shared, ms: seq<Move>): (s': Shared)
    requires s.data != []
    ensures |s'.data| == |s.data|
  {
    if ms == [] then s else MoveStep(Moves(s, ms[..|ms| - 1]), ms[|ms| - 1])
  }

  /** Published bytes that the block in flight cannot touch are in their slots, and so are
      the copied bytes of the block. */
  ghost predicate Consistent(s: Shared) {
    && s.data != []
    && s.Start() + |s.block| <= |s.data|
    && (forall i | 0 <= i < |s.stream| && |s.stream| + |s.block| - |s.data| <= i :: s.data[SlotAt(i, |s.data|)] == s.stream[i])
    && (forall j | j in s.copied && j < |s.block| :: s.data[s.Start() + j] == s.block[j])
  }

  /** The worker, counting the block in flight, is at most one lap ahead of the read. */
  predicate InLap(s: Shared) { |s.stream| + |s.block| <= s.offset + |s.data| }

  /** What the reader has is the published stream from offset on. */
  predicate ReadRight(s: Shared) {
    && s.offset + s.n <= |s.stream|
    && |s.emitted| + |s.got| <= s.n
    && s.emitted + s.got == s.stream[s.offset..s.offset + |s.emitted| + |s.got|]
  }

  lemma CopyConsistent(s: Shared, j: nat)
    requires Consistent(s) && j < |s.block|
    ensures Consistent(MoveStep(s, CopyByte(j)))
  {
    var s' := MoveStep(s, CopyByte(j));
    var n := |s.data|;
    forall i | 0 <= i < |s.stream| && |s.stream| + |s.block| - n <= i ensures s'.data[SlotAt(i, n)] == s.stream[i] {
      ModShift(|s.stream|, n, i - |s.stream|);
    }
  }

  lemma PublishConsistent(s: Shared)
    requires Consistent(s)
    ensures Consistent(MoveStep(s, Publish))
  {
    var s' := MoveStep(s, Publish);
    var n := |s.data|;
    if s' != s {
      forall i | 0 <= i < |s'.stream| && |s'.stream| - n <= i ensures s'.data[SlotAt(i, n)] == s'.stream[i] {
        if i >= |s.stream| {
          ModShift(|s.stream|, n, i - |s.stream|);
        }
      }
      StartInRing(|s'.stream|, n);
    }
  }

  lemma StartInRing(w: nat, n: nat)
    requires n > 0
    ensures SlotAt(w, n) < n
  {
  }

  lemma MoveConsistent(s: Shared, m: Move)
    requires Consistent(s)
    ensures Consistent(MoveStep(s, m))
  {
    match m
    case CopyByte(j) =>
      if j < |s.block| {
        CopyConsistent(s, j);
      }
    case Publish => PublishConsistent(s);
    case _ =>
  }

  /** The lap can only be lost, never regained. */
  lemma LapOnlyShrinks(s: Shared, m: Move)
    requires s.data != [] && InLap(MoveStep(s, m))
    ensures InLap(s)
  {
  }

  lemma FetchReadsRight(s: Shared)
    requires Consistent(s) && InLap(s) && ReadRight(s)
    ensures ReadRight(MoveStep(s, Fetch))
  {
    if |s.got| < s.ToSend() {
      var p := s.Pos() + |s.got|;
      assert s.data[SlotAt(p, |s.data|)] == s.stream[p];
      hide Consistent, InLap;
      var b := s.data[SlotAt(p, |s.data|)];
      assert MoveStep(s, Fetch) == s.(got := s.got + [b]);
      assert s.stream[s.offset..p + 1] == s.stream[s.offset..p] + [b];
      assert s.emitted + (s.got + [b]) == s.emitted + s.got + [b];
    }
  }

  lemma PublishReadsRight(s: Shared, b: seq<byte>)
    requires ReadRight(s)
    ensures ReadRight(s.(stream := s.stream + b, block := [], copied := {}))
  {
    var q := s.offset + |s.emitted| + |s.got|;
    assert (s.stream + b)[s.offset..q] == s.stream[s.offset..q];
  }

  lemma ReturnReadsRight(s: Shared, k: nat)
    requires ReadRight(s) && k <= |s.got|
    ensures ReadRight(s.(emitted := s.emitted + s.got[..k], got := []))
  {
    var m := |s.emitted| + k;
    assert s.emitted + s.got[..k] == (s.emitted + s.got)[..m];
    assert s.stream[s.offset..s.offset + |s.emitted| + |s.got|][..m] == s.stream[s.offset..s.offset + m];
    assert s.emitted + s.got[..k] + [] == s.emitted + s.got[..k];
  }

  lemma MoveReadsRight(s: Shared, m: Move)
    requires s.data != [] && Consistent(s) && InLap(s) && ReadRight(s)
    ensures ReadRight(MoveStep(s, m))
  {
    match m
    case Fetch => FetchReadsRight(s);
    case Publish =>
      hide Consistent, InLap;
      PublishReadsRight(s, s.block);
    case Return(k) =>
      hide Consistent, InLap;
      if k <= |s.got| {
        ReturnReadsRight(s, k);
      }
    case _ => hide Consistent, InLap;
  }

  lemma MoveKeeps(s: Shared, m: Move)
    requires s.data != []
    ensures var s' := MoveStep(s, m); s'.offset == s.offset && s'.n == s.n && s.stream <= s'.stream
  {
  }

  /** A read of n published bytes begins. */
  ghost predicate ReadBegins(s: Shared) {
    && Holds(Ring(s.data, |s.stream|), s.stream)
    && s.block == [] && s.copied == {}
    && s.offset + s.n <= |s.stream| && s.emitted == [] && s.got == []
  }

  lemma {:induction false} MovesRight(s: Shared, ms: seq<Move>)
    requires ReadBegins(s)
    ensures var s' := Moves(s, ms);
      && Consistent(s') && s'.offset == s.offset && s'.n == s.n && s.stream <= s'.stream
      && (InLap(s') ==> ReadRight(s'))
  {
    if ms == [] {
      StartInRing(|s.stream|, |s.data|);
    } else {
      hide Consistent, ReadRight, InLap, MoveStep, Holds;
      var s1, m := Moves(s, ms[..|ms| - 1]), ms[|ms| - 1];
      MovesRight(s, ms[..|ms| - 1]);
      MoveConsistent(s1, m);
      MoveKeeps(s1, m);
      if InLap(MoveStep(s1, m)) {
        LapOnlyShrinks(s1, m);
        MoveReadsRight(s1, m);
      }
    }
  }

  /** For every interleaving of copying, publishing and short writes: if at the end the bytes
      written, with the block in flight, are at most total_bytes plus the ring's size, then
      everything the reader emitted is the stream from total_bytes on; once n bytes are out
      they are exactly the frame's payload. */
  lemma ConcurrentReadValid(s: Shared, ms: seq<Move>)
    requires ReadBegins(s)
    requires var s' := Moves(s, ms); |s'.stream| + |s'.block| <= s.offset + |s.data|
    ensures var s' := Moves(s, ms);
      && |s'.emitted| <= s.n
      && s'.emitted == s.stream[s.offset..s.offset + |s'.emitted|]
  {
    hide Moves, Consistent;
    MovesRight(s, ms);
    var s' := Moves(s, ms);
    hide ReadBegins;
    Prefix(s.stream, s'.stream, s.offset, s'.emitted, s'.got);
  }

  lemma Prefix(stream: seq<byte>, stream': seq<byte>, offset: nat, x: seq<byte>, y: seq<byte>)
    requires stream <= stream' && offset + |x| + |y| <= |stream|
    requires x + y == stream'[offset..offset + |x| + |y|]
    ensures x == stream[offset..offset + |x|]
  {
    assert x == (x + y)[..|x|];
    assert stream'[offset..offset + |x|] == stream[offset..offset + |x|];
  }

  lemma MovesSnoc(s: Shared, ms: seq<Move>, m: Move)
    requires s.data != []
    ensures Moves(s, ms + [m]) == MoveStep(Moves(s, ms), m)
  {
    assert (ms + [m])[..|ms|] == ms;
  }

  lemma {:induction false} MovesConcat(s: Shared, ms: seq<Move>, ns: seq<Move>)
    requires s.data != []
    ensures Moves(s, ms + ns) == Moves(Moves(s, ms), ns)
  {
    hide MoveStep;
    if ns == [] {
      assert ms + ns == ms;
    } else {
      MovesConcat(s, ms, ns[..|ns| - 1]);
      assert (ms + ns)[..|ms + ns| - 1] == ms + ns[..|ns| - 1];
    }
  }

  lemma TwoMoves(s: Shared, m: Move, m': Move)
    requires s.data != []
    ensures Moves(s, [m, m']) == MoveStep(MoveStep(s, m), m')
  {
    assert [m, m'] == [] + [m] + [m'];
    MovesSnoc(s, [], m);
    MovesSnoc(s, [] + [m], m');
    hide MoveStep;
    assert Moves(s, []) == s;
  }

  // ---------------------------------------------------------------- the bound is sharp

  /** s' differs from s only in what the worker did, and no block is in flight in s'. */
  predicate WorkerOnly(s: Shared, s': Shared) {
    s' == s.(data := s'.data, stream := s'.stream, block := [], copied := {}) && |s'.data| == |s.data| > 0
  }

  /** The worker copies one byte but has not published it. */
  lemma PutByte(s: Shared, b: byte)
    requires s.data != [] && s.block == []
    ensures Moves(s, [Begin([b]), CopyByte(0)]) == s.(data := s.data[s.Start() := b], block := [b], copied := {0})
  {
    hide Moves;
    TwoMoves(s, Begin([b]), CopyByte(0));
  }

  /** The worker adds k bytes. */
  lemma {:induction false} Grow(s: Shared, k: nat) returns (ms: seq<Move>)
    requires s.data != [] && s.block == [] && s.copied == {}
    ensures WorkerOnly(s, Moves(s, ms)) && |Moves(s, ms).stream| == |s.stream| + k
  {
    if k == 0 {
      ms := [];
    } else {
      hide Moves;
      var before := Grow(s, k - 1);
      var s1 := Moves(s, before);
      PutByte(s1, 0);
      var put := [Begin([0]), CopyByte(0)];
      MovesSnoc(s1, put, Publish);
      MovesConcat(s, before, put + [Publish]);
      ms := before + (put + [Publish]);
    }
  }

  /** The reader emits all it still has to, byte by byte, the first from its own slot. */
  lemma {:induction false} ReadAll(s: Shared) returns (ms: seq<Move>)
    requires s.data != [] && |s.emitted| <= s.n && s.got == []
    ensures var s' := Moves(s, ms);
      && s' == s.(emitted := s'.emitted) && |s'.emitted| == s.n && s.emitted <= s'.emitted
      && (|s.emitted| < s.n ==> s'.emitted[|s.emitted|] == s.data[SlotAt(s.Pos(), |s.data|)])
    decreases s.n - |s.emitted|
  {
    if |s.emitted| == s.n {
      ms := [];
    } else {
      hide Moves, SlotAt;
      var b := s.data[SlotAt(s.Pos(), |s.data|)];
      var s1 := s.(emitted := s.emitted + [b]);
      assert s.got + [b] == [b] && [b][..1] == [b];
      TwoMoves(s, Fetch, Return(1));
      assert Moves(s, [Fetch, Return(1)]) == s1;
      var rest := ReadAll(s1);
      MovesConcat(s, [Fetch, Return(1)], rest);
      ms := [Fetch, Return(1)] + rest;
    }
  }

  /** The bound is sharp for every ring and every non-empty frame: one byte more, even
      unpublished, can spoil the read. */
  lemma LapIsSharp(s: Shared) returns (ms: seq<Move>)
    requires ReadBegins(s) && s.n > 0 && |s.stream| <= s.offset + |s.data|
    ensures var s' := Moves(s, ms);
      && |s'.stream| + |s'.block| == s.offset + |s.data| + 1
      && |s'.emitted| == s.n && s'.emitted != s.stream[s.offset..s.offset + s.n]
  {
    hide Moves, MoveStep, SlotAt, Holds;
    var grow := Grow(s, s.offset + |s.data| - |s.stream|);
    var s1 := Moves(s, grow);
    ModShift(s.offset, |s.data|, |s.data|);
    var b: byte := if s.stream[s.offset] == 0 then 1 else 0;
    var put := [Begin([b]), CopyByte(0)];
    PutByte(s1, b);
    var s2 := Moves(s1, put);
    var read := ReadAll(s2);
    MovesConcat(s, grow, put);
    MovesConcat(s, grow + put, read);
    ms := grow + put + read;
    assert Moves(s, ms).emitted[0] == b;
    assert s.stream[s.offset..s.offset + s.n][0] == s.stream[s.offset];
  }
}
