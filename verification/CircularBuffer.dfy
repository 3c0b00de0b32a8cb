/** The ring that holds one sensor's stream (util/circular_buffer). */
module CircularBuffers {
  import opened Types

  datatype Ring = Ring(data: seq<byte>, written: nat) {
    predicate Valid() { |data| > 0 }
  }

  function Min(a: nat, b: nat): nat { if a < b then a else b }

  /** The slot of position pos in a ring of n bytes. */
  function SlotAt(pos: nat, n: nat): (s: nat)
    requires n > 0
    ensures s < n
  {
    pos % n
  }

  /** Copies chunk over data from position start, as memcpy does. */
  function Overlay(data: seq<byte>, start: nat, chunk: seq<byte>): (d: seq<byte>)
    requires start + |chunk| <= |data|
    ensures |d| == |data|
  {
    data[..start] + chunk + data[start + |chunk|..]
  }

  /** How much of block fits before the end of the array. */
  function Piece(r: Ring, block: seq<byte>): (k: nat)
    requires r.Valid()
    ensures k <= |block| && SlotAt(r.written, |r.data|) + k <= |r.data|
    ensures block != [] ==> k > 0
  {
    Min(|r.data| - SlotAt(r.written, |r.data|), |block|)
  }

  /** The ring after one piece that does not wrap. */
  function AddPiece(r: Ring, piece: seq<byte>): (r': Ring)
    requires r.Valid() && SlotAt(r.written, |r.data|) + |piece| <= |r.data|
    ensures |r'.data| == |r.data| && r'.written == r.written + |piece|
  {
    Ring(Overlay(r.data, SlotAt(r.written, |r.data|), piece), r.written + |piece|)
  }

  /** The ring after block is added, one contiguous piece at a time. */
  function Add(r: Ring, block: seq<byte>): (r': Ring)
    requires r.Valid()
    ensures |r'.data| == |r.data|
    ensures r'.written == r.written + |block|
    decreases |block|
  {
    var k := Piece(r, block);
    var r1 := AddPiece(r, block[..k]);
    if k == |block| then r1 else Add(r1, block[k..])
  }

  /** The ring holds the last |data| bytes of stream, byte i at SlotAt(i, |data|). */
  ghost predicate Holds(r: Ring, stream: seq<byte>) {
    && r.Valid()
    && r.written == |stream|
    && forall i | |stream| - |r.data| <= i < |stream| && 0 <= i :: r.data[SlotAt(i, |r.data|)] == stream[i]
  }

  lemma MulOutside(a: int, n: nat)
    requires a != 0
    ensures a * n >= n || a * n <= 0 - n
  {
  }

  lemma ModUnique(q: int, n: nat, x: int, rem: int)
    requires n > 0 && x == q * n + rem && 0 <= rem < n
    ensures x % n == rem
  {
    var q' := x / n;
    assert (q - q') * n == x % n - rem by {
      assert x == q' * n + x % n;
      assert (q - q') * n == q * n - q' * n;
    }
    if q != q' {
      MulOutside(q - q', n);
    }
  }

  /** Stepping back or forth by at most one lap moves the slot by that much, modulo a lap. */
  lemma ModShift(w: nat, n: nat, d: int)
    requires n > 0 && 0 - n <= d <= n && w + d >= 0
    ensures var x := SlotAt(w, n) + d;
      SlotAt(w + d, n) == if x < 0 then x + n else if x >= n then (if x == 2 * n then 0 else x - n) else x
  {
    var q, r := w / n, w % n;
    assert w == q * n + r;
    if r + d < 0 {
      assert w + d == (q - 1) * n + (r + d + n);
      ModUnique(q - 1, n, w + d, r + d + n);
    } else if r + d >= n {
      assert w + d == (q + 1) * n + (r + d - n);
      ModUnique(q + 1, n, w + d, r + d - n);
    } else {
      ModUnique(q, n, w + d, r + d);
    }
  }

  /** Adding one piece that does not wrap keeps the ring's contents right. */
  lemma PieceHolds(r: Ring, stream: seq<byte>, piece: seq<byte>)
    requires Holds(r, stream) && SlotAt(r.written, |r.data|) + |piece| <= |r.data|
    ensures Holds(AddPiece(r, piece), stream + piece)
  {
    var n := |r.data|;
    var r' := AddPiece(r, piece);
    var s' := stream + piece;
    forall i | |s'| - n <= i < |s'| && 0 <= i ensures r'.data[SlotAt(i, n)] == s'[i] {
      ModShift(|stream|, n, i - |stream|);
    }
  }

  /** Adding a block of any length, even longer than the ring, keeps the ring the
      window onto the last bytes of everything ever added. */
  lemma {:induction false} AddHolds(r: Ring, stream: seq<byte>, block: seq<byte>)
    requires Holds(r, stream)
    ensures Holds(Add(r, block), stream + block)
    decreases |block|
  {
    hide Add, AddPiece, Piece, SlotAt, Holds;
    HoldsValid(r, stream);
    AddStep(r, block);
    var k := Piece(r, block);
    PieceHolds(r, stream, block[..k]);
    if k == |block| {
      assert block[..k] == block;
    } else {
      AddHolds(AddPiece(r, block[..k]), stream + block[..k], block[k..]);
      Associative(stream, block[..k], block[k..]);
      assert block[..k] + block[k..] == block;
    }
  }

  lemma HoldsValid(r: Ring, stream: seq<byte>)
    requires Holds(r, stream)
    ensures r.Valid()
  {
  }

  /** One piece, then the rest. */
  lemma AddStep(r: Ring, block: seq<byte>)
    requires r.Valid()
    ensures var k := Piece(r, block);
      Add(r, block) == (if k == |block| then AddPiece(r, block[..k]) else Add(AddPiece(r, block[..k]), block[k..]))
  {
    hide AddPiece, Piece, SlotAt;
  }

  function Concat(blocks: seq<seq<byte>>): seq<byte> {
    if blocks == [] then [] else Concat(blocks[..|blocks| - 1]) + blocks[|blocks| - 1]
  }

  function AddAll(r: Ring, blocks: seq<seq<byte>>): (r': Ring)
    requires r.Valid()
    ensures |r'.data| == |r.data|
  {
    if blocks == [] then r else Add(AddAll(r, blocks[..|blocks| - 1]), blocks[|blocks| - 1])
  }

  /** Whatever memory a fresh ring starts with, after any blocks it is the window onto
      their concatenation. */
  lemma {:induction false} AddAllHolds(r: Ring, blocks: seq<seq<byte>>)
    requires r.Valid() && r.written == 0
    ensures Holds(AddAll(r, blocks), Concat(blocks))
  {
    if blocks != [] {
      AddAllHolds(r, blocks[..|blocks| - 1]);
      AddHolds(AddAll(r, blocks[..|blocks| - 1]), Concat(blocks[..|blocks| - 1]), blocks[|blocks| - 1]);
    }
  }

  /** n bytes read cyclically from the slot of offset. */
  function Cyclic(r: Ring, n: nat, offset: nat): (s: seq<byte>)
    requires r.Valid()
    ensures |s| == n
  {
    seq(n, j requires j >= 0 => r.data[SlotAt(offset + j, |r.data|)])
  }

  lemma CyclicSplit(r: Ring, n: nat, offset: nat, k: nat)
    requires r.Valid() && k <= n
    ensures Cyclic(r, n, offset) == Cyclic(r, k, offset) + Cyclic(r, n - k, offset + k)
  {
  }

  /** Bytes still in the window are read back as they were added. */
  lemma CyclicReads(r: Ring, stream: seq<byte>, n: nat, offset: nat)
    requires Holds(r, stream)
    requires |stream| - |r.data| <= offset && offset + n <= |stream|
    ensures Cyclic(r, n, offset) == stream[offset..offset + n]
  {
    forall j | 0 <= j < n ensures Cyclic(r, n, offset)[j] == stream[offset..offset + n][j] {
      assert r.data[SlotAt(offset + j, |r.data|)] == stream[offset + j];
    }
  }

  /** The longest run of slots from offset to the end of the array, at most n. */
  function Contiguous(r: Ring, n: nat, offset: nat): (k: nat)
    requires r.Valid()
    ensures k <= n && (n > 0 ==> k > 0)
  {
    Min(|r.data| - SlotAt(offset, |r.data|), n)
  }

  lemma ContiguousReads(r: Ring, n: nat, offset: nat, k: nat)
    requires r.Valid() && k <= Contiguous(r, n, offset)
    ensures r.data[SlotAt(offset, |r.data|)..SlotAt(offset, |r.data|) + k] == Cyclic(r, k, offset)
  {
    var start := SlotAt(offset, |r.data|);
    forall j | 0 <= j < k ensures r.data[start..start + k][j] == Cyclic(r, k, offset)[j] {
      ModShift(offset, |r.data|, j);
    }
  }

  lemma ContiguousIs(r: Ring, n: nat, offset: nat)
    requires r.Valid()
    ensures offset % |r.data| == SlotAt(offset, |r.data|)
    ensures Contiguous(r, n, offset) == Min(|r.data| - SlotAt(offset, |r.data|), n)
  {
    hide SlotAt;
    SlotIs(offset, |r.data|);
  }

  lemma SlotIs(pos: nat, n: nat)
    requires n > 0
    ensures pos % n == SlotAt(pos, n)
  {
  }

  /** The result of one write(2) of len > 0 bytes: the next scripted result, never more than len;
      once the script is over every write is whole. */
  function WriteResult(results: seq<int>, len: nat): (k: int)
    ensures k <= len
  {
    if results == [] then len else if results[0] > len then len else results[0]
  }

  function Rest<T>(s: seq<T>): seq<T> { if s == [] then [] else s[1..] }

  datatype Outcome = Outcome(emitted: seq<byte>, ret: int, rest: seq<int>)

  /** What write_data emits and returns when the writes give these results. */
  function WriteData(r: Ring, n: nat, offset: nat, results: seq<int>): Outcome
    requires r.Valid()
    decreases n
  {
    if n == 0 then Outcome([], 0, results) else
    var toSend := Contiguous(r, n, offset);
    var k := WriteResult(results, toSend);
    if k <= 0 then Outcome([], k, Rest(results)) else
    var o := WriteData(r, n - k, offset + k, Rest(results));
    Outcome(Cyclic(r, k, offset) + o.emitted, o.ret, o.rest)
  }

  /** One write, then the rest. */
  lemma WriteDataStep(r: Ring, n: nat, offset: nat, results: seq<int>)
    requires r.Valid() && n > 0
    ensures var k := WriteResult(results, Contiguous(r, n, offset));
      WriteData(r, n, offset, results) ==
      if k <= 0 then Outcome([], k, Rest(results)) else
      var o := WriteData(r, n - k, offset + k, Rest(results));
      Outcome(Cyclic(r, k, offset) + o.emitted, o.ret, o.rest)
  {
  }

  lemma WriteNothing(r: Ring, offset: nat, results: seq<int>)
    requires r.Valid()
    ensures WriteData(r, 0, offset, results) == Outcome([], 0, results)
  {
  }

  /** With arbitrary short writes the emitted bytes are a prefix of the requested cyclic
      slice; the result is 0 with the whole slice out, or the failing result with a
      proper prefix. */
  lemma {:induction false} WriteDataEmits(r: Ring, n: nat, offset: nat, results: seq<int>)
    requires r.Valid()
    ensures var o := WriteData(r, n, offset, results);
      && |o.emitted| <= n
      && o.emitted == Cyclic(r, |o.emitted|, offset)
      && (|o.emitted| == n ==> o.ret == 0)
      && (|o.emitted| < n ==> o.ret <= 0 && o.ret in results)
    decreases n
  {
    if n > 0 {
      var k := WriteResult(results, Contiguous(r, n, offset));
      if k > 0 {
        WriteDataEmits(r, n - k, offset + k, Rest(results));
        CyclicSplit(r, k + |WriteData(r, n - k, offset + k, Rest(results)).emitted|, offset, k);
      }
    }
  }

  /** The results that write_data did not use are the end of the script. */
  lemma {:induction false} RestIsSuffix(r: Ring, n: nat, offset: nat, results: seq<int>)
    requires r.Valid()
    ensures var rest := WriteData(r, n, offset, results).rest;
      |rest| <= |results| && rest == results[|results| - |rest|..]
    decreases n
  {
    if n > 0 {
      var k := WriteResult(results, Contiguous(r, n, offset));
      if k > 0 {
        RestIsSuffix(r, n - k, offset + k, Rest(results));
      }
    }
  }

  /** All results of the script are low or more. */
  ghost predicate AtLeast(results: seq<int>, low: int) { forall k | k in results :: k >= low }

  lemma SuffixAtLeast(s: seq<int>, t: seq<int>, low: int)
    requires |t| <= |s| && t == s[|s| - |t|..] && AtLeast(s, low)
    ensures AtLeast(t, low)
  {
    forall k | k in t ensures k >= low {
      var i :| 0 <= i < |t| && t[i] == k;
      assert s[|s| - |t| + i] == k && k in s;
    }
  }

  /** The unused results are no worse than the script. */
  lemma RestAtLeast(r: Ring, n: nat, offset: nat, results: seq<int>, low: int)
    requires r.Valid() && AtLeast(results, low)
    ensures AtLeast(WriteData(r, n, offset, results).rest, low)
  {
    hide WriteData, AtLeast;
    RestIsSuffix(r, n, offset, results);
    SuffixAtLeast(results, WriteData(r, n, offset, results).rest, low);
  }

  /** write_data is complete exactly when the last write it made succeeded: in particular
      whenever every result is positive, and then it answers 0. */
  lemma {:induction false} WriteDataComplete(r: Ring, n: nat, offset: nat, results: seq<int>)
    requires r.Valid()
    ensures var o := WriteData(r, n, offset, results);
      var used := |results| - |o.rest|;
      && (o.emitted == Cyclic(r, n, offset) <==> used == 0 || (used > 0 && results[used - 1] > 0))
      && ((forall k | k in results :: k > 0) ==> o.emitted == Cyclic(r, n, offset) && o.ret == 0)
  {
    hide WriteData, Cyclic;
    WriteDataEmits(r, n, offset, results);
    RestIsSuffix(r, n, offset, results);
    LastWrite(r, n, offset, results);
  }

  /** All n bytes are out exactly when the last write made, if any, succeeded. */
  lemma {:induction false} LastWrite(r: Ring, n: nat, offset: nat, results: seq<int>)
    requires r.Valid()
    ensures var o := WriteData(r, n, offset, results);
      var used := |results| - |o.rest|;
      |o.emitted| == n <==> used == 0 || (used > 0 && results[used - 1] > 0)
    decreases n
  {
    hide WriteData, Cyclic, Contiguous;
    if n == 0 {
      WriteNothing(r, offset, results);
    } else {
      WriteDataStep(r, n, offset, results);
      var k := WriteResult(results, Contiguous(r, n, offset));
      if k > 0 {
        RestIsSuffix(r, n - k, offset + k, Rest(results));
        LastWrite(r, n - k, offset + k, Rest(results));
      }
    }
  }

  /** A result of 0 does not prove success: write_data answers 0 with bytes missing exactly
      when the last write it made returned 0. */
  lemma {:induction false} ZeroResultIsAmbiguous(r: Ring, n: nat, offset: nat, results: seq<int>)
    requires r.Valid()
    ensures var o := WriteData(r, n, offset, results);
      var used := |results| - |o.rest|;
      o.ret == 0 && |o.emitted| < n <==> used > 0 && results[used - 1] == 0
    decreases n
  {
    hide WriteData, Cyclic, Contiguous;
    if n == 0 {
      WriteNothing(r, offset, results);
    } else {
      WriteDataStep(r, n, offset, results);
      var k := WriteResult(results, Contiguous(r, n, offset));
      if k > 0 {
        RestIsSuffix(r, n - k, offset + k, Rest(results));
        ZeroResultIsAmbiguous(r, n - k, offset + k, Rest(results));
      }
    }
  }

  /** The warning test of write_data on the unwrapped difference of the counters. */
  predicate Overwritten(r: Ring, offset: nat) { offset < r.written - |r.data| }

  /** The warning fires exactly when a later byte took the slot of the first requested one. */
  lemma OverwrittenIffLost(r: Ring, offset: nat)
    requires r.Valid() && offset < r.written
    ensures Overwritten(r, offset) <==>
            exists i :: offset < i < r.written && SlotAt(i, |r.data|) == SlotAt(offset, |r.data|)
  {
    var n := |r.data|;
    if Overwritten(r, offset) {
      ModShift(offset, n, n);
      assert offset < offset + n < r.written && SlotAt(offset + n, n) == SlotAt(offset, n);
    } else {
      forall i | offset < i < r.written ensures SlotAt(i, n) != SlotAt(offset, n) {
        ModShift(offset, n, i - offset);
      }
    }
  }

  lemma Associative(a: seq<byte>, b: seq<byte>, c: seq<byte>)
    ensures a + b + c == a + (b + c)
  {
  }

  /** How copy_data ends; a copy from outside the array has no defined effect. */
  datatype Copy = Refused | Copied(dest: seq<byte>) | OutOfBounds

  /** A file descriptor: what reached it, and the results its next writes will have. */
  class Sink {
    var out: seq<byte>
    var results: seq<int>

    constructor (results: seq<int>)
      ensures out == [] && this.results == results
    {
      this.out, this.results := [], results;
    }

    /** write(2) of a non-empty range. */
    method Write(bytes: seq<byte>) returns (k: int)
      requires bytes != []
      modifies this
      ensures k == WriteResult(old(results), |bytes|)
      ensures results == Rest(old(results))
      ensures out == old(out) + if k > 0 then bytes[..k] else []
    {
      k := WriteResult(results, |bytes|);
      results := Rest(results);
      if k > 0 {
        out := out + bytes[..k];
      }
    }
  }

  lemma SlotOnce(pos: nat, len: nat)
    requires pos < 2 * len
    ensures SlotAt(pos, len) == if pos < len then pos else pos - len
  {
    ModUnique(if pos < len then 0 else 1, len, pos, if pos < len then pos else pos - len);
  }

  /** A read from an offset inside the array wraps at most once. */
  lemma WrapsOnce(r: Ring, n: nat, offset: nat)
    requires r.Valid() && n <= |r.data| && offset <= |r.data|
    ensures var k := if |r.data| - offset >= n then n else |r.data| - offset;
      Cyclic(r, n, offset) == r.data[offset..offset + k] + r.data[..n - k]
  {
    hide SlotAt;
    var k := if |r.data| - offset >= n then n else |r.data| - offset;
    var c, d := Cyclic(r, n, offset), r.data[offset..offset + k] + r.data[..n - k];
    forall i | 0 <= i < n ensures c[i] == d[i] {
      SlotOnce(offset + i, |r.data|);
    }
  }

  class CircularBuffer {
    const nbytes: nat
    var bytesWritten: nat
    const data: array<byte>

    ghost predicate Valid() {
      data.Length == nbytes > 0
    }

    ghost function Model(): Ring
      reads this, data
      ensures Valid() ==> Model().Valid()
    {
      Ring(data[..], bytesWritten)
    }

    constructor (size: nat)
      requires size > 0
      ensures Valid() && fresh(data) && nbytes == size && bytesWritten == 0
    {
      nbytes := size;
      data := new byte[size];
      bytesWritten := 0;
    }

    method AddData(p: seq<byte>)
      requires Valid()
      modifies this, data
      ensures Valid()
      ensures Model() == Add(old(Model()), p)
      decreases |p|
    {
      var toAdd := AddFirst(p);
      hide AddPiece, Piece, SlotAt;
      if |p| - toAdd != 0 {
        AddData(p[toAdd..]);
      }
    }

    /** The memcpy of add_data, and the count. */
    method AddFirst(p: seq<byte>) returns (toAdd: nat)
      requires Valid()
      modifies this, data
      ensures Valid()
      ensures toAdd == Piece(old(Model()), p) && Model() == AddPiece(old(Model()), p[..toAdd])
    {
      var start := bytesWritten % nbytes;
      toAdd := nbytes - start;
      toAdd := if toAdd > |p| then |p| else toAdd;
      Copy(start, p[..toAdd]);
      bytesWritten := bytesWritten + toAdd;
    }

    /** memcpy of chunk into data at start. */
    method Copy(start: nat, chunk: seq<byte>)
      requires start + |chunk| <= data.Length
      modifies data
      ensures data[..] == Overlay(old(data[..]), start, chunk)
    {
      ghost var was := data[..];
      for j := 0 to |chunk|
        invariant data[..] == Overlay(was, start, chunk[..j])
      {
        data[start + j] := chunk[j];
        assert Overlay(was, start, chunk[..j])[start + j := chunk[j]] == Overlay(was, start, chunk[..j + 1]);
      }
      assert chunk[..|chunk|] == chunk;
    }

    /** The write(2) call of write_data: one contiguous piece. */
    method WritePiece(fd: Sink, n: nat, offset: nat) returns (result: int)
      requires Valid() && n > 0
      modifies fd
      ensures result == WriteResult(old(fd.results), Contiguous(Model(), n, offset))
      ensures fd.results == Rest(old(fd.results))
      ensures fd.out == old(fd.out) +
                        if result > 0 then Cyclic(Model(), result, offset) else []
    {
      hide SlotAt, Contiguous, Cyclic, WriteResult;
      ghost var r := Model();
      var start := offset % nbytes;
      var toSend := nbytes - start;
      toSend := if toSend > n then n else toSend;
      ContiguousIs(r, n, offset);
      var piece := data[start..start + toSend];
      assert piece == r.data[start..start + toSend];
      result := fd.Write(piece);
      if result > 0 {
        ContiguousReads(r, n, offset, result);
        assert piece[..result] == r.data[start..start + result];
      }
    }

    /** The test before each write, which prints a message: a later byte has taken the slot of
        the first requested one. */
    method CheckOverwritten(offset: nat) returns (warned: bool)
      requires Valid()
      ensures warned <==> exists i :: offset < i < bytesWritten && SlotAt(i, nbytes) == SlotAt(offset, nbytes)
    {
      warned := offset < bytesWritten - nbytes;
      if offset < bytesWritten {
        OverwrittenIffLost(Model(), offset);
      }
    }

    method WriteTo(fd: Sink, n: nat, offset: nat) returns (ret: int)
      requires Valid()
      modifies fd
      ensures var o := WriteData(Model(), n, offset, old(fd.results));
        ret == o.ret && fd.out == old(fd.out) + o.emitted && fd.results == o.rest
      decreases n
    {
      if n == 0 {
        return 0;
      }
      ghost var r, sent := Model(), fd.out;
      WriteDataStep(r, n, offset, fd.results);
      hide WriteData, Cyclic, Contiguous, WriteResult, Rest, SlotAt;
      var warned := CheckOverwritten(offset);
      var result := WritePiece(fd, n, offset);
      if result <= 0 {
        return result;
      }
      ghost var piece := Cyclic(r, result, offset);
      ghost var o := WriteData(r, n - result, offset + result, fd.results);
      ret := WriteTo(fd, n - result, offset + result);
      Associative(sent, piece, o.emitted);
    }

    /** Copies n bytes out. Unlike write_data it does not wrap offset itself; the number of
        bytes to its right is an unsigned difference. */
    method CopyData(n: nat, offset: nat) returns (copy: Copy)
      requires Valid()
      ensures copy == if n == 0 || n > nbytes then Refused
                      else if offset <= nbytes then Copied(Cyclic(Model(), n, offset))
                      else OutOfBounds
    {
      if n == 0 || n > nbytes {
        return Refused;
      }
      if offset > nbytes {
        return OutOfBounds;
      }
      var rightBytes := nbytes - offset;
      var rightCopy := if rightBytes >= n then n else rightBytes;
      var dest := data[offset..offset + rightCopy];
      if rightCopy == rightBytes {
        dest := dest + data[..n - rightCopy];
      }
      WrapsOnce(Model(), n, offset);
      copy := Copied(dest);
    }

    method Zero()
      requires Valid()
      modifies this, data
      ensures Valid() && Holds(Model(), [])
      ensures forall i | 0 <= i < data.Length :: data[i] == 0
    {
      forall i | 0 <= i < data.Length {
        data[i] := 0;
      }
      bytesWritten := 0;
    }
  }
}
