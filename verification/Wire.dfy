/** Byte layouts: the 16-byte sample record and the framed messages sent to the base
    station, for a little-endian machine with 8-byte size_t. */
module Wire {
  import opened Types

  const RECORD_SIZE: nat := 16
  const HEADER_SIZE: nat := 16

  /** The low k bytes of x, least significant first. */
  function LittleEndian(x: nat, k: nat): (s: seq<byte>)
    ensures |s| == k
  {
    if k == 0 then [] else [(x % 256) as byte] + LittleEndian(x / 256, k - 1)
  }

  function FromLittleEndian(s: seq<byte>): nat {
    if s == [] then 0 else s[0] as nat + 256 * FromLittleEndian(s[1..])
  }

  function Pow256(k: nat): nat { if k == 0 then 1 else 256 * Pow256(k - 1) }

  lemma {:induction false} LittleEndianRoundTrip(x: nat, k: nat)
    requires x < Pow256(k)
    ensures FromLittleEndian(LittleEndian(x, k)) == x
  {
    if k > 0 {
      LittleEndianRoundTrip(x / 256, k - 1);
      assert LittleEndian(x, k)[1..] == LittleEndian(x / 256, k - 1);
    }
  }

  datatype Reading = Reading(dat: nat, t: nat)

  /** struct adc_reading. */
  function Record(r: Reading): (s: seq<byte>)
    ensures |s| == RECORD_SIZE
  {
    LittleEndian(r.dat, 8) + LittleEndian(r.t, 8)
  }

  function Records(rs: seq<Reading>): (s: seq<byte>)
    ensures |s| == RECORD_SIZE * |rs|
  {
    if rs == [] then [] else Records(rs[..|rs| - 1]) + Record(rs[|rs| - 1])
  }

  predicate Fits(r: Reading) { r.dat < Pow256(8) && r.t < Pow256(8) }

  /** The k-th 16-byte slice of a log, read as a struct adc_reading. */
  function ReadingAt(log: seq<byte>, k: nat): Reading
    requires RECORD_SIZE * (k + 1) <= |log|
  {
    var s := log[RECORD_SIZE * k..RECORD_SIZE * k + RECORD_SIZE];
    Reading(FromLittleEndian(s[..8]), FromLittleEndian(s[8..]))
  }

  /** Decoding a log of records gives the readings back. */
  lemma {:induction false} RecordsRoundTrip(rs: seq<Reading>, k: nat)
    requires k < |rs| && Fits(rs[k])
    ensures ReadingAt(Records(rs), k) == rs[k]
  {
    var init, last := rs[..|rs| - 1], rs[|rs| - 1];
    if k < |rs| - 1 {
      RecordsRoundTrip(init, k);
      assert Records(rs)[RECORD_SIZE * k..RECORD_SIZE * k + RECORD_SIZE]
          == Records(init)[RECORD_SIZE * k..RECORD_SIZE * k + RECORD_SIZE];
    } else {
      var s := Records(rs)[RECORD_SIZE * k..RECORD_SIZE * k + RECORD_SIZE];
      assert s == Record(last);
      assert s[..8] == LittleEndian(last.dat, 8) && s[8..] == LittleEndian(last.t, 8);
      LittleEndianRoundTrip(last.dat, 8);
      LittleEndianRoundTrip(last.t, 8);
    }
  }

  /** One framed message: the channel's code, and the payload its header announces. */
  datatype Message = Message(code: nat, payload: seq<byte>)

  type Padding = s: seq<byte> | |s| == 4 witness [0, 0, 0, 0]

  /** struct send_header_t: the code, 4 bytes of padding with any contents, the length. */
  function Header(code: nat, pad: Padding, n: nat): (s: seq<byte>)
    ensures |s| == HEADER_SIZE
  {
    LittleEndian(code, 4) + pad + LittleEndian(n, 8)
  }

  function Emit(m: Message, pad: Padding): seq<byte>
  {
    Header(m.code, pad, |m.payload|) + m.payload
  }

  predicate Encodable(m: Message) { m.code < Pow256(4) && |m.payload| < Pow256(8) }

  /** Everything the socket carries for messages ms, each header with its own padding. */
  function EmitAll(ms: seq<Message>, pads: seq<Padding>): seq<byte>
    requires |pads| == |ms|
  {
    if ms == [] then [] else Emit(ms[0], pads[0]) + EmitAll(ms[1..], pads[1..])
  }

  /** The receiver: splits a byte stream into whole messages and an incomplete rest. */
  function Parse(wire: seq<byte>): (seq<Message>, seq<byte>)
    decreases |wire|
  {
    if |wire| < HEADER_SIZE then ([], wire) else
    var n := FromLittleEndian(wire[8..16]);
    if |wire| < HEADER_SIZE + n then ([], wire) else
    var (ms, rest) := Parse(wire[HEADER_SIZE + n..]);
    ([Message(FromLittleEndian(wire[..4]), wire[HEADER_SIZE..HEADER_SIZE + n])] + ms, rest)
  }

  lemma ParseOne(m: Message, pad: Padding, rest: seq<byte>)
    requires Encodable(m)
    ensures Parse(Emit(m, pad) + rest) == ([m] + Parse(rest).0, Parse(rest).1)
  {
    var n := |m.payload|;
    var wire := Emit(m, pad) + rest;
    assert wire[..4] == LittleEndian(m.code, 4);
    assert wire[8..16] == LittleEndian(n, 8);
    assert wire[HEADER_SIZE..HEADER_SIZE + n] == m.payload;
    assert wire[HEADER_SIZE + n..] == rest;
    LittleEndianRoundTrip(m.code, 4);
    LittleEndianRoundTrip(n, 8);
  }

  /** The receiver recovers exactly the messages sent, whatever the padding, with any
      partly received message, header or payload, left over. */
  lemma {:induction false} ParseEmitAll(ms: seq<Message>, pads: seq<Padding>, rest: seq<byte>)
    requires |pads| == |ms|
    requires forall m | m in ms :: Encodable(m)
    requires Parse(rest) == ([], rest)
    ensures Parse(EmitAll(ms, pads) + rest) == (ms, rest)
  {
    if ms == [] {
      assert EmitAll(ms, pads) + rest == rest;
    } else {
      var tail := EmitAll(ms[1..], pads[1..]) + rest;
      assert EmitAll(ms, pads) + rest == Emit(ms[0], pads[0]) + tail by {
        EmitAllStep(ms, pads);
      }
      assert Parse(tail) == (ms[1..], rest) by {
        ParseEmitAll(ms[1..], pads[1..], rest);
      }
      ParseOne(ms[0], pads[0], tail);
      assert [ms[0]] + ms[1..] == ms;
    }
  }

  lemma EmitAllStep(ms: seq<Message>, pads: seq<Padding>)
    requires |pads| == |ms| > 0
    ensures EmitAll(ms, pads) == Emit(ms[0], pads[0]) + EmitAll(ms[1..], pads[1..])
  {
  }
}
