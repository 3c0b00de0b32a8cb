/** Exactly when the main valve can be driven too soon after the igniter: when an unknown byte
    is received between two ign_normals. */
module Preignition {
  import opened Types
  import opened Controller
  import opened Schedules
  import opened ScanLoop
  import opened FiringSequence
  import opened Duplicates

  // ---------------------------------------------------------------- the property

  /** When visitIgn last ran. */
  function LastIgnited(trace: seq<Obs>): Option<nat> {
    if trace == [] then None else
    match trace[|trace| - 1]
    case Ignited(t) => Some(t)
    case _ => LastIgnited(trace[..|trace| - 1])
  }

  /** Every ign2 comes more than preignite_us after the last ign1. */
  predicate Preignited(cfg: Config, trace: seq<Obs>) {
    if trace == [] then true else
    var before, o := trace[..|trace| - 1], trace[|trace| - 1];
    Preignited(cfg, before) && (o.Fired2? ==> After(LastIgnited(before), o.t, cfg.preigniteUs))
  }

  lemma IgnitedPush(cfg: Config, trace: seq<Obs>, o: Obs)
    ensures LastIgnited(trace + [o]) == if o.Ignited? then Some(o.t) else LastIgnited(trace)
    ensures Preignited(cfg, trace + [o]) <==>
            Preignited(cfg, trace) && (o.Fired2? ==> After(LastIgnited(trace), o.t, cfg.preigniteUs))
  {
    assert (trace + [o])[..|trace|] == trace;
  }

  lemma {:induction false} PreignitedAt(cfg: Config, trace: seq<Obs>, b: nat)
    requires Preignited(cfg, trace) && b < |trace| && trace[b].Fired2?
    ensures After(LastIgnited(trace[..b]), trace[b].t, cfg.preigniteUs)
  {
    if b < |trace| - 1 {
      PreignitedAt(cfg, trace[..|trace| - 1], b);
      assert trace[..|trace| - 1][..b] == trace[..b];
    }
  }

  // ---------------------------------------------------------------- the commands' follow-ups

  /** Byte u is unknown and lies between the ign_normals i and j. */
  predicate Between(engine: Engine, cs: seq<byte>, i: nat, u: nat, j: nat) {
    i < u < j < |cs| && cs[i] == cs[j] == IGN_NORMAL && !Known(engine, cs[u])
  }

  ghost predicate Sandwiched(engine: Engine, cs: seq<byte>) {
    exists i: nat, u: nat, j: nat :: Between(engine, cs, i, u, j)
  }

  lemma SandwichedPrefix(engine: Engine, cs: seq<byte>, cs': seq<byte>)
    requires cs <= cs' && Sandwiched(engine, cs)
    ensures Sandwiched(engine, cs')
  {
    var i: nat, u: nat, j: nat :| Between(engine, cs, i, u, j);
    assert Between(engine, cs', i, u, j);
  }

  /** What the commands cs put back on the work queue, in order. */
  function Marks(engine: Engine, cs: seq<byte>): seq<Work> {
    if cs == [] then [] else Marks(engine, cs[..|cs| - 1]) + FollowUp(engine, cs[|cs| - 1])
  }

  lemma MarksPush(engine: Engine, cs: seq<byte>, c: byte)
    ensures Marks(engine, cs + [c]) == Marks(engine, cs) + FollowUp(engine, c)
  {
    assert (cs + [c])[..|cs|] == cs;
  }

  lemma FollowUpIs(engine: Engine, c: byte)
    ensures |FollowUp(engine, c)| <= 1
    ensures FollowUp(engine, c) == [WqIgn1] <==> c == IGN_NORMAL
    ensures FollowUp(engine, c) == [WqNone] <==> !Known(engine, c)
    ensures FollowUp(engine, c) == [] || FollowUp(engine, c) == [WqIgn1] || FollowUp(engine, c) == [WqNone]
  {
  }

  /** The first i commands put back the first entries. */
  lemma {:induction false} MarksPrefix(engine: Engine, cs: seq<byte>, i: nat)
    requires i <= |cs|
    ensures Marks(engine, cs[..i]) <= Marks(engine, cs)
  {
    if i == |cs| {
      assert cs[..i] == cs;
    } else {
      MarksPrefix(engine, cs[..|cs| - 1], i);
      assert cs[..|cs| - 1][..i] == cs[..i];
    }
  }

  /** Entry a of the follow-ups comes from command i. */
  predicate From(engine: Engine, cs: seq<byte>, a: nat, i: nat) {
    && i < |cs| && a < |Marks(engine, cs)|
    && |Marks(engine, cs[..i])| == a && FollowUp(engine, cs[i]) == [Marks(engine, cs)[a]]
  }

  lemma {:induction false} Origin(engine: Engine, cs: seq<byte>, a: nat) returns (i: nat)
    requires a < |Marks(engine, cs)|
    ensures From(engine, cs, a, i)
  {
    var n := |cs| - 1;
    FollowUpIs(engine, cs[n]);
    if a < |Marks(engine, cs[..n])| {
      hide FollowUp;
      i := Origin(engine, cs[..n], a);
      assert cs[..n][..i] == cs[..i];
    } else {
      i := n;
    }
  }

  lemma PlaceOf(engine: Engine, cs: seq<byte>, i: nat) returns (a: nat)
    requires i < |cs| && FollowUp(engine, cs[i]) != []
    ensures From(engine, cs, a, i)
  {
    hide FollowUp, Known;
    FollowUpIs(engine, cs[i]);
    a := |Marks(engine, cs[..i])|;
    MarksPush(engine, cs[..i], cs[i]);
    assert cs[..i] + [cs[i]] == cs[..i + 1];
    MarksPrefix(engine, cs, i + 1);
  }

  /** Commands and their follow-ups come in the same order. */
  lemma SameOrder(engine: Engine, cs: seq<byte>, a: nat, i: nat, b: nat, j: nat)
    requires From(engine, cs, a, i) && From(engine, cs, b, j)
    ensures a < b <==> i < j
  {
    hide FollowUp, Marks;
    if i < j {
      Earlier(engine, cs, a, i, b, j);
    } else if j < i {
      Earlier(engine, cs, b, j, a, i);
    }
  }

  lemma Earlier(engine: Engine, cs: seq<byte>, a: nat, i: nat, b: nat, j: nat)
    requires From(engine, cs, a, i) && From(engine, cs, b, j) && i < j
    ensures a < b
  {
    hide FollowUp, Marks;
    MarksPush(engine, cs[..i], cs[i]);
    assert cs[..i] + [cs[i]] == cs[..i + 1] == cs[..j][..i + 1];
    MarksPrefix(engine, cs[..j], i + 1);
  }

  /** A forced scan lies between two ignitions among the follow-ups. */
  predicate Split(m: seq<Work>, a: nat, b: nat, c: nat) {
    a < b < c < |m| && m[a] == m[c] == WqIgn1 && m[b] == WqNone
  }

  lemma SplitIsSandwiched(engine: Engine, cs: seq<byte>, a: nat, b: nat, c: nat)
    requires Split(Marks(engine, cs), a, b, c)
    ensures Sandwiched(engine, cs)
  {
    hide FollowUp, Marks, Known;
    var i := Origin(engine, cs, a);
    var u := Origin(engine, cs, b);
    var j := Origin(engine, cs, c);
    SameOrder(engine, cs, a, i, b, u);
    SameOrder(engine, cs, b, u, c, j);
    FollowUpIs(engine, cs[i]);
    FollowUpIs(engine, cs[u]);
    FollowUpIs(engine, cs[j]);
    assert Between(engine, cs, i, u, j);
  }

  lemma SandwichedSplits(engine: Engine, cs: seq<byte>) returns (a: nat, b: nat, c: nat)
    requires Sandwiched(engine, cs)
    ensures Split(Marks(engine, cs), a, b, c)
  {
    hide FollowUp, Marks, Known;
    var i: nat, u: nat, j: nat :| Between(engine, cs, i, u, j);
    FollowUpIs(engine, cs[i]);
    FollowUpIs(engine, cs[u]);
    FollowUpIs(engine, cs[j]);
    a := PlaceOf(engine, cs, i);
    b := PlaceOf(engine, cs, u);
    c := PlaceOf(engine, cs, j);
    SameOrder(engine, cs, a, i, b, u);
    SameOrder(engine, cs, b, u, c, j);
  }

  // ---------------------------------------------------------------- what is still to be carried out

  predicate IsMark(x: Work) { x.WqIgn1? || x.WqNone? }

  /** The ignitions and forced scans in the queue. */
  function Kept(q: seq<Work>): seq<Work> {
    if q == [] then [] else Kept(q[..|q| - 1]) + if IsMark(q[|q| - 1]) then [q[|q| - 1]] else []
  }

  lemma QueuePush(engine: Engine, q: seq<Work>, x: Work)
    ensures Kept(q + [x]) == Kept(q) + if IsMark(x) then [x] else []
    ensures Back(engine, q + [x]) == Back(engine, q) + if x.WqProcess? then FollowUp(engine, x.c) else []
  {
    hide FollowUp;
    assert (q + [x])[..|q|] == q;
  }

  lemma {:induction false} KeptHead(q: seq<Work>)
    requires q != []
    ensures Kept(q) == (if IsMark(q[0]) then [q[0]] else []) + Kept(q[1..])
  {
    hide IsMark;
    var n := |q| - 1;
    if n == 0 {
      assert q[..0] == [] && q[1..] == [];
    } else {
      KeptHead(q[..n]);
      assert q[..n][1..] == q[1..][..|q[1..]| - 1];
    }
  }

  lemma BackNothing(engine: Engine)
    ensures Back(engine, []) == []
  {
  }

  lemma {:induction false} BackHead(engine: Engine, q: seq<Work>)
    requires q != []
    ensures Back(engine, q) == (if q[0].WqProcess? then FollowUp(engine, q[0].c) else []) + Back(engine, q[1..])
  {
    hide FollowUp, Back, Kept;
    var init, last := q[..|q| - 1], q[|q| - 1];
    QueuePush(engine, init, last);
    assert q == init + [last];
    if init == [] {
      BackNothing(engine);
      assert q[1..] == [];
    } else {
      BackHead(engine, init);
      QueuePush(engine, init[1..], last);
      assert q[1..] == init[1..] + [last];
    }
  }

  lemma {:induction false} KeptHas(q: seq<Work>, x: Work)
    requires x in q && IsMark(x)
    ensures x in Kept(q)
  {
    var n := |q| - 1;
    if q[n] != x {
      KeptHas(q[..n], x);
    }
  }

  /** The follow-ups of what was received: those carried out, those queued, and those of the
      commands still queued. */
  predicate Carried(engine: Engine, done: seq<Work>, q: seq<Work>, received: seq<byte>) {
    Marks(engine, received) == done + Kept(q) + Back(engine, q)
  }

  lemma CarriedReceive(engine: Engine, done: seq<Work>, q: seq<Work>, received: seq<byte>, c: byte)
    requires Carried(engine, done, q, received)
    ensures Carried(engine, done, q + [WqProcess(c)], received + [c])
  {
    hide FollowUp, Marks, Kept, Back;
    MarksPush(engine, received, c);
    QueuePush(engine, q, WqProcess(c));
    assert done + Kept(q) + Back(engine, q) + FollowUp(engine, c) == done + (Kept(q) + []) + (Back(engine, q) + FollowUp(engine, c));
  }

  lemma CarriedTimed(engine: Engine, done: seq<Work>, q: seq<Work>, received: seq<byte>, i: Slot)
    requires Carried(engine, done, q, received)
    ensures Carried(engine, done, q + [WqTimed(i)], received)
  {
    hide FollowUp, Marks, Kept, Back;
    QueuePush(engine, q, WqTimed(i));
    assert Kept(q) + [] == Kept(q) && Back(engine, q) + [] == Back(engine, q);
  }

  /** Taking a command puts its follow-up behind the queued ones. */
  lemma CarriedCommand(engine: Engine, done: seq<Work>, q: seq<Work>, received: seq<byte>)
    requires q != [] && q[0].WqProcess? && Carried(engine, done, q, received)
    ensures Carried(engine, done, q[1..] + FollowUp(engine, q[0].c), received)
  {
    hide FollowUp, Marks, Kept, Back;
    var f := FollowUp(engine, q[0].c);
    KeptHead(q);
    BackHead(engine, q);
    FollowUpIs(engine, q[0].c);
    if f == [] {
      assert q[1..] + f == q[1..];
    } else {
      QueuePush(engine, q[1..], f[0]);
      assert q[1..] + f == q[1..] + [f[0]];
    }
    assert Kept(q[1..] + f) == Kept(q[1..]) + f && Back(engine, q[1..] + f) == Back(engine, q[1..]);
    assert done + ([] + Kept(q[1..])) + (f + Back(engine, q[1..])) == done + (Kept(q[1..]) + f) + Back(engine, q[1..]);
  }

  /** Taking an ignition or a forced scan carries it out; a timed entry is none. */
  lemma CarriedHead(engine: Engine, done: seq<Work>, q: seq<Work>, received: seq<byte>)
    requires q != [] && !q[0].WqProcess? && Carried(engine, done, q, received)
    ensures Carried(engine, if IsMark(q[0]) then done + [q[0]] else done, q[1..], received)
  {
    hide FollowUp, Marks, Kept, Back;
    KeptHead(q);
    BackHead(engine, q);
    assert Back(engine, q) == Back(engine, q[1..]);
    if IsMark(q[0]) {
      assert done + ([q[0]] + Kept(q[1..])) == done + [q[0]] + Kept(q[1..]);
    } else {
      assert [] + Kept(q[1..]) == Kept(q[1..]);
    }
  }

  /** A forced scan at the head, an ignition behind it and one carried out before. */
  lemma ForcedBetween(engine: Engine, done: seq<Work>, q: seq<Work>, received: seq<byte>)
    requires q != [] && q[0].WqNone? && WqIgn1 in q[1..] && WqIgn1 in done && Carried(engine, done, q, received)
    ensures Sandwiched(engine, received)
  {
    hide FollowUp, Marks, Kept, Back, Sandwiched;
    CarriedHead(engine, done, q, received);
    KeptHas(q[1..], WqIgn1);
    var rest := Kept(q[1..]);
    var a :| 0 <= a < |done| && done[a] == WqIgn1;
    var c :| 0 <= c < |rest| && rest[c] == WqIgn1;
    var b := |done|;
    var m := Marks(engine, received);
    assert m == done + [WqNone] + rest + Back(engine, q[1..]);
    assert m[a] == WqIgn1 && m[b] == WqNone && m[b + 1 + c] == WqIgn1;
    SplitIsSandwiched(engine, received, a, b, b + 1 + c);
  }

  // ---------------------------------------------------------------- the invariant

  /** No ignition waits ahead of an ign2 entry. */
  predicate NoneAhead(q: seq<Work>) {
    forall a, b | 0 <= a < b < |q| && q[b] == WqTimed(IGN2) :: q[a] != WqIgn1
  }

  /** The ign2 item carries the time of the last ign1, and its entries are late enough; waits
      tells whether one is queued. */
  predicate Armed2(cfg: Config, it: TimedItem, now: nat, trace: seq<Obs>, waits: bool) {
    && it.timeDelay == cfg.preigniteUs
    && (it.enabled ==> LastIgnited(trace) == Some(it.scheduled))
    && (waits ==> After(LastIgnited(trace), now, cfg.preigniteUs))
    && Preignited(cfg, trace)
  }

  /** While a scan runs with ign2 armed, no ignition waits. */
  predicate ScanClear(pc: WorkerPc, now: nat, q: seq<Work>, armed: bool) {
    pc.Scan? ==> pc.t == now && (armed ==> WqIgn1 !in q)
  }

  predicate Guarded(cfg: Config, s: State, done: seq<Work>) {
    && Armed2(cfg, s.rig.items[IGN2], s.now, s.trace, WqTimed(IGN2) in s.q)
    && NoneAhead(s.q) && ScanClear(s.pc, s.now, s.q, s.rig.items[IGN2].enabled)
    && (s.rig.items[IGN2].enabled ==> WqIgn1 in done)
    && Carried(cfg.engine, done, s.q, Received(s.trace))
  }

  lemma NetworkGuarded(cfg: Config, s: State, done: seq<Work>, recv: Recv, idle: nat)
    requires Guarded(cfg, s, done)
    ensures Guarded(cfg, NetworkStep(cfg, s, recv, idle), done)
  {
    hide NetStep, Preignited, LastIgnited, Carried, Received;
    if Reads(s.net) && recv.Byte? {
      IgnitedPush(cfg, s.trace, Arrived(recv.c));
      ReceivedPush(s.trace, Arrived(recv.c));
      CarriedReceive(cfg.engine, done, s.q, Received(s.trace), recv.c);
    }
  }

  lemma ScanGuarded(cfg: Config, s: State, done: seq<Work>)
    requires Guarded(cfg, s, done) && s.pc.Scan?
    ensures Guarded(cfg, ScanEntry(s, s.pc.i, s.pc.t), done)
  {
    hide Preignited, LastIgnited, Carried, Received;
    CarriedTimed(cfg.engine, done, s.q, Received(s.trace), s.pc.i);
  }

  lemma ScanStartGuarded(cfg: Config, s: State, done: seq<Work>, t: nat)
    requires Guarded(cfg, s, done) && s.q == [] && t >= s.now
    ensures Guarded(cfg, StartScan(s, t), done)
  {
    hide Preignited, LastIgnited, Carried, Received;
    IgnitedPush(cfg, s.trace, Polled(t));
    ReceivedPush(s.trace, Polled(t));
  }

  /** A visit that notes o, which is no ignition and no arrival, and leaves ign2 alone. */
  lemma BystanderGuarded(cfg: Config, s: State, s': State, done: seq<Work>, done': seq<Work>, o: Obs)
    requires Guarded(cfg, s, done) && s.q != [] && s.pc.Poll?
    requires s'.trace == s.trace + [o] && !o.Ignited? && !o.Fired2? && !o.Arrived? && s'.now >= s.now
    requires s'.rig.items[IGN2] == s.rig.items[IGN2]
    requires s'.q == s.q[1..] || s'.q == s.q[1..] + [WqIgn1] || s'.q == s.q[1..] + [WqNone]
    requires ScanClear(s'.pc, s'.now, s'.q, s.rig.items[IGN2].enabled)
    requires Carried(cfg.engine, done', s'.q, Received(s.trace)) && done <= done'
    ensures Guarded(cfg, s', done')
  {
    hide Preignited, LastIgnited, Carried, Received;
    IgnitedPush(cfg, s.trace, o);
    ReceivedPush(s.trace, o);
    assert WqTimed(IGN2) in s'.q ==> WqTimed(IGN2) in s.q;
  }

  lemma ProcGuarded(cfg: Config, s: State, done: seq<Work>)
    requires Guarded(cfg, s, done) && s.pc.Poll? && s.q != [] && s.q[0].WqProcess?
    ensures Guarded(cfg, Proc(cfg, Popped(s), s.q[0].c), done)
  {
    hide PinsAfter, FollowUp, Guarded, Carried, Received, Known;
    var c := s.q[0].c;
    FollowUpIs(cfg.engine, c);
    assert s.q[1..] + [] == s.q[1..];
    CarriedOf(cfg, s, done);
    CarriedCommand(cfg.engine, done, s.q, Received(s.trace));
    BystanderGuarded(cfg, s, Proc(cfg, Popped(s), c), done, done, Commanded(c));
  }

  lemma CarriedOf(cfg: Config, s: State, done: seq<Work>)
    requires Guarded(cfg, s, done)
    ensures Carried(cfg.engine, done, s.q, Received(s.trace))
  {
  }

  lemma SampleGuarded(cfg: Config, s: State, done: seq<Work>, i: Slot, t: nat, input: Input)
    requires Guarded(cfg, s, done) && s.pc.Poll? && s.q != [] && s.q[0] == WqTimed(i) && i < SENSORS && t >= s.now
    ensures Guarded(cfg, Sample(cfg, Touched(Popped(s), i, t), i, t, input), done)
  {
    hide Sample, Guarded, Carried, Received;
    var s1 := Touched(Popped(s), i, t);
    SampleKeeps(cfg, s1, i, t, input);
    CarriedOf(cfg, s, done);
    CarriedHead(cfg.engine, done, s.q, Received(s.trace));
    var s' := Sample(cfg, s1, i, t, input);
    BystanderGuarded(cfg, s, s', done, done, s'.trace[|s.trace|]);
  }

  lemma FireKeepsIgn2(cfg: Config, r: Rig, i: Slot, t: nat)
    requires i > IGN2
    ensures Fire(cfg, r, i, t).items[IGN2] == r.items[IGN2]
  {
  }

  lemma OtherFireGuarded(cfg: Config, s: State, done: seq<Work>, i: Slot, t: nat)
    requires Guarded(cfg, s, done) && s.pc.Poll? && s.q != [] && s.q[0] == WqTimed(i) && i > IGN2 && t >= s.now
    ensures Guarded(cfg, FireItem(cfg, Touched(Popped(s), i, t), i, t), done)
  {
    hide Fire, Guarded, Carried, Received;
    var s1 := Touched(Popped(s), i, t);
    FireKeepsIgn2(cfg, s1.rig, i, t);
    CarriedOf(cfg, s, done);
    CarriedHead(cfg.engine, done, s.q, Received(s.trace));
    BystanderGuarded(cfg, s, FireItem(cfg, s1, i, t), done, done, FireObs(cfg, s1.rig, i, t));
  }

  lemma Fire2Disarms(cfg: Config, r: Rig, t: nat)
    ensures var it := Fire(cfg, r, IGN2, t).items[IGN2]; !it.enabled && it.timeDelay == r.items[IGN2].timeDelay
  {
  }

  lemma Fire2Guarded(cfg: Config, s: State, done: seq<Work>, t: nat)
    requires Guarded(cfg, s, done) && s.pc.Poll? && s.q != [] && s.q[0] == WqTimed(IGN2) && t >= s.now
    ensures Guarded(cfg, FireItem(cfg, Touched(Popped(s), IGN2, t), IGN2, t), done)
  {
    hide Fire, Preignited, LastIgnited, Carried, Received;
    var s1 := Touched(Popped(s), IGN2, t);
    Fire2Disarms(cfg, s1.rig, t);
    IgnitedPush(cfg, s.trace, Fired2(t));
    ReceivedPush(s.trace, Fired2(t));
    CarriedHead(cfg.engine, done, s.q, Received(s.trace));
    assert s.q[0] in s.q;
  }

  lemma IgniteGuarded(cfg: Config, s: State, done: seq<Work>, t: nat)
    requires Guarded(cfg, s, done) && s.pc.Poll? && s.q != [] && s.q[0].WqIgn1? && t >= s.now
    ensures Guarded(cfg, Ignition1(cfg, Popped(s), t), done + [WqIgn1])
  {
    hide Preignited, LastIgnited, Carried, Received;
    IgnitedPush(cfg, s.trace, Ignited(t));
    ReceivedPush(s.trace, Ignited(t));
    CarriedHead(cfg.engine, done, s.q, Received(s.trace));
    assert WqTimed(IGN2) !in s.q[1..];
  }

  lemma ForcedGuarded(cfg: Config, s: State, done: seq<Work>, t: nat)
    requires Guarded(cfg, s, done) && s.pc.Poll? && s.q != [] && s.q[0].WqNone? && t >= s.now
    requires !Sandwiched(cfg.engine, Received(s.trace))
    ensures Guarded(cfg, StartScan(Popped(s), t), done + [WqNone])
  {
    hide Armed2, NoneAhead, Carried, Received, Sandwiched;
    if s.rig.items[IGN2].enabled && WqIgn1 in s.q[1..] {
      ForcedBetween(cfg.engine, done, s.q, Received(s.trace));
    }
    CarriedHead(cfg.engine, done, s.q, Received(s.trace));
    hide Guarded;
    BystanderGuarded(cfg, s, StartScan(Popped(s), t), done, done + [WqNone], Polled(t));
  }

  lemma TimedGuarded(cfg: Config, s: State, done: seq<Work>, i: Slot, t: nat, input: Input)
    requires Guarded(cfg, s, done) && s.pc.Poll? && s.q != [] && s.q[0] == WqTimed(i) && t >= s.now
    ensures Guarded(cfg, Timed(cfg, Popped(s), i, t, input), done)
  {
    hide Guarded, Sample, FireItem, Touched;
    if i < SENSORS {
      SampleGuarded(cfg, s, done, i, t, input);
    } else if i == IGN2 {
      Fire2Guarded(cfg, s, done, t);
    } else {
      OtherFireGuarded(cfg, s, done, i, t);
    }
  }

  lemma StepGuarded(cfg: Config, s: State, e: Event, done: seq<Work>) returns (done': seq<Work>)
    requires Guarded(cfg, s, done) && !Sandwiched(cfg.engine, Received(s.trace))
    ensures Guarded(cfg, Step(cfg, s, e), done')
  {
    hide Guarded, Sandwiched, Received, NetworkStep, ScanEntry, StartScan, Proc, Timed, Ignition1;
    done' := done;
    match e
    case Network(recv, idle) => NetworkGuarded(cfg, s, done, recv, idle);
    case Worker(input) =>
      var t := s.now + input.dt;
      if s.pc.Scan? {
        ScanGuarded(cfg, s, done);
      } else if s.q == [] {
        ScanStartGuarded(cfg, s, done, t);
      } else {
        match s.q[0]
        case WqProcess(_) => ProcGuarded(cfg, s, done);
        case WqTimed(i) => TimedGuarded(cfg, s, done, i, t, input);
        case WqIgn1 =>
          done' := done + [WqIgn1];
          IgniteGuarded(cfg, s, done, t);
        case WqNone =>
          done' := done + [WqNone];
          ForcedGuarded(cfg, s, done, t);
      }
  }

  lemma ReceivedGrows(cfg: Config, s: State, e: Event)
    ensures Received(s.trace) <= Received(Step(cfg, s, e).trace)
  {
    hide Step;
    StepTrace(cfg, s, e);
  }

  lemma {:induction false} RunGuarded(cfg: Config, s: State, es: seq<Event>) returns (done: seq<Work>)
    requires Initial(cfg, s) && !Sandwiched(cfg.engine, Received(Run(cfg, s, es).trace))
    ensures Guarded(cfg, Run(cfg, s, es), done)
  {
    if es == [] {
      var i: Slot := IGN2;
      assert s.rig.items[i] == InitialItem(cfg, i);
      done := [];
    } else {
      hide Guarded, Sandwiched, Received, Step, Initial;
      var s1, e := Run(cfg, s, es[..|es| - 1]), es[|es| - 1];
      ReceivedGrows(cfg, s1, e);
      if Sandwiched(cfg.engine, Received(s1.trace)) {
        SandwichedPrefix(cfg.engine, Received(s1.trace), Received(Run(cfg, s, es).trace));
      }
      done := RunGuarded(cfg, s, es[..|es| - 1]);
      done := StepGuarded(cfg, s1, e, done);
    }
  }

  /** In every run whose received bytes have no unknown one between two ign_normals, however
      ignitions overlap, every ign2 comes more than preignite_us after the last ign1. */
  lemma IgnitionTiming(cfg: Config, s: State, es: seq<Event>, b: nat)
    requires Initial(cfg, s) && !Sandwiched(cfg.engine, Received(Run(cfg, s, es).trace))
    requires b < |Run(cfg, s, es).trace|
    ensures var trace := Run(cfg, s, es).trace;
      trace[b].Fired2? ==> After(LastIgnited(trace[..b]), trace[b].t, cfg.preigniteUs)
  {
    hide Run, Initial, Sandwiched, Received, Preignited, LastIgnited, Carried;
    var done := RunGuarded(cfg, s, es);
    if Run(cfg, s, es).trace[b].Fired2? {
      PreignitedAt(cfg, Run(cfg, s, es).trace, b);
    }
  }

  // ---------------------------------------------------------------- a run that drives the valve too soon

  lemma {:induction false} MarksAreBack(engine: Engine, cs: seq<byte>)
    ensures Back(engine, Commands(cs)) == Marks(engine, cs)
  {
    hide FollowUp;
    var n := |cs| - 1;
    if cs == [] {
      assert Commands(cs) == [];
    } else {
      MarksAreBack(engine, cs[..n]);
      assert Commands(cs)[..n] == Commands(cs[..n]);
    }
  }

  lemma {:induction false} AllMarks(engine: Engine, cs: seq<byte>, a: nat)
    requires a < |Marks(engine, cs)|
    ensures IsMark(Marks(engine, cs)[a])
  {
    hide FollowUp, Marks;
    var i := Origin(engine, cs, a);
    FollowUpIs(engine, cs[i]);
  }

  /** A forced scan at the head of the queue, dt microseconds later. */
  lemma ForceScan(cfg: Config, s: State, dt: nat) returns (es: seq<Event>)
    requires s.pc.Poll? && s.q != [] && s.q[0].WqNone?
    ensures var t := s.now + dt;
      Run(cfg, s, es) == s.(now := t, q := s.q[1..] + DueFrom(s.rig.items, t, 0), trace := s.trace + [Polled(t)])
  {
    hide Run, DueFrom, Settle;
    Taken(cfg, s, dt);
    var s1 := StartScan(Popped(s), s.now + dt);
    SettleIsScan(s1);
    var scan := SettleRuns(cfg, s1);
    es := [Take(dt)] + scan;
    RunConcat(cfg, s, [Take(dt)], scan);
  }

  /** At time 0 nothing is overdue. */
  lemma {:induction false} NothingAtZero(items: Table, i: nat)
    requires i <= TI_COUNT
    ensures DueFrom(items, 0, i) == []
    decreases TI_COUNT - i
  {
    if i < TI_COUNT {
      hide DueFrom;
      NothingAtZero(items, i + 1);
      DueStep(items, 0, i);
    }
  }

  /** Time stands at 0; armed tells whether an ign1 has been visited. */
  predicate AtZero(cfg: Config, s: State, q: seq<Work>, armed: bool, received: seq<byte>) {
    && s.pc.Poll? && s.now == 0 && s.q == q && Received(s.trace) == received
    && s.rig.items[IGN2].timeDelay == cfg.preigniteUs
    && (armed ==> s.rig.items[IGN2].enabled && s.rig.items[IGN2].scheduled == 0)
  }

  lemma PlayOne(cfg: Config, s: State, q: seq<Work>, armed: bool, received: seq<byte>) returns (es: seq<Event>)
    requires AtZero(cfg, s, q, armed, received) && q != [] && IsMark(q[0])
    ensures AtZero(cfg, Run(cfg, s, es), q[1..], armed || q[0].WqIgn1?, received)
  {
    hide Run, Received, DueFrom;
    if q[0].WqIgn1? {
      Taken(cfg, s, 0);
      ReceivedPush(s.trace, Ignited(0));
      es := [Take(0)];
    } else {
      NothingAtZero(s.rig.items, 0);
      assert s.q[1..] + [] == s.q[1..];
      ReceivedPush(s.trace, Polled(0));
      es := ForceScan(cfg, s, 0);
    }
  }

  /** The worker visits n ignitions and forced scans at time 0. */
  lemma {:induction false} Play(cfg: Config, s: State, q: seq<Work>, armed: bool, received: seq<byte>, n: nat)
    returns (es: seq<Event>)
    requires AtZero(cfg, s, q, armed, received) && n <= |q| && forall a | 0 <= a < n :: IsMark(q[a])
    ensures AtZero(cfg, Run(cfg, s, es), q[n..], armed || WqIgn1 in q[..n], received)
    decreases n
  {
    if n == 0 {
      es := [];
      RunNothing(cfg, s);
      assert q[0..] == q;
    } else {
      hide Run, AtZero;
      var first := PlayOne(cfg, s, q, armed, received);
      var rest := Play(cfg, Run(cfg, s, first), q[1..], armed || q[0].WqIgn1?, received, n - 1);
      es := first + rest;
      RunConcat(cfg, s, first, rest);
      assert q[1..][n - 1..] == q[n..] && q[..n] == [q[0]] + q[1..][..n - 1];
    }
  }

  /** What any visit without delay keeps: the rest of the queue, and the time. */
  predicate Follows(s: State, s': State, x: Work, o: Obs) {
    && s.q <= s'.q && s'.now == s.now && (s'.pc.Poll? || s'.pc == Scan(0, s.now))
    && s'.trace == s.trace + [o] && !o.Arrived? && (o.Ignited? ==> o.t == s.now) && (x.WqIgn1? ==> o.Ignited?)
  }

  lemma VisitFollows(cfg: Config, s: State, x: Work) returns (o: Obs)
    requires s.pc.Poll?
    ensures Follows(s, Visit(cfg, s, x, Input(0, 0, Takes)), x, o)
  {
    hide Sample, PinsAfter, FollowUp, Fire, Ignite;
    var s' := Visit(cfg, s, x, Input(0, 0, Takes));
    if x.WqTimed? && x.i < SENSORS {
      SampleKeeps(cfg, Touched(s, x.i, s.now), x.i, s.now, Input(0, 0, Takes));
    }
    o := s'.trace[|s.trace|];
  }

  /** One visit of the head, and the scan it may start, without delay. */
  lemma TakeAny(cfg: Config, s: State) returns (es: seq<Event>)
    requires s.pc.Poll? && s.q != []
    ensures var s' := Run(cfg, s, es);
      && s'.pc.Poll? && s'.now == s.now && s.q[1..] <= s'.q && Received(s'.trace) == Received(s.trace)
      && (s.q[0].WqIgn1? || LastIgnited(s.trace) == Some(s.now) ==> LastIgnited(s'.trace) == Some(s.now))
  {
    hide Run, Received, LastIgnited, Preignited, Visit, DueFrom, Settle;
    Taken(cfg, s, 0);
    var o := VisitFollows(cfg, Popped(s), s.q[0]);
    IgnitedPush(cfg, s.trace, o);
    ReceivedPush(s.trace, o);
    var s1 := Run(cfg, s, [Take(0)]);
    if s1.pc.Poll? {
      es := [Take(0)];
    } else {
      SettleIsScan(s1);
      var scan := SettleRuns(cfg, s1);
      RunConcat(cfg, s, [Take(0)], scan);
      es := [Take(0)] + scan;
    }
  }

  /** The last entry of the history is an ign2 at the very time of the last ign1. */
  predicate TooSoon(trace: seq<Obs>, t: nat) {
    trace != [] && trace[|trace| - 1] == Fired2(t) && LastIgnited(trace[..|trace| - 1]) == Some(t)
  }

  /** Without delay the worker takes entries until the ign2 entry at place p, an ignition being
      ahead of it or just visited. */
  lemma {:induction false} Approach(cfg: Config, s: State, p: nat) returns (es: seq<Event>)
    requires s.pc.Poll? && p < |s.q| && s.q[p] == WqTimed(IGN2)
    requires LastIgnited(s.trace) == Some(s.now) || WqIgn1 in s.q[..p]
    ensures Received(Run(cfg, s, es).trace) == Received(s.trace)
    ensures TooSoon(Run(cfg, s, es).trace, s.now)
    decreases p
  {
    if p == 0 {
      hide Run, Received, LastIgnited, Fire;
      Taken(cfg, s, 0);
      ReceivedPush(s.trace, Fired2(s.now));
      assert (s.trace + [Fired2(s.now)])[..|s.trace|] == s.trace;
      es := [Take(0)];
    } else {
      hide Run, Received, LastIgnited, TooSoon;
      var first := TakeAny(cfg, s);
      var s1 := Run(cfg, s, first);
      assert s.q[..p] == [s.q[0]] + s.q[1..][..p - 1] && s.q[1..][..p - 1] == s1.q[..p - 1];
      var rest := Approach(cfg, s1, p - 1);
      es := first + rest;
      RunConcat(cfg, s, first, rest);
    }
  }

  lemma VisitDelay2(cfg: Config, s: State, x: Work, input: Input)
    requires s.rig.items[IGN2].timeDelay == cfg.preigniteUs
    ensures Visit(cfg, s, x, input).rig.items[IGN2].timeDelay == cfg.preigniteUs
  {
    hide Sample, PinsAfter, FollowUp, FireObs;
    if x.WqTimed? && x.i < SENSORS {
      SampleKeeps(cfg, Touched(s, x.i, s.now + input.dt), x.i, s.now + input.dt, input);
      var i: Slot := IGN2;
      assert Visit(cfg, s, x, input).rig.items[i] == Touched(s, x.i, s.now + input.dt).rig.items[i];
    }
  }

  lemma {:induction false} RunDelay2(cfg: Config, s: State, es: seq<Event>)
    requires Initial(cfg, s)
    ensures Run(cfg, s, es).rig.items[IGN2].timeDelay == cfg.preigniteUs
  {
    if es == [] {
      var i: Slot := IGN2;
      assert s.rig.items[i] == InitialItem(cfg, i);
    } else {
      hide Initial, Visit, NetStep;
      var s1, e := Run(cfg, s, es[..|es| - 1]), es[|es| - 1];
      RunDelay2(cfg, s, es[..|es| - 1]);
      if e.Worker? && s1.pc.Poll? {
        VisitDelay2(cfg, if s1.q == [] then s1 else Popped(s1), if s1.q == [] then WqNone else s1.q[0], e.input);
      }
    }
  }

  /** All of cs comes in and is handled before any ignition, at time 0. */
  lemma Prepare(cfg: Config, s: State, cs: seq<byte>) returns (es: seq<Event>)
    requires Initial(cfg, s)
    ensures AtZero(cfg, Run(cfg, s, es), Marks(cfg.engine, cs), false, cs)
  {
    hide Run, Back, Received, Marks;
    var es1 := DeliverAll(cfg, s, cs);
    var s1 := Run(cfg, s, es1);
    NothingReceived();
    assert s1.q == Commands(cs) && s1.q[..|cs|] == Commands(cs);
    var es2 := Drain(cfg, s1, |cs|);
    MarksAreBack(cfg.engine, cs);
    assert s1.q[|cs|..] + Marks(cfg.engine, cs) == Marks(cfg.engine, cs);
    RunConcat(cfg, s, es1, es2);
    es := es1 + es2;
    RunDelay2(cfg, s, es);
  }

  lemma NothingReceived()
    ensures Received([]) == []
  {
  }

  /** Armed since time 0, ign2 is overdue as soon as its delay has passed. */
  lemma Overdue2(cfg: Config, s: State, q: seq<Work>, received: seq<byte>) returns (p: nat)
    requires AtZero(cfg, s, q, true, received)
    ensures var due := DueFrom(s.rig.items, cfg.preigniteUs + 1, 0); p < |due| && due[p] == WqTimed(IGN2)
  {
    hide DueFrom, Received;
    DueFromExact(s.rig.items, cfg.preigniteUs + 1, 0);
    var i: Slot := IGN2;
    var due := DueFrom(s.rig.items, cfg.preigniteUs + 1, 0);
    assert Due(s.rig.items[i], cfg.preigniteUs + 1);
    assert WqTimed(i) in due;
    p :| 0 <= p < |due| && due[p] == WqTimed(IGN2);
  }

  /** With a sandwiched unknown byte among cs the worker can be made to run ign2 right behind
      an ign1. */
  lemma Spoil(cfg: Config, s: State, cs: seq<byte>) returns (es: seq<Event>, t: nat)
    requires Initial(cfg, s) && Sandwiched(cfg.engine, cs)
    ensures Received(Run(cfg, s, es).trace) == cs && TooSoon(Run(cfg, s, es).trace, t)
  {
    hide Run, Initial, Received, Marks, Sandwiched, DueFrom, TooSoon, LastIgnited;
    var m := Marks(cfg.engine, cs);
    var a, b, c := SandwichedSplits(cfg.engine, cs);
    forall k | 0 <= k < b ensures IsMark(m[k]) {
      AllMarks(cfg.engine, cs, k);
    }
    var es1 := Prepare(cfg, s, cs);
    var s1 := Run(cfg, s, es1);
    var es2 := Play(cfg, s1, m, false, cs, b);
    var s2 := Run(cfg, s1, es2);
    assert m[..b][a] == WqIgn1;
    t := cfg.preigniteUs + 1;
    var p := Overdue2(cfg, s2, m[b..], cs);
    var es3 := ForceScan(cfg, s2, t);
    var s3 := Run(cfg, s2, es3);
    ReceivedPush(s2.trace, Polled(t));
    var rest := m[b..][1..];
    assert rest[c - b - 1] == WqIgn1 && s3.q[..|rest| + p][c - b - 1] == WqIgn1;
    var es4 := Approach(cfg, s3, |rest| + p);
    RunConcat(cfg, s, es1, es2);
    RunConcat(cfg, s, es1 + es2, es3);
    RunConcat(cfg, s, es1 + es2 + es3, es4);
    es := es1 + es2 + es3 + es4;
  }

  /** The commands cs can never, under any schedule, make an ign2 come within preignite_us of
      the last ign1 exactly when no unknown byte lies between two ign_normals. */
  lemma PreignitionExactly(cfg: Config, s: State, cs: seq<byte>)
    requires Initial(cfg, s)
    ensures !Sandwiched(cfg.engine, cs) <==>
            forall es, b: nat | Received(Run(cfg, s, es).trace) == cs
                              && b < |Run(cfg, s, es).trace| && Run(cfg, s, es).trace[b].Fired2? ::
              After(LastIgnited(Run(cfg, s, es).trace[..b]), Run(cfg, s, es).trace[b].t, cfg.preigniteUs)
  {
    hide Run, Initial, Received, Sandwiched, LastIgnited;
    if Sandwiched(cfg.engine, cs) {
      var es, t := Spoil(cfg, s, cs);
      var b := |Run(cfg, s, es).trace| - 1;
      assert Run(cfg, s, es).trace[b] == Fired2(t);
    } else {
      forall es, b: nat | Received(Run(cfg, s, es).trace) == cs
                        && b < |Run(cfg, s, es).trace| && Run(cfg, s, es).trace[b].Fired2?
        ensures After(LastIgnited(Run(cfg, s, es).trace[..b]), Run(cfg, s, es).trace[b].t, cfg.preigniteUs)
      {
        IgnitionTiming(cfg, s, es, b);
      }
    }
  }
}
