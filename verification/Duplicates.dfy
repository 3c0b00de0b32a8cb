/** Exactly when the scheduler can queue an item twice: when two unknown bytes are received. */
module Duplicates {
  import opened Types
  import opened Controller
  import opened Scheduling
  import opened Schedules

  /** The unknown bytes among cs. */
  function UnknownIn(engine: Engine, cs: seq<byte>): nat {
    if cs == [] then 0 else
    UnknownIn(engine, cs[..|cs| - 1]) + if Known(engine, cs[|cs| - 1]) then 0 else 1
  }

  lemma {:induction false} UnknownReceived(engine: Engine, trace: seq<Obs>)
    ensures Unknown(engine, trace) == UnknownIn(engine, Received(trace))
  {
    if trace != [] {
      var before, o := trace[..|trace| - 1], trace[|trace| - 1];
      UnknownReceived(engine, before);
      if o.Arrived? {
        assert (Received(before) + [o.c])[..|Received(before)|] == Received(before);
      } else {
        assert Received(before) + [] == Received(before);
      }
    }
  }

  function Commands(cs: seq<byte>): (q: seq<Work>)
    ensures |q| == |cs| && forall a | 0 <= a < |q| :: q[a] == WqProcess(cs[a])
  {
    seq(|cs|, a requires 0 <= a < |cs| => WqProcess(cs[a]))
  }

  /** What visiting the entries of q puts back, in order. */
  function Back(engine: Engine, q: seq<Work>): seq<Work> {
    if q == [] then [] else
    Back(engine, q[..|q| - 1]) + if q[|q| - 1].WqProcess? then FollowUp(engine, q[|q| - 1].c) else []
  }

  /** From s to s' nothing was received, no time passed and sensor 0 was not touched. */
  predicate Still(s: State, s': State) {
    && s.pc.Poll? && s'.pc.Poll? && s'.now == s.now && s'.rig.items[0] == s.rig.items[0]
    && Received(s'.trace) == Received(s.trace)
  }

  lemma ReceivedPush(trace: seq<Obs>, o: Obs)
    ensures Received(trace + [o]) == if o.Arrived? then Received(trace) + [o.c] else Received(trace)
  {
    assert (trace + [o])[..|trace|] == trace;
  }

  /** From s to s' exactly cs came in, and the worker did not move. */
  predicate Came(s: State, s': State, cs: seq<byte>) {
    && Listening(s') && s'.q == s.q + Commands(cs) && Received(s'.trace) == Received(s.trace) + cs
    && s'.pc == s.pc && s'.now == s.now && s'.rig == s.rig
  }

  lemma CameOneMore(s: State, s1: State, s': State, cs: seq<byte>, c: byte)
    requires Came(s, s1, cs) && Came(s1, s', [c])
    ensures Came(s, s', cs + [c])
  {
    hide Received, Listening;
    assert Commands(cs + [c]) == Commands(cs) + Commands([c]);
  }

  lemma DeliverOne(cfg: Config, s: State, c: byte)
    requires Listening(s)
    ensures Came(s, Run(cfg, s, Delivery(c)), [c])
  {
    hide Run, Received, Delivery;
    Delivered(cfg, s, c);
    ReceivedPush(s.trace, Arrived(c));
    assert Commands([c]) == [WqProcess(c)];
  }

  /** The network thread delivers all of cs before the worker moves. */
  lemma {:induction false} DeliverAll(cfg: Config, s: State, cs: seq<byte>) returns (es: seq<Event>)
    requires Listening(s)
    ensures Came(s, Run(cfg, s, es), cs)
  {
    if cs == [] {
      es := [];
      RunNothing(cfg, s);
    } else {
      var init, last := cs[..|cs| - 1], cs[|cs| - 1];
      var es0 := DeliverAll(cfg, s, init);
      assert Listening(Run(cfg, s, es0));
      hide Run, Came, Delivery, Listening;
      es := es0 + Delivery(last);
      RunConcat(cfg, s, es0, Delivery(last));
      DeliverOne(cfg, Run(cfg, s, es0), last);
      CameOneMore(s, Run(cfg, s, es0), Run(cfg, s, es), init, last);
      assert cs == init + [last];
    }
  }

  /** One visit of a command or an ignition. */
  lemma TakeOne(cfg: Config, s: State)
    requires s.pc.Poll? && s.q != [] && (s.q[0].WqProcess? || s.q[0].WqIgn1?)
    ensures var s' := Run(cfg, s, [Take(0)]);
      && Still(s, s')
      && s'.q == s.q[1..] + if s.q[0].WqProcess? then FollowUp(cfg.engine, s.q[0].c) else []
  {
    hide Run, Received, PinsAfter, Known;
    Taken(cfg, s, 0);
    ReceivedPush(s.trace, if s.q[0].WqProcess? then Commanded(s.q[0].c) else Ignited(s.now));
  }

  /** From s to s' the first n entries were visited. */
  predicate Drained(engine: Engine, s: State, s': State, n: nat)
    requires n <= |s.q|
  {
    Still(s, s') && s'.q == s.q[n..] + Back(engine, s.q[..n])
  }

  lemma DrainedOneMore(engine: Engine, s: State, s1: State, s': State, n: nat)
    requires n < |s.q| && Drained(engine, s, s1, n) && s1.q != [] && Still(s1, s')
    requires s'.q == s1.q[1..] + if s1.q[0].WqProcess? then FollowUp(engine, s1.q[0].c) else []
    ensures Drained(engine, s, s', n + 1)
  {
    hide Received, FollowUp;
    var x := s.q[n];
    assert s.q[..n + 1][..n] == s.q[..n];
    assert s1.q[1..] == s.q[n + 1..] + Back(engine, s.q[..n]);
    assert s1.q[0] == x;
  }

  /** The worker visits the first n entries, none of them timed or a forced scan. */
  lemma {:induction false} Drain(cfg: Config, s: State, n: nat) returns (es: seq<Event>)
    requires s.pc.Poll? && n <= |s.q|
    requires forall a | 0 <= a < n :: s.q[a].WqProcess? || s.q[a].WqIgn1?
    ensures Drained(cfg.engine, s, Run(cfg, s, es), n)
  {
    if n == 0 {
      es := [];
      RunNothing(cfg, s);
    } else {
      var es0 := Drain(cfg, s, n - 1);
      var s1 := Run(cfg, s, es0);
      assert s1.pc.Poll? && s1.q != [] && s1.q[0] == s.q[n - 1];
      hide Run, Drained, Still, FollowUp;
      es := es0 + [Take(0)];
      RunConcat(cfg, s, es0, [Take(0)]);
      TakeOne(cfg, s1);
      DrainedOneMore(cfg.engine, s, s1, Run(cfg, s, es), n - 1);
    }
  }

  /** An uninterrupted scan from entry i on. */
  lemma {:induction false} ScanThrough(cfg: Config, s: State) returns (es: seq<Event>, due: seq<Work>)
    requires s.pc.Scan?
    ensures var s' := Run(cfg, s, es);
      && s' == s.(pc := Poll, q := s.q + due)
      && (s.pc.i == 0 && Due(s.rig.items[0], s.pc.t) ==> WqTimed(0) in due)
    decreases TI_COUNT - s.pc.i
  {
    hide Run;
    var e := Take(0);
    var s1 := Step(cfg, s, e);
    RunSnoc(cfg, s, [], e);
    RunNothing(cfg, s);
    assert [] + [e] == [e];
    var first := if Due(s.rig.items[s.pc.i], s.pc.t) then [WqTimed(s.pc.i)] else [];
    assert s1.q == s.q + first;
    if s1.pc.Poll? {
      es, due := [e], first;
    } else {
      var rest, more := ScanThrough(cfg, s1);
      es, due := [e] + rest, first + more;
      RunConcat(cfg, s, [e], rest);
      assert s.q + first + more == s.q + due;
    }
  }

  /** A forced scan at the head of the queue, dt microseconds later. */
  lemma Force(cfg: Config, s: State, dt: nat) returns (es: seq<Event>, due: seq<Work>)
    requires s.pc.Poll? && s.q != [] && s.q[0].WqNone?
    ensures var s' := Run(cfg, s, es);
      && Still(s.(now := s.now + dt), s') && s'.q == s.q[1..] + due
      && (Due(s.rig.items[0], s.now + dt) ==> WqTimed(0) in due)
  {
    hide Run, Received, Due;
    Taken(cfg, s, dt);
    var s1 := Run(cfg, s, [Take(dt)]);
    ReceivedPush(s.trace, Polled(s.now + dt));
    var rest: seq<Event>;
    rest, due := ScanThrough(cfg, s1);
    es := [Take(dt)] + rest;
    RunConcat(cfg, s, [Take(dt)], rest);
  }

  // ---------------------------------------------------------------- the duplicating run

  /** What commands put back is ignitions and forced scans, one scan for each unknown byte. */
  lemma {:induction false} BackOfCommands(engine: Engine, cs: seq<byte>)
    ensures var f := Back(engine, Commands(cs));
      && (forall a | 0 <= a < |f| :: f[a].WqIgn1? || f[a].WqNone?)
      && Count(f, WqNone) == UnknownIn(engine, cs)
  {
    if cs != [] {
      var init, last := cs[..|cs| - 1], cs[|cs| - 1];
      BackOfCommands(engine, init);
      assert Commands(cs)[..|cs| - 1] == Commands(init);
      BackPush(engine, Back(engine, Commands(init)), last);
    }
  }

  lemma BackPush(engine: Engine, f: seq<Work>, c: byte)
    ensures Count(f + FollowUp(engine, c), WqNone) == Count(f, WqNone) + if Known(engine, c) then 0 else 1
  {
    hide Count;
    assert f + [] == f;
    CountPush(f, WqNone, WqNone);
    CountPush(f, WqIgn1, WqNone);
  }

  lemma {:induction false} BackOfIgnitions(engine: Engine, q: seq<Work>)
    requires forall a | 0 <= a < |q| :: q[a].WqIgn1?
    ensures Back(engine, q) == []
  {
    if q != [] {
      BackOfIgnitions(engine, q[..|q| - 1]);
    }
  }

  /** The first forced scan of f, and the entries around it. */
  lemma {:induction false} FirstNone(f: seq<Work>) returns (p: nat)
    requires Count(f, WqNone) > 0 && forall a | 0 <= a < |f| :: f[a].WqIgn1? || f[a].WqNone?
    ensures p < |f| && f[p].WqNone? && (forall a | 0 <= a < p :: f[a].WqIgn1?)
    ensures Count(f[p + 1..], WqNone) == Count(f, WqNone) - 1
  {
    CountHead(f, WqNone);
    if f[0].WqNone? {
      p := 0;
    } else {
      var p0 := FirstNone(f[1..]);
      p := p0 + 1;
      assert f[1..][p0 + 1..] == f[p + 1..];
    }
  }

  lemma {:induction false} CountAt(s: seq<Work>, a: nat, b: nat, x: Work)
    requires a <= b < |s| && s[a] == s[b] == x
    ensures Count(s, x) >= if a == b then 1 else 2
  {
    var n := |s| - 1;
    if b < n {
      CountAt(s[..n], a, b, x);
    } else if a < n {
      CountAt(s[..n], a, a, x);
    }
  }

  lemma CountBoth(h: seq<Work>, l: seq<Work>, m: seq<Work>, x: Work)
    requires x in l && x in m
    ensures Count(h + l + m, x) >= 2
  {
    var a :| 0 <= a < |l| && l[a] == x;
    var b :| 0 <= b < |m| && m[b] == x;
    CountAt(h + l + m, |h| + a, |h| + |l| + b, x);
  }

  /** Runs to the first forced scan of f at the front of the queue, and performs it. */
  lemma ForceFirst(cfg: Config, s: State, f: seq<Work>, l: seq<Work>, dt: nat)
    returns (es: seq<Event>, g: seq<Work>, due: seq<Work>)
    requires s.pc.Poll? && s.q == f + l
    requires Count(f, WqNone) > 0 && forall a | 0 <= a < |f| :: f[a].WqIgn1? || f[a].WqNone?
    ensures var s' := Run(cfg, s, es);
      && Still(s.(now := s.now + dt), s') && s'.q == g + l + due
      && Count(g, WqNone) == Count(f, WqNone) - 1
      && (forall a | 0 <= a < |g| :: g[a].WqIgn1? || g[a].WqNone?)
      && (Due(s.rig.items[0], s.now + dt) ==> WqTimed(0) in due)
  {
    hide Run, Received, Due, Count;
    var p := FirstNone(f);
    var es1 := Drain(cfg, s, p);
    var s1 := Run(cfg, s, es1);
    BackOfIgnitions(cfg.engine, s.q[..p]);
    assert s1.q == f[p..] + l;
    var es2: seq<Event>;
    es2, due := Force(cfg, s1, dt);
    g := f[p + 1..];
    assert s1.q[1..] == g + l;
    es := es1 + es2;
    RunConcat(cfg, s, es1, es2);
  }

  /** With two unknown bytes among cs, the worker can be made to queue sensor 0 twice. */
  lemma Duplicate(cfg: Config, s: State, cs: seq<byte>) returns (es: seq<Event>)
    requires Initial(cfg, s) && UnknownIn(cfg.engine, cs) >= 2
    ensures Received(Run(cfg, s, es).trace) == cs
    ensures Count(Run(cfg, s, es).q, WqTimed(0)) >= 2 && Run(cfg, s, es).pc.Poll?
  {
    hide Run, Count, Back, UnknownIn;
    var zero: Slot := 0;
    assert s.rig.items[zero] == InitialItem(cfg, zero);
    var es1 := DeliverAll(cfg, s, cs);
    var s1 := Run(cfg, s, es1);
    assert s1.q == Commands(cs) && s1.q[..|cs|] == Commands(cs);
    var es2 := Drain(cfg, s1, |cs|);
    var s2 := Run(cfg, s1, es2);
    BackOfCommands(cfg.engine, cs);
    var f := Back(cfg.engine, Commands(cs));
    assert s2.q == f + [];
    var es3, g, due := ForceFirst(cfg, s2, f, [], 1000);
    var s3 := Run(cfg, s2, es3);
    assert s3.q == g + due;
    var es4, h, due' := ForceFirst(cfg, s3, g, due, 0);
    var s4 := Run(cfg, s3, es4);
    CountBoth(h, due, due', WqTimed(0));
    RunConcat(cfg, s, es1, es2);
    RunConcat(cfg, s, es1 + es2, es3);
    RunConcat(cfg, s, es1 + es2 + es3, es4);
    es := es1 + es2 + es3 + es4;
  }

  /** The commands cs can never, under any schedule, make the scheduler queue an item twice
      exactly when at most one of them is unknown. */
  lemma AtMostOnceExactly(cfg: Config, s: State, cs: seq<byte>)
    requires Initial(cfg, s)
    ensures UnknownIn(cfg.engine, cs) <= 1 <==>
            forall es, i: Slot | Received(Run(cfg, s, es).trace) == cs :: Count(Run(cfg, s, es).q, WqTimed(i)) <= 1
  {
    hide Run, Initial, Received, Unknown, UnknownIn, Count;
    if UnknownIn(cfg.engine, cs) <= 1 {
      forall es, i: Slot | Received(Run(cfg, s, es).trace) == cs ensures Count(Run(cfg, s, es).q, WqTimed(i)) <= 1 {
        UnknownReceived(cfg.engine, Run(cfg, s, es).trace);
        AtMostOnce(cfg, s, es, i);
      }
    } else {
      var es := Duplicate(cfg, s, cs);
    }
  }
}
