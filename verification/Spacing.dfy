/** Exactly when a sensor can be sampled again before its delay has passed: when two unknown
    bytes are received. */
module Spacing {
  import opened Types
  import opened Controller
  import opened Scheduling
  import opened Schedules
  import opened ScanLoop
  import opened FiringSequence
  import opened Duplicates
  import opened Preignition

  /** An entry that occurs twice has two places. */
  lemma {:induction false} TwoPlaces(q: seq<Work>, x: Work) returns (a: nat, b: nat)
    requires Count(q, x) >= 2
    ensures a < b < |q| && q[a] == q[b] == x
  {
    var n := |q| - 1;
    if q[n] == x {
      a := OnePlace(q[..n], x);
      b := n;
    } else {
      a, b := TwoPlaces(q[..n], x);
    }
  }

  lemma {:induction false} OnePlace(q: seq<Work>, x: Work) returns (a: nat)
    requires Count(q, x) >= 1
    ensures a < |q| && q[a] == x
  {
    var n := |q| - 1;
    if q[n] == x {
      a := n;
    } else {
      a := OnePlace(q[..n], x);
    }
  }

  /** From s to s' the worker took n entries without delay. */
  predicate Taken0(s: State, s': State, n: nat)
    requires n <= |s.q|
  {
    s'.pc.Poll? && s'.now == s.now && s.q[n..] <= s'.q && s.trace <= s'.trace && Received(s'.trace) == Received(s.trace)
  }

  /** One visit of the head, and the scan it may start, without delay. */
  lemma TakeHead(cfg: Config, s: State) returns (es: seq<Event>)
    requires s.pc.Poll? && s.q != []
    ensures Taken0(s, Run(cfg, s, es), 1)
    ensures s.q[0] == WqTimed(0) ==>
              var trace := Run(cfg, s, es).trace;
              |trace| == |s.trace| + 1 && trace[|s.trace|].Sampled? && trace[|s.trace|].i == 0 && trace[|s.trace|].t == s.now
  {
    hide Run, Received, Visit, DueFrom, Settle, Preignition.LastIgnited;
    Taken(cfg, s, 0);
    var o := VisitFollows(cfg, Popped(s), s.q[0]);
    SensorVisit(cfg, Popped(s));
    ReceivedPush(s.trace, o);
    var s1 := Run(cfg, s, [Take(0)]);
    es := [Take(0)];
    if s1.pc.Scan? {
      SettleIsScan(s1);
      var scan := SettleRuns(cfg, s1);
      RunConcat(cfg, s, [Take(0)], scan);
      es := es + scan;
    }
  }

  lemma SensorVisit(cfg: Config, s: State)
    ensures var trace := Visit(cfg, s, WqTimed(0), Input(0, 0, Takes)).trace;
      |trace| == |s.trace| + 1 && trace[|s.trace|].Sampled? && trace[|s.trace|].i == 0 && trace[|s.trace|].t == s.now
  {
    hide Sample;
    SampleKeeps(cfg, Touched(s, 0, s.now), 0, s.now, Input(0, 0, Takes));
  }

  /** The worker takes entries without delay up to the one at place p, of sensor 0. */
  lemma {:induction false} TakeThrough(cfg: Config, s: State, p: nat) returns (es: seq<Event>)
    requires s.pc.Poll? && p < |s.q| && s.q[p] == WqTimed(0)
    ensures Taken0(s, Run(cfg, s, es), p + 1)
    ensures var trace := Run(cfg, s, es).trace; var n := |trace| - 1;
      n >= |s.trace| && trace[n].Sampled? && trace[n].i == 0 && trace[n].t == s.now
    decreases p
  {
    hide Run, Received;
    var first := TakeHead(cfg, s);
    if p == 0 {
      es := first;
    } else {
      var s1 := Run(cfg, s, first);
      assert s.q[1..][p - 1] == s.q[p] && s.q[1..][p..] == s.q[p + 1..];
      var rest := TakeThrough(cfg, s1, p - 1);
      es := first + rest;
      RunConcat(cfg, s, first, rest);
    }
  }

  /** With two unknown bytes among cs the worker can be made to sample sensor 0 twice at once. */
  lemma SampledTwice(cfg: Config, s: State, cs: seq<byte>) returns (es: seq<Event>)
    requires Initial(cfg, s) && UnknownIn(cfg.engine, cs) >= 2
    ensures Received(Run(cfg, s, es).trace) == cs
    ensures !Spaced(Run(cfg, s, es).trace, Run(cfg, s, es).rig.items)
  {
    hide Run, Initial, Received, UnknownIn, Count;
    var es1 := Duplicate(cfg, s, cs);
    var s1 := Run(cfg, s, es1);
    var a, b := TwoPlaces(s1.q, WqTimed(0));
    var es2 := TakeThrough(cfg, s1, a);
    var s2 := Run(cfg, s1, es2);
    assert s1.q[a + 1..][b - a - 1] == WqTimed(0) && s2.q[b - a - 1] == WqTimed(0);
    var es3 := TakeThrough(cfg, s2, b - a - 1);
    var s3 := Run(cfg, s2, es3);
    var k, l := |s2.trace| - 1, |s3.trace| - 1;
    assert s3.trace[k] == s2.trace[k] && s3.trace[k].t == s3.trace[l].t;
    RunConcat(cfg, s, es1, es2);
    RunConcat(cfg, s, es1 + es2, es3);
    es := es1 + es2 + es3;
  }

  /** The commands cs can never, under any schedule, make two samples of one sensor come within
      its delay exactly when at most one of them is unknown. */
  lemma SpacingExactly(cfg: Config, s: State, cs: seq<byte>)
    requires Initial(cfg, s)
    ensures UnknownIn(cfg.engine, cs) <= 1 <==>
            forall es | Received(Run(cfg, s, es).trace) == cs ::
              Spaced(Run(cfg, s, es).trace, Run(cfg, s, es).rig.items)
  {
    hide Run, Initial, Received, Unknown, UnknownIn, Spaced;
    if UnknownIn(cfg.engine, cs) <= 1 {
      forall es | Received(Run(cfg, s, es).trace) == cs ensures Spaced(Run(cfg, s, es).trace, Run(cfg, s, es).rig.items) {
        UnknownReceived(cfg.engine, Run(cfg, s, es).trace);
        SensorSpacing(cfg, s, es);
      }
    } else {
      var es := SampledTwice(cfg, s, cs);
    }
  }
}
