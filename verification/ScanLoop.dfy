/** check_ti_list as a whole, and the worker loop when the network thread is quiet. */
module ScanLoop {
  import opened Types
  import opened Controller
  import opened Schedules

  /** The entries check_ti_list adds for the table entries from i on, in table order. */
  function DueFrom(items: Table, t: nat, i: nat): seq<Work>
    requires i <= TI_COUNT
    decreases TI_COUNT - i
  {
    if i == TI_COUNT then [] else
    (if Due(items[i], t) then [WqTimed(i)] else []) + DueFrom(items, t, i + 1)
  }

  lemma DueStep(items: Table, t: nat, i: nat)
    requires i < TI_COUNT
    ensures DueFrom(items, t, i) == (if Due(items[i], t) then [WqTimed(i)] else []) + DueFrom(items, t, i + 1)
  {
  }

  /** Exactly the enabled, overdue items from i on are in d, in table order. */
  ghost predicate ExactlyDue(d: seq<Work>, items: Table, t: nat, i: nat) {
    && (forall j: Slot :: WqTimed(j) in d <==> j >= i && Due(items[j], t))
    && (forall a | 0 <= a < |d| :: d[a].WqTimed?)
    && (forall a, b | 0 <= a < b < |d| :: d[a].i < d[b].i)
  }

  lemma DuePrepend(d: seq<Work>, items: Table, t: nat, i: nat)
    requires i < TI_COUNT && ExactlyDue(d, items, t, i + 1)
    ensures ExactlyDue((if Due(items[i], t) then [WqTimed(i)] else []) + d, items, t, i)
  {
    hide Due;
    forall a | 0 <= a < |d| ensures d[a].i > i {
      assert d[a] == WqTimed(d[a].i) && d[a] in d;
    }
  }

  /** Exactly the enabled, overdue items are added, once each and in table order. */
  lemma {:induction false} DueFromExact(items: Table, t: nat, i: nat)
    requires i <= TI_COUNT
    ensures ExactlyDue(DueFrom(items, t, i), items, t, i)
    decreases TI_COUNT - i
  {
    if i < TI_COUNT {
      DueStep(items, t, i);
      hide DueFrom, ExactlyDue, Due;
      DueFromExact(items, t, i + 1);
      DuePrepend(DueFrom(items, t, i + 1), items, t, i);
    }
  }

  /** The state once a running scan has finished undisturbed. */
  function Settle(s: State): State
    decreases if s.pc.Scan? then TI_COUNT - s.pc.i else 0
  {
    match s.pc
    case Poll => s
    case Scan(i, t) => Settle(ScanEntry(s, i, t))
  }

  lemma SettlePoll(s: State)
    requires s.pc.Poll?
    ensures Settle(s) == s
  {
  }

  lemma SettleStep(s: State)
    requires s.pc.Scan?
    ensures Settle(s) == Settle(ScanEntry(s, s.pc.i, s.pc.t))
  {
    hide ScanEntry;
  }

  /** The thirteen steps of an undisturbed scan add up to one pass of check_ti_list. */
  lemma {:induction false} SettleIsScan(s: State)
    requires s.pc.Scan?
    ensures Settle(s) == s.(pc := Poll, q := s.q + DueFrom(s.rig.items, s.pc.t, s.pc.i))
    decreases TI_COUNT - s.pc.i
  {
    var i, t := s.pc.i, s.pc.t;
    var s1 := ScanEntry(s, i, t);
    SettleStep(s);
    DueStep(s.rig.items, t, i);
    if i + 1 < TI_COUNT {
      hide Settle, DueFrom, Due;
      SettleIsScan(s1);
      assert s1.q + DueFrom(s.rig.items, t, i + 1) == s.q + DueFrom(s.rig.items, t, i);
    } else {
      SettlePoll(s1);
      assert DueFrom(s.rig.items, t, i + 1) == [];
      hide Settle, DueFrom, Due;
    }
  }

  /** Iterations of the worker's loop while the network thread stands still. */
  function Iterate(cfg: Config, s: State, inputs: seq<Input>): State {
    if inputs == [] then s else
    Settle(WorkerStep(cfg, Iterate(cfg, s, inputs[..|inputs| - 1]), inputs[|inputs| - 1]))
  }

  lemma {:induction false} SettleRuns(cfg: Config, s: State) returns (es: seq<Event>)
    ensures Run(cfg, s, es) == Settle(s)
    ensures forall e | e in es :: e == Take(0)
    decreases if s.pc.Scan? then TI_COUNT - s.pc.i else 0
  {
    if s.pc.Poll? {
      es := [];
      RunNothing(cfg, s);
    } else {
      hide Run;
      var s1 := ScanEntry(s, s.pc.i, s.pc.t);
      var rest := SettleRuns(cfg, s1);
      RunSnoc(cfg, s, [], Take(0));
      RunNothing(cfg, s);
      assert [] + [Take(0)] == [Take(0)];
      RunConcat(cfg, s, [Take(0)], rest);
      es := [Take(0)] + rest;
    }
  }

  /** So whatever holds in every run holds after any number of iterations. */
  lemma {:induction false} IterateRuns(cfg: Config, s: State, inputs: seq<Input>) returns (es: seq<Event>)
    ensures Run(cfg, s, es) == Iterate(cfg, s, inputs)
  {
    if inputs == [] {
      es := [];
      RunNothing(cfg, s);
    } else {
      hide Run, Settle, WorkerStep;
      var es0 := IterateRuns(cfg, s, inputs[..|inputs| - 1]);
      var e := Worker(inputs[|inputs| - 1]);
      RunSnoc(cfg, s, es0, e);
      var rest := SettleRuns(cfg, Run(cfg, s, es0 + [e]));
      RunConcat(cfg, s, es0 + [e], rest);
      es := es0 + [e] + rest;
    }
  }
}
