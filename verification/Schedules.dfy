/** Building blocks of runs: delivering a byte, and letting the worker take an entry. */
module Schedules {
  import opened Types
  import opened Controller

  /** The network thread waits on its socket. */
  predicate Listening(s: State) { s.net.pc.NetPoll? && s.net.qn == [NqRecv] }

  /** Byte c comes in, and the read is re-armed. */
  function Delivery(c: byte): seq<Event> {
    [Network(Byte(c), 0), Network(Nothing, 0), Network(Nothing, 0)]
  }

  lemma Delivered(cfg: Config, s: State, c: byte)
    requires Listening(s)
    ensures var s' := Run(cfg, s, Delivery(c));
      && Listening(s') && s'.q == s.q + [WqProcess(c)] && s'.trace == s.trace + [Arrived(c)]
      && s'.now == s.now && s'.pc == s.pc && s'.rig == s.rig && s'.tele == s.tele
  {
    hide Run, WorkerStep;
    var e1, e2 := Network(Byte(c), 0), Network(Nothing, 0);
    RunSnoc(cfg, s, [], e1);
    RunSnoc(cfg, s, [e1], e2);
    RunSnoc(cfg, s, [e1, e2], e2);
    assert [] + [e1] == [e1] && [e1] + [e2] == [e1, e2] && [e1, e2] + [e2] == Delivery(c);
    RunNothing(cfg, s);
  }

  lemma RunNothing(cfg: Config, s: State)
    ensures Run(cfg, s, []) == s
  {
  }

  /** The worker visits the head of the queue after dt microseconds. */
  function Take(dt: nat): Event { Worker(Input(dt, 0, Takes)) }

  lemma Taken(cfg: Config, s: State, dt: nat)
    requires s.pc.Poll? && s.q != []
    ensures Run(cfg, s, [Take(dt)]) == Visit(cfg, Popped(s), s.q[0], Input(dt, 0, Takes))
  {
    hide Visit;
    RunSnoc(cfg, s, [], Take(dt));
    RunNothing(cfg, s);
    assert [] + [Take(dt)] == [Take(dt)];
  }
}
