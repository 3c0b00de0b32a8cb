/** Luna's valve interlocks, for every run: any commands, stale or duplicate entries. */
module Interlock {
  import opened Types
  import opened Controller

  /** The level a handler of the schedule left on the pin. */
  predicate Scheduled(l: Level, high: bool) { l == Level(high, Schedule) }

  predicate Safe(r: Rig) {
    && (r.burnOn ==> r.items[IGN3].enabled)
    && (Scheduled(r.pins.Get(MAIN_VALVE), HIGH) ==> r.items[IGN3].enabled)
    && (r.pins.Get(IGN_START) == Level(HIGH, Ignition) ==> r.items[IGN2].enabled || r.items[IGN3].enabled)
    && (Scheduled(r.pins.Get(GITVC_VALVE), LOW) ==> r.burnOn)
  }

  lemma FireSafe(cfg: Config, r: Rig, i: Slot, t: nat)
    requires cfg.engine.Luna? && Safe(r) && i >= SENSORS
    ensures Safe(Fire(cfg, r, i, t))
  {
  }

  lemma IgniteSafe(cfg: Config, r: Rig, t: nat)
    requires Safe(r)
    ensures Safe(Ignite(cfg, r, t))
  {
  }

  lemma SampleSafe(cfg: Config, s: State, i: Slot, t: nat, input: Input)
    requires Safe(s.rig) && i < SENSORS
    ensures Safe(Sample(cfg, s, i, t, input).rig)
  {
    hide ChannelAfter, SendFrame, Average;
    assert Safe(CutOff(s.rig));
  }

  lemma CommandSafe(engine: Engine, r: Rig, c: byte)
    requires Safe(r)
    ensures Safe(r.(pins := PinsAfter(engine, r.pins, c)))
  {
  }

  lemma TimedSafe(cfg: Config, s: State, i: Slot, t: nat, input: Input)
    requires cfg.engine.Luna? && Safe(s.rig)
    ensures Safe(Timed(cfg, s, i, t, input).rig)
  {
    hide Sample, Fire, FireObs;
    var s1 := Touched(s, i, t);
    assert Safe(s1.rig);
    hide Safe;
    if i < SENSORS {
      SampleSafe(cfg, s1, i, t, input);
    } else {
      FireSafe(cfg, s1.rig, i, t);
    }
  }

  lemma VisitSafe(cfg: Config, s: State, x: Work, input: Input)
    requires cfg.engine.Luna? && Safe(s.rig)
    ensures Safe(Visit(cfg, s, x, input).rig)
  {
    hide Safe, Timed, PinsAfter, Ignite;
    match x
    case WqProcess(c) => CommandSafe(cfg.engine, s.rig, c);
    case WqNone =>
    case WqIgn1 => IgniteSafe(cfg, s.rig, s.now + input.dt);
    case WqTimed(i) => TimedSafe(cfg, s, i, s.now + input.dt, input);
  }

  lemma StepSafe(cfg: Config, s: State, e: Event)
    requires cfg.engine.Luna? && Safe(s.rig)
    ensures Safe(Step(cfg, s, e).rig)
  {
    hide Safe, Visit, NetStep;
    if e.Worker? && s.pc.Poll? {
      if s.q == [] {
        VisitSafe(cfg, s, WqNone, e.input);
      } else {
        VisitSafe(cfg, Popped(s), s.q[0], e.input);
      }
    }
  }

  lemma {:induction false} RunSafe(cfg: Config, s: State, es: seq<Event>)
    requires cfg.engine.Luna? && Initial(cfg, s)
    ensures Safe(Run(cfg, s, es).rig)
  {
    if es != [] {
      hide Safe, Step;
      RunSafe(cfg, s, es[..|es| - 1]);
      StepSafe(cfg, Run(cfg, s, es[..|es| - 1]), es[|es| - 1]);
    }
  }
}
