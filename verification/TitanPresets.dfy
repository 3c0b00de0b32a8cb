/** Titan's valve presets: which commands keep the valves in one of them. */
module TitanPresets {
  import opened Types
  import opened Controller
  import opened FiringSequence
  import opened Schedules

  /** The main, vent and tank pins form one of the four presets. */
  predicate InPreset(p: Pins) {
    var main, vent, tank := p.Get(MAIN_VALVE).high, p.Get(VENT).high, p.Get(TANK).high;
    || (main == HIGH && vent == HIGH && tank == HIGH)  // leak check
    || (main == HIGH && vent == HIGH && tank == LOW)   // fill
    || (main == LOW && vent == HIGH && tank == HIGH)   // fill idle
    || (main == LOW && vent == LOW && tank == HIGH)    // default
  }

  /** The commands that can drive the valves out of the presets. */
  const BREAKING: set<byte> := {UNSET_VALVE, SET_VALVE, UNSET_IGNITION, SET_WATER}

  const PRESETS: set<byte> := {LEAK_CHECK, FILL, FILL_IDLE, DEF}

  /** Only bytes of cs were received. */
  predicate Uses(trace: seq<Obs>, cs: set<byte>) {
    forall a | 0 <= a < |trace| && trace[a].Arrived? :: trace[a].c in cs
  }

  predicate Kept(s: State) {
    && InPreset(s.rig.pins)
    && (forall a | 0 <= a < |s.q| && s.q[a].WqProcess? :: s.q[a].c !in BREAKING)
  }

  lemma CommandKept(p: Pins, c: byte)
    requires InPreset(p) && c !in BREAKING
    ensures InPreset(PinsAfter(Titan, p, c))
  {
  }

  lemma FireKept(cfg: Config, r: Rig, i: Slot, t: nat)
    requires cfg.engine.Titan? && i >= SENSORS && InPreset(r.pins)
    ensures InPreset(Fire(cfg, r, i, t).pins)
  {
  }

  lemma IgniteKept(cfg: Config, r: Rig, t: nat)
    requires InPreset(r.pins)
    ensures InPreset(Ignite(cfg, r, t).pins)
  {
  }

  lemma SampleKept(cfg: Config, s: State, i: Slot, t: nat, input: Input)
    requires InPreset(s.rig.pins) && i < SENSORS
    ensures InPreset(Sample(cfg, s, i, t, input).rig.pins)
  {
    hide ChannelAfter, SendFrame, AverageAfter, Trips;
    assert InPreset(CutOff(s.rig).pins);
  }

  lemma TimedKept(cfg: Config, s: State, i: Slot, t: nat, input: Input)
    requires cfg.engine.Titan? && Kept(s)
    ensures Kept(Timed(cfg, s, i, t, input))
  {
    hide InPreset, Sample, Fire;
    var s1 := Touched(s, i, t);
    if i < SENSORS {
      SampleKept(cfg, s1, i, t, input);
      SampleKeeps(cfg, s1, i, t, input);
    } else {
      FireKept(cfg, s1.rig, i, t);
    }
  }

  lemma VisitKept(cfg: Config, s: State, x: Work, input: Input)
    requires cfg.engine.Titan? && Kept(s) && (x.WqProcess? ==> x.c !in BREAKING)
    ensures Kept(Visit(cfg, s, x, input))
  {
    hide InPreset, Timed, PinsAfter, Ignite, Known;
    match x
    case WqProcess(c) => CommandKept(s.rig.pins, c);
    case WqNone =>
    case WqIgn1 => IgniteKept(cfg, s.rig, s.now + input.dt);
    case WqTimed(i) => TimedKept(cfg, s, i, s.now + input.dt, input);
  }

  lemma StepKept(cfg: Config, s: State, e: Event)
    requires cfg.engine.Titan? && Kept(s)
    requires e.Network? && e.recv.Byte? && Reads(s.net) ==> e.recv.c !in BREAKING
    ensures Kept(Step(cfg, s, e))
  {
    hide InPreset, Visit, NetStep;
    if e.Worker? && s.pc.Poll? {
      if s.q == [] {
        VisitKept(cfg, s, WqNone, e.input);
      } else {
        VisitKept(cfg, Popped(s), s.q[0], e.input);
      }
    }
  }

  lemma ArrivalUsed(cfg: Config, s: State, e: Event, cs: set<byte>)
    requires Uses(Step(cfg, s, e).trace, cs)
    ensures Uses(s.trace, cs)
    ensures e.Network? && e.recv.Byte? && Reads(s.net) ==> e.recv.c in cs
  {
    hide WorkerStep, NetStep;
    StepTrace(cfg, s, e);
    var s' := Step(cfg, s, e);
    if e.Network? && e.recv.Byte? && Reads(s.net) {
      assert s'.trace[|s.trace|] == Arrived(e.recv.c);
    }
    forall a | 0 <= a < |s.trace| && s.trace[a].Arrived? ensures s.trace[a].c in cs {
      assert s'.trace[a] == s.trace[a];
    }
  }

  lemma {:induction false} RunKept(cfg: Config, s: State, es: seq<Event>, cs: set<byte>)
    requires cfg.engine.Titan? && Initial(cfg, s) && cs !! BREAKING
    requires Uses(Run(cfg, s, es).trace, cs)
    ensures Kept(Run(cfg, s, es))
  {
    if es != [] {
      hide Step, Kept, Uses;
      var s1, e := Run(cfg, s, es[..|es| - 1]), es[|es| - 1];
      ArrivalUsed(cfg, s1, e, cs);
      RunKept(cfg, s, es[..|es| - 1], cs);
      StepKept(cfg, s1, e);
    }
  }

  // ---------------------------------------------------------------- the breaking commands

  /** The preset a breaking command leaves no preset from. */
  function Before(c: byte): byte { if c == SET_VALVE then DEF else FILL }

  function Breaking(c: byte): seq<Event> {
    Delivery(Before(c)) + [Take(0)] + Delivery(c) + [Take(0)]
  }

  /** One preset, then one breaking command. */
  lemma Breaks(cfg: Config, s: State, c: byte)
    requires cfg.engine.Titan? && Initial(cfg, s) && c in BREAKING
    ensures var s' := Run(cfg, s, Breaking(c)); !InPreset(s'.rig.pins) && Uses(s'.trace, {Before(c), c})
  {
    hide Run, Delivery;
    var b := Before(c);
    assert Listening(s) by { ListeningAtStart(cfg, s); }
    Delivered(cfg, s, b);
    var s1 := Run(cfg, s, Delivery(b));
    Taken(cfg, s1, 0);
    var s2 := Run(cfg, s1, [Take(0)]);
    Delivered(cfg, s2, c);
    var s3 := Run(cfg, s2, Delivery(c));
    Taken(cfg, s3, 0);
    RunConcat(cfg, s, Delivery(b), [Take(0)]);
    RunConcat(cfg, s, Delivery(b) + [Take(0)], Delivery(c));
    RunConcat(cfg, s, Delivery(b) + [Take(0)] + Delivery(c), [Take(0)]);
  }

  lemma ListeningAtStart(cfg: Config, s: State)
    requires Initial(cfg, s)
    ensures Listening(s)
  {
  }

  /** With the presets and any other commands cs at hand, the valves are in one of the four
      presets in all reachable states exactly when cs has no breaking command. */
  lemma PresetClosure(cfg: Config, s: State, cs: set<byte>)
    requires cfg.engine.Titan? && Initial(cfg, s) && PRESETS <= cs
    ensures cs !! BREAKING <==>
            forall es | Uses(Run(cfg, s, es).trace, cs) :: InPreset(Run(cfg, s, es).rig.pins)
  {
    hide Run, Initial, InPreset;
    if cs !! BREAKING {
      forall es | Uses(Run(cfg, s, es).trace, cs) ensures InPreset(Run(cfg, s, es).rig.pins) {
        RunKept(cfg, s, es, cs);
      }
    } else {
      var c :| c in cs && c in BREAKING;
      Breaks(cfg, s, c);
      assert Before(c) in PRESETS;
      assert Uses(Run(cfg, s, Breaking(c)).trace, cs);
    }
  }

  /** In those runs the tank is open only in the fill preset. */
  lemma TankOpenOnlyInFill(cfg: Config, s: State, es: seq<Event>, cs: set<byte>)
    requires cfg.engine.Titan? && Initial(cfg, s) && cs !! BREAKING
    requires Uses(Run(cfg, s, es).trace, cs)
    requires Run(cfg, s, es).rig.pins.Get(TANK).high == LOW
    ensures var p := Run(cfg, s, es).rig.pins; p.Get(MAIN_VALVE).high == HIGH && p.Get(VENT).high == HIGH
  {
    hide Run, Initial;
    RunKept(cfg, s, es, cs);
  }
}
