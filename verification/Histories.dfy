/** What the history alone tells about the rig: who drives which pin to what level, whether the
    burn is on, and how the timed items are set. Every number stands here as the source has it. */
module Histories {
  import opened Types
  import opened Controller
  import opened Scheduling
  import opened FiringSequence

  // ---------------------------------------------------------------- pins

  /** The level command byte c drives the pin to, if it drives it. */
  function CommandDrives(engine: Engine, c: byte, pin: Pin): Option<bool> {
    match pin
    case P1_11 => // main valve
      if c == 5 then Some(true)
      else if c == 4 || c == 6 then Some(false)
      else if engine.Titan? && (c == 23 || c == 24) then Some(true)
      else if engine.Titan? && (c == 25 || c == 26) then Some(false)
      else None
    case P1_13 => // Luna's water valve, Titan's vent
      if c == 19 then Some(engine.Luna?)
      else if c == 20 then Some(engine.Titan?)
      else if engine.Titan? && 23 <= c <= 25 then Some(true)
      else if engine.Titan? && c == 26 then Some(false)
      else None
    case P1_15 => // igniter
      if c == 7 then Some(true) else if c == 6 then Some(false) else None
    case P1_16 => // Luna's GITVC valve, Titan's tank, both open when low
      if engine.Luna? && c == 21 then Some(false)
      else if engine.Luna? && c == 22 then Some(true)
      else if engine.Titan? && (c == 23 || c == 25 || c == 26) then Some(true)
      else if engine.Titan? && c == 24 then Some(false)
      else None
  }

  /** The level ign2 drives the pin to: Luna opens the main valve, Titan closes main valve and
      tank and opens the vent. */
  function Fire2Drives(engine: Engine, pin: Pin): Option<bool> {
    match pin
    case P1_11 => Some(engine.Luna?)
    case P1_13 => if engine.Titan? then Some(false) else None
    case P1_15 => None
    case P1_16 => if engine.Titan? then Some(true) else None
  }

  /** The level ign3 drives the pin to: the igniter goes off; Luna closes everything. */
  function Fire3Drives(engine: Engine, pin: Pin): Option<bool> {
    match pin
    case P1_11 => if engine.Luna? then Some(false) else None
    case P1_13 => if engine.Luna? then Some(false) else None
    case P1_15 => Some(false)
    case P1_16 => if engine.Luna? then Some(true) else None
  }

  function Via(high: Option<bool>, via: Writer): Option<Level> {
    match high
    case None => None
    case Some(h) => Some(Level(h, via))
  }

  /** The level, with its writer, that a history entry leaves on the pin, if it drives it. */
  function Drives(cfg: Config, o: Obs, pin: Pin): Option<Level> {
    match o
    case Commanded(c) => Via(CommandDrives(cfg.engine, c, pin), Command)
    case Ignited(_) => if pin == P1_15 && cfg.ignitionOn then Some(Level(true, Ignition)) else None
    case Fired2(_) => Via(Fire2Drives(cfg.engine, pin), Schedule)
    case Fired3(_) => Via(Fire3Drives(cfg.engine, pin), Schedule)
    case Opened(_, _, _) => if pin == P1_16 then Some(Level(false, Schedule)) else None
    case Closed(_) => if pin == P1_16 then Some(Level(true, Schedule)) else None
    case Sampled(_, _, _, tripped) => if tripped && pin != P1_13 then Some(Level(pin == P1_16, Cutoff)) else None
    case _ => None
  }

  /** The pin's level by its last driver, or as the initialisation left it. */
  function LevelBy(cfg: Config, trace: seq<Obs>, pin: Pin): Level {
    if trace == [] then Level(pin == P1_16, Boot) else
    match Drives(cfg, trace[|trace| - 1], pin)
    case Some(l) => l
    case None => LevelBy(cfg, trace[..|trace| - 1], pin)
  }

  predicate PinsTold(cfg: Config, s: State) {
    forall pin: Pin :: s.rig.pins.Get(pin) == LevelBy(cfg, s.trace, pin)
  }

  /** p' is p after an entry o. */
  predicate Driven(cfg: Config, p: Pins, p': Pins, o: Obs) {
    forall pin: Pin :: p'.Get(pin) == match Drives(cfg, o, pin) case Some(l) => l case None => p.Get(pin)
  }

  lemma PinsPush(cfg: Config, s: State, s': State, o: Obs)
    requires PinsTold(cfg, s) && Driven(cfg, s.rig.pins, s'.rig.pins, o) && s'.trace == s.trace + [o]
    ensures PinsTold(cfg, s')
  {
    hide Drives;
    assert (s.trace + [o])[..|s.trace|] == s.trace;
  }

  lemma CommandDriven(cfg: Config, p: Pins, c: byte)
    ensures Driven(cfg, p, PinsAfter(cfg.engine, p, c), Commanded(c))
  {
  }

  lemma IgniteDriven(cfg: Config, r: Rig, t: nat)
    ensures Driven(cfg, r.pins, Ignite(cfg, r, t).pins, Ignited(t))
  {
  }

  lemma LunaFire2Driven(cfg: Config, r: Rig, t: nat)
    requires cfg.engine.Luna?
    ensures Driven(cfg, r.pins, LunaFire2(cfg, r, t).pins, Fired2(t))
  {
  }

  lemma LunaFire3Driven(cfg: Config, r: Rig, t: nat)
    requires cfg.engine.Luna?
    ensures Driven(cfg, r.pins, LunaFire3(r).pins, Fired3(t))
  {
  }

  lemma TitanFiresDriven(cfg: Config, r: Rig, t: nat)
    requires cfg.engine.Titan?
    ensures Driven(cfg, r.pins, TitanFire2(r, t).pins, Fired2(t))
    ensures Driven(cfg, r.pins, TitanFire3(r).pins, Fired3(t))
  {
  }

  lemma PulseDriven(cfg: Config, r: Rig, t: nat)
    requires cfg.engine.Luna?
    ensures Driven(cfg, r.pins, LunaPulse(cfg, r, t).pins, FireObs(cfg, r, GITVC, t))
  {
  }

  lemma NoPulseDriven(cfg: Config, p: Pins, t: nat)
    ensures Driven(cfg, p, p, NoPulse(t))
  {
  }

  lemma FireDriven(cfg: Config, r: Rig, i: Slot, t: nat)
    requires i >= SENSORS
    ensures Driven(cfg, r.pins, Fire(cfg, r, i, t).pins, FireObs(cfg, r, i, t))
  {
    hide Driven, LunaFire2, LunaFire3, LunaPulse, TitanFire2, TitanFire3, Opens;
    if cfg.engine.Titan? {
      TitanFiresDriven(cfg, r, t);
      NoPulseDriven(cfg, r.pins, t);
    } else if i == IGN2 {
      LunaFire2Driven(cfg, r, t);
    } else if i == IGN3 {
      LunaFire3Driven(cfg, r, t);
    } else {
      PulseDriven(cfg, r, t);
    }
  }

  lemma SampleDriven(cfg: Config, s: State, i: Slot, t: nat, input: Input)
    requires i < SENSORS
    ensures var s' := Sample(cfg, s, i, t, input);
      && s'.trace == s.trace + [Sampled(i, t, input.adc, s'.trace[|s'.trace| - 1].tripped)]
      && Driven(cfg, s.rig.pins, s'.rig.pins, s'.trace[|s.trace|])
  {
    hide ChannelAfter, SendFrame, Trips, AverageAfter;
  }

  lemma VisitPins(cfg: Config, s: State, x: Work, input: Input)
    requires PinsTold(cfg, s)
    ensures PinsTold(cfg, Visit(cfg, s, x, input))
  {
    hide PinsTold, Driven, Sample, PinsAfter, FollowUp, Fire, FireObs, Ignite;
    var t := s.now + input.dt;
    var s' := Visit(cfg, s, x, input);
    match x
    case WqProcess(c) =>
      CommandDriven(cfg, s.rig.pins, c);
      PinsPush(cfg, s, s', Commanded(c));
    case WqNone =>
      PollDriven(cfg, s.rig.pins, t);
      PinsPush(cfg, s, s', Polled(t));
    case WqIgn1 =>
      IgniteDriven(cfg, s.rig, t);
      PinsPush(cfg, s, s', Ignited(t));
    case WqTimed(i) =>
      var s1 := Touched(s, i, t);
      if i < SENSORS {
        SampleDriven(cfg, s1, i, t, input);
        PinsPush(cfg, s, s', s'.trace[|s.trace|]);
      } else {
        FireDriven(cfg, s1.rig, i, t);
        PinsPush(cfg, s, s', FireObs(cfg, s1.rig, i, t));
      }
  }

  lemma PollDriven(cfg: Config, p: Pins, t: nat)
    ensures Driven(cfg, p, p, Polled(t))
  {
  }

  lemma StepPins(cfg: Config, s: State, e: Event)
    requires PinsTold(cfg, s)
    ensures PinsTold(cfg, Step(cfg, s, e))
  {
    hide PinsTold, Visit, NetStep, Driven;
    match e
    case Network(recv, _) =>
      if Reads(s.net) && recv.Byte? {
        ArrivalDriven(cfg, s.rig.pins, recv.c);
        PinsPush(cfg, s, Step(cfg, s, e), Arrived(recv.c));
      } else {
        SamePins(cfg, s, Step(cfg, s, e));
      }
    case Worker(input) =>
      if s.pc.Scan? {
        SamePins(cfg, s, Step(cfg, s, e));
      } else if s.q == [] {
        VisitPins(cfg, s, WqNone, input);
      } else {
        SamePins(cfg, s, Popped(s));
        VisitPins(cfg, Popped(s), s.q[0], input);
      }
  }

  lemma ArrivalDriven(cfg: Config, p: Pins, c: byte)
    ensures Driven(cfg, p, p, Arrived(c))
  {
  }

  lemma SamePins(cfg: Config, s: State, s': State)
    requires PinsTold(cfg, s) && s'.rig.pins == s.rig.pins && s'.trace == s.trace
    ensures PinsTold(cfg, s')
  {
  }

  lemma {:induction false} RunPins(cfg: Config, s: State, es: seq<Event>)
    requires Initial(cfg, s)
    ensures PinsTold(cfg, Run(cfg, s, es))
  {
    if es != [] {
      hide PinsTold, Step, Initial;
      RunPins(cfg, s, es[..|es| - 1]);
      StepPins(cfg, Run(cfg, s, es[..|es| - 1]), es[|es| - 1]);
    }
  }

  lemma {:induction false} LastDrives(cfg: Config, trace: seq<Obs>, pin: Pin, b: nat)
    requires b < |trace| && Drives(cfg, trace[b], pin).Some?
    requires forall a | b < a < |trace| :: Drives(cfg, trace[a], pin).None?
    ensures LevelBy(cfg, trace, pin) == Drives(cfg, trace[b], pin).value
  {
    hide Drives;
    if b < |trace| - 1 {
      LastDrives(cfg, trace[..|trace| - 1], pin, b);
    }
  }

  lemma {:induction false} NeverDriven(cfg: Config, trace: seq<Obs>, pin: Pin)
    requires forall a | 0 <= a < |trace| :: Drives(cfg, trace[a], pin).None?
    ensures LevelBy(cfg, trace, pin) == Level(pin == P1_16, Boot)
  {
    hide Drives;
    if trace != [] {
      NeverDriven(cfg, trace[..|trace| - 1], pin);
    }
  }

  /** In every run of either engine each pin has the level that its last driver in the history
      left, entry b, or that of the initialisation if it has none. */
  lemma PinsFollowHistory(cfg: Config, s: State, es: seq<Event>, pin: Pin, b: nat)
    requires Initial(cfg, s)
    ensures var s' := Run(cfg, s, es);
      && (b < |s'.trace| && Drives(cfg, s'.trace[b], pin).Some?
          && (forall a | b < a < |s'.trace| :: Drives(cfg, s'.trace[a], pin).None?)
          ==> s'.rig.pins.Get(pin) == Drives(cfg, s'.trace[b], pin).value)
      && ((forall a | 0 <= a < |s'.trace| :: Drives(cfg, s'.trace[a], pin).None?)
          ==> s'.rig.pins.Get(pin) == Level(pin == P1_16, Boot))
  {
    hide Run, Initial, Drives, LevelBy;
    RunPins(cfg, s, es);
    var trace := Run(cfg, s, es).trace;
    if forall a | 0 <= a < |trace| :: Drives(cfg, trace[a], pin).None? {
      NeverDriven(cfg, trace, pin);
    } else if b < |trace| && Drives(cfg, trace[b], pin).Some? && forall a | b < a < |trace| :: Drives(cfg, trace[a], pin).None? {
      LastDrives(cfg, trace, pin, b);
    }
  }

  // ---------------------------------------------------------------- the burn

  /** The burn is on: an ign2 with no later ign3 or cut-off. */
  predicate BurnOn(trace: seq<Obs>) {
    if trace == [] then false else
    match trace[|trace| - 1]
    case Fired2(_) => true
    case Fired3(_) => false
    case Sampled(_, _, _, tripped) => !tripped && BurnOn(trace[..|trace| - 1])
    case _ => BurnOn(trace[..|trace| - 1])
  }

  /** When ign2 last ran, 0 if never. */
  function BurnBegan(trace: seq<Obs>): nat {
    if trace == [] then 0 else
    match trace[|trace| - 1]
    case Fired2(t) => t
    case _ => BurnBegan(trace[..|trace| - 1])
  }

  /** The number of the next pulse: after the last opening, or out of reach after an ign3. */
  function NextPulse(trace: seq<Obs>): nat {
    if trace == [] then 0 else
    match trace[|trace| - 1]
    case Opened(k, _, _) => k + 1
    case Fired3(_) => 2_147_483_647
    case _ => NextPulse(trace[..|trace| - 1])
  }

  /** An ign2 after this history starts the pulse train. */
  predicate StartsPulses(cfg: Config, trace: seq<Obs>) { cfg.useGitvc && NextPulse(trace) < |cfg.gitvcTimes| }

  /** A pulse is on: the last opening was neither closed on time nor followed by an ign2 that
      starts the train anew. */
  predicate PulseOn(cfg: Config, trace: seq<Obs>) {
    if trace == [] then false else
    var before := trace[..|trace| - 1];
    match trace[|trace| - 1]
    case Opened(_, _, _) => true
    case Closed(_) => false
    case Fired2(_) => !StartsPulses(cfg, before) && PulseOn(cfg, before)
    case _ => PulseOn(cfg, before)
  }

  predicate BurnTold(cfg: Config, r: Rig, trace: seq<Obs>) {
    && r.burnOn == BurnOn(trace) && r.startTimeNitr == BurnBegan(trace)
    && (cfg.engine.Luna? ==> r.gitvcOn == PulseOn(cfg, trace) && r.gitvcCount == NextPulse(trace))
  }

  lemma BurnPush(cfg: Config, trace: seq<Obs>, o: Obs)
    ensures BurnOn(trace + [o]) == (o.Fired2? || (BurnOn(trace) && !o.Fired3? && !(o.Sampled? && o.tripped)))
    ensures BurnBegan(trace + [o]) == if o.Fired2? then o.t else BurnBegan(trace)
    ensures NextPulse(trace + [o]) ==
            if o.Opened? then o.k + 1 else if o.Fired3? then 2_147_483_647 else NextPulse(trace)
    ensures PulseOn(cfg, trace + [o]) ==
            (o.Opened? || (PulseOn(cfg, trace) && !o.Closed? && !(o.Fired2? && StartsPulses(cfg, trace))))
  {
    assert (trace + [o])[..|trace|] == trace;
  }

  lemma FireBurn(cfg: Config, r: Rig, i: Slot, t: nat, trace: seq<Obs>)
    requires i >= SENSORS && BurnTold(cfg, r, trace)
    ensures BurnTold(cfg, Fire(cfg, r, i, t), trace + [FireObs(cfg, r, i, t)])
  {
    hide BurnOn, BurnBegan, NextPulse, PulseOn;
    BurnPush(cfg, trace, FireObs(cfg, r, i, t));
  }

  /** Entries without effect on the burn. */
  predicate Idle(o: Obs) { o.Arrived? || o.Commanded? || o.Ignited? || o.Polled? || (o.Sampled? && !o.tripped) }

  lemma IdleBurn(cfg: Config, r: Rig, r': Rig, trace: seq<Obs>, o: Obs)
    requires BurnTold(cfg, r, trace) && Idle(o)
    requires r'.burnOn == r.burnOn && r'.startTimeNitr == r.startTimeNitr && r'.gitvcOn == r.gitvcOn && r'.gitvcCount == r.gitvcCount
    ensures BurnTold(cfg, r', trace + [o])
  {
    hide BurnOn, BurnBegan, NextPulse, PulseOn;
    BurnPush(cfg, trace, o);
  }

  lemma SampleBurn(cfg: Config, s: State, i: Slot, t: nat, input: Input)
    requires i < SENSORS && BurnTold(cfg, s.rig, s.trace)
    ensures var s' := Sample(cfg, s, i, t, input); BurnTold(cfg, s'.rig, s'.trace)
  {
    hide ChannelAfter, SendFrame, Trips, AverageAfter, BurnOn, BurnBegan, NextPulse, PulseOn;
    BurnPush(cfg, s.trace, Sampled(i, t, input.adc, true));
    BurnPush(cfg, s.trace, Sampled(i, t, input.adc, false));
  }

  lemma VisitBurn(cfg: Config, s: State, x: Work, input: Input)
    requires BurnTold(cfg, s.rig, s.trace)
    ensures var s' := Visit(cfg, s, x, input); BurnTold(cfg, s'.rig, s'.trace)
  {
    hide Sample, PinsAfter, FollowUp, Fire, FireObs, BurnOn, BurnBegan, NextPulse, PulseOn;
    var t := s.now + input.dt;
    var s' := Visit(cfg, s, x, input);
    match x
    case WqProcess(c) => IdleBurn(cfg, s.rig, s'.rig, s.trace, Commanded(c));
    case WqNone => IdleBurn(cfg, s.rig, s'.rig, s.trace, Polled(t));
    case WqIgn1 => IdleBurn(cfg, s.rig, s'.rig, s.trace, Ignited(t));
    case WqTimed(i) =>
      var s1 := Touched(s, i, t);
      assert BurnTold(cfg, s1.rig, s1.trace);
      if i < SENSORS {
        SampleBurn(cfg, s1, i, t, input);
      } else {
        FireBurn(cfg, s1.rig, i, t, s.trace);
      }
  }

  lemma StepBurn(cfg: Config, s: State, e: Event)
    requires BurnTold(cfg, s.rig, s.trace)
    ensures var s' := Step(cfg, s, e); BurnTold(cfg, s'.rig, s'.trace)
  {
    hide BurnTold, Visit, NetStep;
    match e
    case Network(recv, _) =>
      if Reads(s.net) && recv.Byte? {
        IdleBurn(cfg, s.rig, s.rig, s.trace, Arrived(recv.c));
      }
    case Worker(input) =>
      if s.pc.Poll? && s.q == [] {
        VisitBurn(cfg, s, WqNone, input);
      } else if s.pc.Poll? {
        VisitBurn(cfg, Popped(s), s.q[0], input);
      }
  }

  /** In every run the burn's fields, and on Luna those of the pulse train, are what the
      history tells. */
  lemma {:induction false} BurnFollowsHistory(cfg: Config, s: State, es: seq<Event>)
    requires Initial(cfg, s)
    ensures BurnTold(cfg, Run(cfg, s, es).rig, Run(cfg, s, es).trace)
  {
    if es != [] {
      hide BurnTold, Step, Initial;
      BurnFollowsHistory(cfg, s, es[..|es| - 1]);
      StepBurn(cfg, Run(cfg, s, es[..|es| - 1]), es[|es| - 1]);
    }
  }
}
