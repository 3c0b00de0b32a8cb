/** The values shared by the two threads: queue items, timed items, pins,
    configuration and command codes. */
module Types {

  newtype byte = b: int | 0 <= b < 256

  /** Telemetry of one channel is sent once more than this many microseconds passed. */
  const SEND_TIME: nat := 500_000
  /** The size in bytes of each sensor's ring. */
  const RING_SIZE: nat := 1_572_864
  const INT_MAX: nat := 0x7FFF_FFFF
  /** Cut-off is armed only this many microseconds after the burn began. */
  const CUTOFF_DELAY: nat := 1_000_000

  // Timed items, in the order of the scheduler's table.
  const TI_COUNT: nat := 13
  const MAX_TIMED_LIST_LEN: nat := 20
  const SENSORS: nat := 10
  const PT_COMB: nat := 5
  const IGN2: nat := 10
  const IGN3: nat := 11
  const GITVC: nat := 12

  type Slot = i: nat | i < TI_COUNT

  /** The actions that name a timed item. */
  datatype Action =
    | LcMain | Lc1 | Lc2 | Lc3 | PtFeed | PtInje | PtComb | Tc1 | Tc2 | Tc3
    | Ign2 | Ign3 | Gitvc

  const ACTIONS: seq<Action> :=
    [LcMain, Lc1, Lc2, Lc3, PtInje, PtComb, PtFeed, Tc1, Tc2, Tc3, Ign2, Ign3, Gitvc]

  /** The microseconds between two samples of each sensor, in table order. */
  const SENSOR_DELAYS: seq<nat> :=
    [500, 1000, 1000, 1000, 1000, 1000, 1000, 20_000, 20_000, 20_000]

  datatype TimedItem = TimedItem(
    action: Action,
    scheduled: nat,
    timeDelay: nat,
    enabled: bool,
    lastSend: nat,
    nbytesLastSend: nat)

  type Table = s: seq<TimedItem> | |s| == TI_COUNT
    witness seq(TI_COUNT, _ => TimedItem(LcMain, 0, 0, false, 0, 0))

  /** One entry of the work queue; a timed entry points into the table. */
  datatype Work = WqNone | WqProcess(c: byte) | WqIgn1 | WqTimed(i: Slot)

  /** An interval [offset, offset + nbytes) of one channel's byte stream. queued and at, the
      time it was handed over, belong to the history only; a queue item does not carry them. */
  datatype Frame = Frame(chan: nat, offset: nat, nbytes: nat, queued: bool, at: nat)

  /** One entry of the network queue. */
  datatype NetItem = NqNone | NqSend(frame: Frame) | NqRecv | NqSendAck

  datatype Engine = Luna | Titan

  datatype Config = Config(
    engine: Engine,
    preigniteUs: nat,
    hotflowUs: nat,
    ignitionOn: bool,
    useGitvc: bool,
    gitvcWaitTime: nat,
    timeBetweenGitvc: nat,
    gitvcTimes: seq<nat>,
    pressureShutoff: bool,
    pressureSlope: real,
    pressureYint: real,
    pressureMin: int,
    pressureMax: int,
    timeout: nat)

  // Command bytes.
  const UNSET_VALVE: byte := 4
  const SET_VALVE: byte := 5
  const UNSET_IGNITION: byte := 6
  const SET_IGNITION: byte := 7
  const IGN_NORMAL: byte := 8
  const SET_WATER: byte := 19
  const UNSET_WATER: byte := 20
  const SET_GITVC: byte := 21
  const UNSET_GITVC: byte := 22
  const LEAK_CHECK: byte := 23
  const FILL: byte := 24
  const FILL_IDLE: byte := 25
  const DEF: byte := 26

  /** A byte is known when the engine's command handler has a case for it. */
  predicate Known(engine: Engine, c: byte) {
    || UNSET_VALVE <= c <= IGN_NORMAL
    || c == SET_WATER || c == UNSET_WATER
    || (engine.Luna? && (c == SET_GITVC || c == UNSET_GITVC))
    || (engine.Titan? && LEAK_CHECK <= c <= DEF)
  }

  // Physical pins of the header. Titan reuses two of Luna's pins.
  datatype Pin = P1_11 | P1_13 | P1_15 | P1_16
  const MAIN_VALVE: Pin := P1_11
  const WATER_VALVE: Pin := P1_13
  const VENT: Pin := P1_13
  const IGN_START: Pin := P1_15
  const GITVC_VALVE: Pin := P1_16
  const TANK: Pin := P1_16

  const HIGH: bool := true
  const LOW: bool := false

  /** Which handler wrote a pin: start-up, a command, visitIgn, a timed item, the cut-off. */
  datatype Writer = Boot | Command | Ignition | Schedule | Cutoff

  datatype Level = Level(high: bool, via: Writer)

  datatype Pins = Pins(p11: Level, p13: Level, p15: Level, p16: Level) {
    function Get(pin: Pin): Level {
      match pin
      case P1_11 => p11
      case P1_13 => p13
      case P1_15 => p15
      case P1_16 => p16
    }

    function Write(pin: Pin, high: bool, via: Writer): Pins {
      match pin
      case P1_11 => this.(p11 := Level(high, via))
      case P1_13 => this.(p13 := Level(high, via))
      case P1_15 => this.(p15 := Level(high, via))
      case P1_16 => this.(p16 := Level(high, via))
    }
  }

  datatype Option<+T> = None | Some(value: T)

  /** Occurrences of x in s. */
  function Count<T(==)>(s: seq<T>, x: T): nat {
    if s == [] then 0 else Count(s[..|s| - 1], x) + if s[|s| - 1] == x then 1 else 0
  }

  lemma {:induction false} CountHead<T>(s: seq<T>, x: T)
    requires s != []
    ensures Count(s, x) == (if s[0] == x then 1 else 0) + Count(s[1..], x)
  {
    if |s| == 1 {
      assert s[1..] == [] && s[..0] == [];
    } else {
      CountHead(s[..|s| - 1], x);
      assert s[..|s| - 1][1..] == s[1..][..|s[1..]| - 1];
    }
  }

  lemma CountPush<T>(s: seq<T>, y: T, x: T)
    ensures Count(s + [y], x) == Count(s, x) + if y == x then 1 else 0
  {
    assert (s + [y])[..|s|] == s;
  }
}
