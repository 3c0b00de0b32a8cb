/** Dumping a ring to its channel's log file (final/main_buff_logger). */
module BuffLogger {
  import opened Types
  import opened CircularBuffers

  /** The send code of each channel: the action value of its item, in table order. */
  const SEND_CODES: seq<nat> := [9, 10, 11, 12, 14, 15, 13, 16, 17, 18]

  /** The number of each sensor's action, which is its send code too. */
  function Code(a: Action): nat {
    match a
    case LcMain => 9
    case Lc1 => 10
    case Lc2 => 11
    case Lc3 => 12
    case PtFeed => 13
    case PtInje => 14
    case PtComb => 15
    case Tc1 => 16
    case Tc2 => 17
    case Tc3 => 18
    case Ign2 => 20
    case Ign3 => 21
    case Gitvc => 22
  }

  /** The log files, named after their sensors. */
  datatype LogFile =
    | LcMainLog | Lc1Log | Lc2Log | Lc3Log | PtFeedLog | PtInjeLog | PtCombLog | Tc1Log | Tc2Log | Tc3Log

  /** The file a send code is written to. */
  function FileOf(code: nat): Option<LogFile> {
    if code == 9 then Some(LcMainLog)
    else if code == 10 then Some(Lc1Log)
    else if code == 11 then Some(Lc2Log)
    else if code == 12 then Some(Lc3Log)
    else if code == 15 then Some(PtCombLog)
    else if code == 13 then Some(PtFeedLog)
    else if code == 14 then Some(PtInjeLog)
    else if code == 16 then Some(Tc1Log)
    else if code == 17 then Some(Tc2Log)
    else if code == 18 then Some(Tc3Log)
    else None
  }

  /** The channel of each file. */
  function ChannelOf(f: LogFile): nat {
    match f
    case LcMainLog => 0
    case Lc1Log => 1
    case Lc2Log => 2
    case Lc3Log => 3
    case PtInjeLog => 4
    case PtCombLog => 5
    case PtFeedLog => 6
    case Tc1Log => 7
    case Tc2Log => 8
    case Tc3Log => 9
  }

  /** Routing by send code: every channel's records go to the file of its own sensor, and a
      code that is no channel's has no file. */
  lemma Routing(code: nat, i: nat)
    requires i < SENSORS
    ensures SEND_CODES[i] == Code(ACTIONS[i])
    ensures FileOf(code).Some? && ChannelOf(FileOf(code).value) == i <==> code == SEND_CODES[i]
  {
    assert code in SEND_CODES ==> FileOf(code).Some?;
  }

  /** write_buff: opens the file of code and writes n bytes of the ring from offset to it.
      logs holds the files by channel; canOpen tells whether open succeeds. */
  method WriteBuff(buff: CircularBuffer, code: nat, n: nat, offset: nat, logs: seq<Sink>, canOpen: bool)
    returns (ret: int)
    requires buff.Valid() && |logs| == SENSORS
    modifies logs
    ensures !canOpen || code !in SEND_CODES ==> ret == -1 && forall l | l in logs :: unchanged(l)
    ensures forall i | 0 <= i < SENSORS && code == SEND_CODES[i] && canOpen ::
              var o := WriteData(buff.Model(), n, offset, old(logs[i].results));
              && ret == o.ret && logs[i].out == old(logs[i].out) + o.emitted && logs[i].results == o.rest
              && forall l | l in logs && l != logs[i] :: unchanged(l)
  {
    hide WriteData;
    forall i | 0 <= i < SENSORS ensures FileOf(code).Some? && ChannelOf(FileOf(code).value) == i <==> code == SEND_CODES[i] {
      Routing(code, i);
    }
    match FileOf(code)
    case None => return -1;
    case Some(f) =>
      if !canOpen {
        return -1;
      }
      ret := buff.WriteTo(logs[ChannelOf(f)], n, offset);
  }
}
