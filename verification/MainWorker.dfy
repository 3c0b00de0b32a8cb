/** The worker thread: poll, visit, repeat (final/main_worker). */
module MainWorkers {
  import opened Types
  import opened Controller
  import opened ScanLoop
  import opened SafeQueues
  import opened Visitors

  class MainWorker {
    const qw: SafeQueue<Work>
    const visitor: Visitor

    ghost predicate Valid()
      reads visitor`streams, visitor`frames, visitor.tiList, visitor.tiList.tis
    {
      visitor.Valid() && qw == visitor.qw
    }

    constructor (qw: SafeQueue<Work>, visitor: Visitor)
      requires visitor.Valid() && visitor.qw == qw
      ensures Valid() && this.visitor == visitor
    {
      this.qw, this.visitor := qw, visitor;
    }

    /** One turn of the loop, with the clock, the ADC and the log file as it finds them. */
    method Turn(t: nat, adc: nat, canOpen: bool) returns (ghost input: Input)
      requires Valid() && t >= visitor.now
      modifies visitor, visitor.gpio, visitor.tiList.tis, visitor.buffers, set b | b in visitor.buffers :: b.data,
               visitor.qn, visitor.qw, visitor.logs
      ensures Valid() && old(visitor.now) <= visitor.now <= t
      ensures visitor.Model() == Settle(WorkerStep(visitor.cfg, old(visitor.Model()), input))
      ensures input.dt == t - old(visitor.now) && input.adc == adc
      ensures canOpen && old(visitor.LogsProgress()) ==> input.disk.Takes?
      ensures old(visitor.LogsProgress()) ==> visitor.LogsProgress()
    {
      hide Settle, Controller.Visit, Visitor.Chans, Visitor.RigModel, Visitor.LogsProgress;
      ghost var s0 := visitor.Model();
      var item := qw.Poll();
      ghost var disk := visitor.Visit(item, t, adc, canOpen);
      input := Input(t - s0.now, adc, disk);
    }

    lemma NowOf()
      requires Valid()
      ensures visitor.Model().now == visitor.now
    {
    }

    /** The endless loop, up to any number of turns: it does what the transition system's
        worker does with these clock and ADC readings, and no log write fails while the files
        open and their writes make progress. */
    method WorkerMethod(clock: seq<nat>, adcs: seq<nat>, opens: seq<bool>) returns (ghost inputs: seq<Input>)
      requires Valid() && |clock| == |adcs| == |opens|
      requires forall k | 0 <= k < |clock| :: clock[k] >= visitor.now
      requires forall j, k | 0 <= j < k < |clock| :: clock[j] <= clock[k]
      modifies visitor, visitor.gpio, visitor.tiList.tis, visitor.buffers, set b | b in visitor.buffers :: b.data,
               visitor.qn, visitor.qw, visitor.logs
      ensures Valid() && |inputs| == |clock|
      ensures visitor.Model() == Iterate(visitor.cfg, old(visitor.Model()), inputs)
      ensures forall k | 0 <= k < |clock| ::
        && inputs[k].adc == adcs[k]
        && inputs[k].dt == Minus(clock[k], Iterate(visitor.cfg, old(visitor.Model()), inputs[..k]).now)
        && ((forall l | 0 <= l < |clock| :: opens[l]) && old(visitor.LogsProgress()) ==> inputs[k].disk.Takes?)
    {
      hide Settle, WorkerStep, Visitor.Model, Visitor.Valid, Visitor.LogsProgress;
      ghost var s0 := visitor.Model();
      inputs := [];
      var k := 0;
      while k < |clock|
        invariant 0 <= k <= |clock| && |inputs| == k && Valid()
        invariant forall l | k <= l < |clock| :: clock[l] >= visitor.now
        invariant visitor.Model() == Iterate(visitor.cfg, s0, inputs)
        invariant old(visitor.LogsProgress()) ==> visitor.LogsProgress()
        invariant forall l | 0 <= l < k ::
          && inputs[l].adc == adcs[l]
          && inputs[l].dt == Minus(clock[l], Iterate(visitor.cfg, s0, inputs[..l]).now)
          && ((forall m | 0 <= m < |clock| :: opens[m]) && old(visitor.LogsProgress()) ==> inputs[l].disk.Takes?)
      {
        NowOf();
        ghost var input := Turn(clock[k], adcs[k], opens[k]);
        assert (inputs + [input])[..k] == inputs;
        assert forall l | 0 <= l < k :: (inputs + [input])[..l] == inputs[..l];
        inputs := inputs + [input];
        k := k + 1;
      }
    }
  }
}
