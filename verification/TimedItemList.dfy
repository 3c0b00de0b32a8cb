/** The scheduler's table and its index (final/timed_item_list, final/timed_item). */
module TimedItems {
  import opened Types

  /** The first entry of the table with action a, or its length. */
  function Find(items: seq<TimedItem>, a: Action): (i: nat)
    ensures i <= |items|
    ensures i < |items| ==> items[i].action == a
    ensures forall j | 0 <= j < i :: items[j].action != a
  {
    if items == [] || items[0].action == a then 0 else 1 + Find(items[1..], a)
  }

  /** The slot of each action in the constructor's table. */
  function SlotOf(a: Action): Slot {
    match a
    case LcMain => 0
    case Lc1 => 1
    case Lc2 => 2
    case Lc3 => 3
    case PtInje => 4
    case PtComb => 5
    case PtFeed => 6
    case Tc1 => 7
    case Tc2 => 8
    case Tc3 => 9
    case Ign2 => 10
    case Ign3 => 11
    case Gitvc => 12
  }

  lemma SlotOfAction(a: Action)
    ensures ACTIONS[SlotOf(a)] == a
    ensures forall i | 0 <= i < TI_COUNT && ACTIONS[i] == a :: i == SlotOf(a)
  {
  }

  /** The table of the 13 named items, in the constructor's order. */
  predicate InTableOrder(items: seq<TimedItem>) {
    |items| == TI_COUNT && forall i | 0 <= i < TI_COUNT :: items[i].action == ACTIONS[i]
  }

  lemma FindIsSlot(items: seq<TimedItem>, a: Action)
    requires InTableOrder(items)
    ensures Find(items, a) == SlotOf(a)
  {
    SlotOfAction(a);
    var s := SlotOf(a);
    assert items[s].action == a;
  }

  /** The table as the list's own constructor leaves it, the firing delays still zero. */
  function FreshItem(i: Slot): TimedItem {
    TimedItem(ACTIONS[i], 0, if i < SENSORS then SENSOR_DELAYS[i] else 0, i < SENSORS, 0, 0)
  }

  class TimedItemList {
    const length: nat
    var actionMap: map<Action, nat>
    const tis: array<TimedItem>

    ghost predicate Valid()
      reads this, tis
    {
      && tis.Length == TI_COUNT
      && InTableOrder(tis[..])
      && (forall a :: a in actionMap && actionMap[a] == SlotOf(a))
    }

    constructor ()
      ensures Valid() && fresh(tis)
      ensures forall i: Slot :: tis[..][i] == FreshItem(i)
    {
      length := TI_COUNT;
      var table := new TimedItem[TI_COUNT](i requires 0 <= i < TI_COUNT => FreshItem(i));
      tis := table;
      actionMap := map[];
      new;
      var i := 0;
      while i < length
        invariant 0 <= i <= length == TI_COUNT
        invariant table == tis && tis.Length == TI_COUNT
        invariant forall j: Slot :: tis[j] == FreshItem(j)
        invariant forall a :: a in actionMap <==> SlotOf(a) < i
        invariant forall a | a in actionMap :: actionMap[a] == SlotOf(a)
      {
        SlotOfAction(tis[i].action);
        actionMap := actionMap[tis[i].action := i];
        forall a ensures a in actionMap <==> SlotOf(a) < i + 1 {
          SlotOfAction(a);
        }
        i := i + 1;
      }
    }

    /** The index agrees with a search of the table by action. */
    method At(a: Action) returns (i: nat)
      requires Valid()
      ensures i == Find(tis[..], a) == SlotOf(a) < TI_COUNT
    {
      FindIsSlot(tis[..], a);
      i := actionMap[a];
    }

    method Enable(ti: Action, now: nat)
      requires Valid()
      modifies tis
      ensures Valid()
      ensures var i := Find(old(tis[..]), ti);
        i < TI_COUNT && tis[..] == old(tis[..])[i := old(tis[i]).(scheduled := now, enabled := true)]
    {
      var i := At(ti);
      tis[i] := tis[i].(scheduled := now, enabled := true);
    }

    method Disable(ti: Action)
      requires Valid()
      modifies tis
      ensures Valid()
      ensures var i := Find(old(tis[..]), ti);
        i < TI_COUNT && tis[..] == old(tis[..])[i := old(tis[i]).(enabled := false)]
    {
      var i := At(ti);
      tis[i] := tis[i].(enabled := false);
    }

    method SetDelay(ti: Action, newDelay: nat)
      requires Valid()
      modifies tis
      ensures Valid()
      ensures var i := Find(old(tis[..]), ti);
        i < TI_COUNT && tis[..] == old(tis[..])[i := old(tis[i]).(timeDelay := newDelay)]
    {
      var i := At(ti);
      tis[i] := tis[i].(timeDelay := newDelay);
    }

    method GetStatus(ti: Action) returns (enabled: bool)
      requires Valid()
      ensures var i := Find(tis[..], ti); i < TI_COUNT && enabled == tis[i].enabled
    {
      var i := At(ti);
      enabled := tis[i].enabled;
    }
  }
}
