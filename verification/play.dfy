/**
 Whole play sessions: any interleaving of wheel clicks, purchases and
 animation frames, starting from the page-load state. The lemmas here state
 what every reachable state satisfies.
 */
module Play {
  import opened Powers
  import opened Catalog
  import opened Game

  /** One event the game reacts to: a click on the wheel, a click on the buy
      button of upgrade `index`, or an animation frame lasting `dt` seconds. */
  datatype Action = Spin | Buy(index: nat) | Tick(dt: real)

  /** The buy buttons exist only for the catalog's entries, and frame
      timestamps never go backwards, so a frame never lasts a negative time. */
  predicate Possible(a: Action)
  {
    && (a.Buy? ==> a.index < |InitialItems()|)
    && (a.Tick? ==> a.dt >= 0.0)
  }

  /** The state after reacting to one event. */
  function Step(s: GameState, a: Action): (r: GameState)
    requires a.Buy? ==> a.index < |s.items|
    ensures |r.items| == |s.items|
  {
    match a
    case Spin => Click(s)
    case Buy(i) => Purchase(s, i)
    case Tick(dt) => Advance(s, dt)
  }

  /** The state after reacting to the events `acts` in order. */
  function Run(s: GameState, acts: seq<Action>): (r: GameState)
    requires |s.items| == |InitialItems()|
    requires forall k :: 0 <= k < |acts| ==> Possible(acts[k])
    ensures |r.items| == |s.items|
    decreases |acts|
  {
    if |acts| == 0 then s
    else
      assert Possible(acts[0]);
      Run(Step(s, acts[0]), acts[1..])
  }

  /** The acceleration that the owned upgrades account for: the sum over the
      catalog of each upgrade's rate times the number of copies owned. */
  function Accrual(items: seq<Item>): real
    decreases |items|
  {
    if |items| == 0 then 0.0
    else items[0].rate * (items[0].count as real) + Accrual(items[1..])
  }

  /** Replacing one upgrade changes the accrual by the difference of that
      upgrade's contributions. */
  lemma {:induction false} AccrualUpdate(items: seq<Item>, i: nat, it: Item)
    requires i < |items|
    ensures Accrual(items[i := it])
         == Accrual(items) - items[i].rate * (items[i].count as real) + it.rate * (it.count as real)
    decreases |items|
  {
    if i == 0 {
      assert items[i := it][1..] == items[1..];
    } else {
      assert items[i := it][1..] == items[1..][i - 1 := it];
      AccrualUpdate(items[1..], i - 1, it);
    }
  }

  /** No upgrade with a negative rate means no negative accrual. */
  lemma {:induction false} AccrualNonNegative(items: seq<Item>)
    requires forall k :: 0 <= k < |items| ==> items[k].rate >= 0.0
    ensures Accrual(items) >= 0.0
    decreases |items|
  {
    if |items| > 0 {
      AccrualNonNegative(items[1..]);
      assert items[0].rate * (items[0].count as real) >= 0.0;
    }
  }

  /** An upgrade that has been bought `count` times since the game started from
      the catalog entry `orig`: same identity and rate, and a price of the
      starting price times `1.15^count`. */
  predicate Tracks(it: Item, orig: Item)
  {
    && it.name == orig.name
    && it.description == orig.description
    && it.rate == orig.rate
    && it.cost == orig.cost * Pow(Inflation, it.count)
  }

  /** The invariant of every reachable state: the catalog keeps its five
      entries, each priced by how often it was bought, acceleration is exactly
      what the owned upgrades account for, and speed is non-negative. */
  predicate Consistent(s: GameState)
  {
    && |s.items| == |InitialItems()|
    && (forall k :: 0 <= k < |s.items| ==> Tracks(s.items[k], InitialItems()[k]))
    && s.acceleration == Accrual(s.items)
    && s.speed >= 0.0
  }

  /** The page-load state is consistent. */
  lemma InitConsistent()
    ensures Consistent(Init())
  {
  }

  /** A click keeps the state consistent. */
  lemma ClickConsistent(s: GameState)
    requires Consistent(s)
    ensures Consistent(Click(s))
  {
  }

  /** A frame that does not go back in time keeps the state consistent. */
  lemma AdvanceConsistent(s: GameState, dt: real)
    requires Consistent(s)
    requires dt >= 0.0
    ensures Consistent(Advance(s, dt))
  {
    InitialItemsWellFormed();
    AccrualNonNegative(s.items);
    AdvanceKeepsNonNegative(s, dt);
  }

  /** Buying one more copy of an upgrade raises the accrual by its rate. */
  lemma AccrualAfterPurchase(items: seq<Item>, i: nat)
    requires i < |items|
    ensures Accrual(items[i := Bought(items[i])]) == Accrual(items) + items[i].rate
  {
    var it := items[i];
    AccrualUpdate(items, i, Bought(it));
    assert it.rate * ((it.count + 1) as real) == it.rate * (it.count as real) + it.rate;
  }

  /** Buying one more copy keeps the price in step with the number owned. */
  lemma BoughtTracks(it: Item, orig: Item)
    requires Tracks(it, orig)
    ensures Tracks(Bought(it), orig)
  {
  }

  /** A purchase, whether it goes through or not, keeps the state consistent. */
  lemma PurchaseConsistent(s: GameState, i: nat)
    requires Consistent(s)
    requires i < |s.items|
    ensures Consistent(Purchase(s, i))
  {
    if s.speed >= s.items[i].cost {
      var r := Purchase(s, i);
      assert r.items == s.items[i := Bought(s.items[i])];
      AccrualAfterPurchase(s.items, i);
      BoughtTracks(s.items[i], InitialItems()[i]);
      assert forall k :: 0 <= k < |r.items| ==> Tracks(r.items[k], InitialItems()[k]);
    }
  }

  /** Every possible event keeps the state consistent. */
  lemma StepConsistent(s: GameState, a: Action)
    requires Consistent(s)
    requires Possible(a)
    ensures Consistent(Step(s, a))
  {
    match a
    case Spin => ClickConsistent(s);
    case Tick(dt) => AdvanceConsistent(s, dt);
    case Buy(i) => PurchaseConsistent(s, i);
  }

  /** What the invariant tells a player about a state: speed and acceleration
      are never negative, and no price has fallen below its starting price. */
  lemma ConsistentObservable(s: GameState)
    requires Consistent(s)
    ensures s.speed >= 0.0 && s.acceleration >= 0.0
    ensures forall k :: 0 <= k < |s.items| ==> s.items[k].cost >= InitialItems()[k].cost
  {
    InitialItemsWellFormed();
    AccrualNonNegative(s.items);
    forall k | 0 <= k < |s.items|
      ensures s.items[k].cost >= InitialItems()[k].cost
    {
      assert Tracks(s.items[k], InitialItems()[k]);
      PowAtLeastOne(Inflation, s.items[k].count);
      assert InitialItems()[k].cost * Pow(Inflation, s.items[k].count) >= InitialItems()[k].cost * 1.0;
    }
  }

  /** Every session that starts at page load and reacts only to possible events
      ends in a consistent state. */
  lemma {:induction false} RunConsistent(s: GameState, acts: seq<Action>)
    requires Consistent(s)
    requires forall k :: 0 <= k < |acts| ==> Possible(acts[k])
    ensures Consistent(Run(s, acts))
    decreases |acts|
  {
    if |acts| > 0 {
      StepConsistent(s, acts[0]);
      RunConsistent(Step(s, acts[0]), acts[1..]);
    }
  }

  /** Every state reachable from page load through possible events is
      consistent; in particular speed and acceleration are never negative and
      no price has fallen below its starting price. */
  lemma Reachable(acts: seq<Action>)
    requires forall k :: 0 <= k < |acts| ==> Possible(acts[k])
    ensures Consistent(Run(Init(), acts))
    ensures Run(Init(), acts).speed >= 0.0 && Run(Init(), acts).acceleration >= 0.0
    ensures forall k :: 0 <= k < |Run(Init(), acts).items| ==>
      Run(Init(), acts).items[k].cost >= InitialItems()[k].cost
  {
    InitConsistent();
    RunConsistent(Init(), acts);
    ConsistentObservable(Run(Init(), acts));
  }

  /** The opening of a game: ten clicks on the wheel, then a purchase of the
      first upgrade, which costs exactly ten. */
  lemma OpeningScenario()
    ensures var s := Run(Init(), seq(10, _ => Spin) + [Buy(0)]);
      && s.speed == 0.0
      && s.acceleration == 0.1
      && s.items[0].count == 1
      && s.items[0].cost == 11.5
      && s.items[1..] == InitialItems()[1..]
  {
    var acts := seq(10, _ => Spin) + [Buy(0)];
    var s := Init();
    var k := 0;
    while k < 10
      invariant 0 <= k <= 10
      invariant s == Init().(speed := k as real)
      invariant Run(Init(), acts) == Run(s, acts[k..])
    {
      assert acts[k..][1..] == acts[k + 1..];
      s := Click(s);
      k := k + 1;
    }
    assert acts[10..] == [Buy(0)];
  }
}
