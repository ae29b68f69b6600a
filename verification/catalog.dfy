/**
 The fixed catalog of upgrades a player can buy. Each entry keeps its own
 current price and the number of copies owned; the price and the count are
 the only parts that ever change during a session.
 */
module Catalog {

  /** One purchasable upgrade: `rate` is the acceleration it adds per copy. */
  datatype Item = Item(name: string, description: string, cost: real, rate: real, count: nat)

  /** The factor by which an upgrade's price grows after each purchase (15%). */
  const Inflation: real := 1.15

  /** The five upgrades in display order, as they stand when the game starts. */
  function InitialItems(): (items: seq<Item>)
    ensures |items| == 5
  {
    [ Item("Alloy Wheels",
           "Lightweight rims that reduce drag and boost your top speed.",
           10.0, 0.1, 0),
      Item("Turbo Tires",
           "Grippy performance tires that give extra traction per second.",
           100.0, 2.0, 0),
      Item("Nitro Boost",
           "Injects pure speed into your system for explosive acceleration.",
           1000.0, 50.0, 0),
      Item("Supercharger",
           "Forces more air into your engine for continuous high-speed gains.",
           5000.0, 200.0, 0),
      Item("Rocket Engine",
           "Replaces your motor entirely with jet propulsion—hold on tight!",
           25000.0, 1000.0, 0) ]
  }

  /** Every starting entry is unowned, has a positive price and a positive rate,
      and no two entries share a name. */
  lemma InitialItemsWellFormed()
    ensures forall k :: 0 <= k < |InitialItems()| ==>
      InitialItems()[k].count == 0 && InitialItems()[k].cost > 0.0 && InitialItems()[k].rate > 0.0
    ensures forall j, k :: 0 <= j < k < |InitialItems()| ==> InitialItems()[j].name != InitialItems()[k].name
  {
  }
}
