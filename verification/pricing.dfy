/**
 Repeated purchases of one upgrade with nothing in between: the price grows
 geometrically, and a run of `n` purchases goes through exactly when the
 starting speed covers the sum of the `n` successive prices.
 */
module Pricing {
  import opened Powers
  import opened Catalog
  import opened Game

  /** Pressing the buy button of upgrade `i` `n` times in a row. */
  function PurchaseTimes(s: GameState, i: nat, n: nat): (r: GameState)
    requires i < |s.items|
    ensures |r.items| == |s.items|
  {
    if n == 0 then s else Purchase(PurchaseTimes(s, i, n - 1), i)
  }

  /** The total paid for `n` purchases starting at price `cost`:
      `cost * (1 + 1.15 + ... + 1.15^(n-1))`. */
  function SeriesCost(cost: real, n: nat): real
  {
    if n == 0 then 0.0 else SeriesCost(cost, n - 1) + cost * Pow(Inflation, n - 1)
  }

  /** The series grows with the number of purchases when the price is non-negative. */
  lemma {:induction false} SeriesCostMonotone(cost: real, n: nat)
    requires cost >= 0.0
    requires n > 0
    ensures SeriesCost(cost, n - 1) <= SeriesCost(cost, n)
  {
    PowPositive(Inflation, n - 1);
    assert cost * Pow(Inflation, n - 1) >= 0.0;
  }

  /** One more multiple of `x`. */
  lemma MultipleStep(n: nat, x: real)
    ensures (n as real) * x + x == ((n + 1) as real) * x
  {
  }

  /** Pressing one buy button repeatedly touches no other upgrade and keeps
      the pressed upgrade's name and description. */
  lemma {:induction false} RepeatedPurchaseFrame(s: GameState, i: nat, n: nat)
    requires i < |s.items|
    ensures PurchaseTimes(s, i, n).items[i].name == s.items[i].name
    ensures PurchaseTimes(s, i, n).items[i].description == s.items[i].description
    ensures forall j :: 0 <= j < |s.items| && j != i ==> PurchaseTimes(s, i, n).items[j] == s.items[j]
    decreases n
  {
    if n > 0 {
      RepeatedPurchaseFrame(s, i, n - 1);
    }
  }

  /** Pressing one buy button `n` times keeps that upgrade's rate and raises
      never lowers its count nor raises it by more than `n`. */
  lemma {:induction false} RepeatedPurchaseCount(s: GameState, i: nat, n: nat)
    requires i < |s.items|
    ensures PurchaseTimes(s, i, n).items[i].rate == s.items[i].rate
    ensures s.items[i].count <= PurchaseTimes(s, i, n).items[i].count <= s.items[i].count + n
    decreases n
  {
    if n > 0 {
      RepeatedPurchaseCount(s, i, n - 1);
      var p := PurchaseTimes(s, i, n - 1);
      if p.speed >= p.items[i].cost {
        assert PurchaseTimes(s, i, n).items[i].count == p.items[i].count + 1;
      } else {
        assert PurchaseTimes(s, i, n) == p;
      }
    }
  }

  /** When the starting speed covers the `n` successive prices, every press
      buys: the count rises by `n`, the price becomes the starting price times
      `1.15^n`, and speed falls by the series of prices. */
  lemma {:induction false} RepeatedPurchaseAffordable(s: GameState, i: nat, n: nat)
    requires i < |s.items|
    requires s.items[i].cost >= 0.0
    requires s.speed >= SeriesCost(s.items[i].cost, n)
    ensures PurchaseTimes(s, i, n).items[i].count == s.items[i].count + n
    ensures PurchaseTimes(s, i, n).items[i].cost == s.items[i].cost * Pow(Inflation, n)
    ensures PurchaseTimes(s, i, n).speed == s.speed - SeriesCost(s.items[i].cost, n)
    decreases n
  {
    if n > 0 {
      var c := s.items[i].cost;
      SeriesCostMonotone(c, n);
      RepeatedPurchaseAffordable(s, i, n - 1);
      var p := PurchaseTimes(s, i, n - 1);
      var r := Purchase(p, i);
      assert PurchaseTimes(s, i, n) == r;
      assert p.speed >= p.items[i].cost;
      assert r.items[i].cost == (c * Pow(Inflation, n - 1)) * Inflation;
      assert Pow(Inflation, n) == Inflation * Pow(Inflation, n - 1);
    }
  }

  /** Whatever the speed, acceleration rises by the upgrade's rate once for
      every copy the presses actually bought. */
  lemma {:induction false} RepeatedPurchaseAccelerates(s: GameState, i: nat, n: nat)
    requires i < |s.items|
    ensures PurchaseTimes(s, i, n).acceleration
         == s.acceleration + ((PurchaseTimes(s, i, n).items[i].count - s.items[i].count) as real) * s.items[i].rate
    decreases n
  {
    RepeatedPurchaseCount(s, i, n);
    if n > 0 {
      RepeatedPurchaseAccelerates(s, i, n - 1);
      RepeatedPurchaseCount(s, i, n - 1);
      var rate := s.items[i].rate;
      var p := PurchaseTimes(s, i, n - 1);
      var q := PurchaseTimes(s, i, n);
      var d := p.items[i].count - s.items[i].count;
      var dq := q.items[i].count - s.items[i].count;
      if p.speed >= p.items[i].cost {
        assert q.acceleration == p.acceleration + rate && dq == d + 1;
        MultipleStep(d, rate);
        assert (dq as real) == ((d + 1) as real);
      } else {
        assert q == p;
      }
    }
  }

  /** When the starting speed falls short of the `n` successive prices, some
      press is refused and the count rises by less than `n`. */
  lemma {:induction false} RepeatedPurchaseUnaffordable(s: GameState, i: nat, n: nat)
    requires i < |s.items|
    requires s.speed >= 0.0 && s.items[i].cost >= 0.0
    requires s.speed < SeriesCost(s.items[i].cost, n)
    ensures PurchaseTimes(s, i, n).items[i].count < s.items[i].count + n
    decreases n
  {
    var c := s.items[i].cost;
    var p := PurchaseTimes(s, i, n - 1);
    RepeatedPurchaseCount(s, i, n - 1);
    if s.speed >= SeriesCost(c, n - 1) {
      RepeatedPurchaseAffordable(s, i, n - 1);
      assert p.speed < p.items[i].cost;
      assert PurchaseTimes(s, i, n) == p;
    } else {
      RepeatedPurchaseUnaffordable(s, i, n - 1);
      if p.speed >= p.items[i].cost {
        assert PurchaseTimes(s, i, n).items[i].count == p.items[i].count + 1;
      } else {
        assert PurchaseTimes(s, i, n) == p;
      }
    }
  }

  /** After `n` presses of one buy button from a state with non-negative speed,
      all `n` purchases went through exactly when the starting speed covered the
      sum of the `n` successive prices. */
  lemma RepeatedPurchase(s: GameState, i: nat, n: nat)
    requires i < |s.items|
    requires s.speed >= 0.0 && s.items[i].cost >= 0.0
    ensures PurchaseTimes(s, i, n).items[i].count == s.items[i].count + n
        <==> s.speed >= SeriesCost(s.items[i].cost, n)
    ensures s.speed >= SeriesCost(s.items[i].cost, n) ==>
      PurchaseTimes(s, i, n).acceleration == s.acceleration + (n as real) * s.items[i].rate
  {
    RepeatedPurchaseAccelerates(s, i, n);
    if s.speed >= SeriesCost(s.items[i].cost, n) {
      RepeatedPurchaseAffordable(s, i, n);
    } else {
      RepeatedPurchaseUnaffordable(s, i, n);
    }
  }
}
