/**
 The game state and the three operations that change it: a click on the
 wheel, a guarded purchase of one upgrade, and the passive accrual of one
 animation frame. The state lives in module-level variables in the original
 program; here it is an immutable record and every operation returns a new one.
 */
module Game {
  import opened Catalog

  /** `speed` is the spendable resource; `acceleration` is how much speed
      accrues per second; `items` is the upgrade catalog in display order. */
  datatype GameState = GameState(speed: real, acceleration: real, items: seq<Item>)

  /** The state when the page loads: no speed, no acceleration, nothing owned. */
  function Init(): (s: GameState)
    ensures s.speed == 0.0 && s.acceleration == 0.0
    ensures |s.items| == |InitialItems()|
    ensures forall k :: 0 <= k < |s.items| ==> s.items[k].count == 0
  {
    GameState(0.0, 0.0, InitialItems())
  }

  /** A click on the wheel adds one unit of speed and changes nothing else. */
  function Click(s: GameState): (r: GameState)
    ensures r.speed == s.speed + 1.0
    ensures r.acceleration == s.acceleration && r.items == s.items
  {
    s.(speed := s.speed + 1.0)
  }

  /** The buy button of upgrade `i` is enabled, as the display computes it:
      it is disabled exactly when speed is below the upgrade's price. */
  predicate Enabled(s: GameState, i: nat)
    requires i < |s.items|
  {
    !(s.speed < s.items[i].cost)
  }

  /** Upgrade `i` after one purchase: one more copy, price inflated by 15%. */
  function Bought(it: Item): (r: Item)
    ensures r.count == it.count + 1
    ensures r.cost == it.cost * Inflation
    ensures r.name == it.name && r.description == it.description && r.rate == it.rate
  {
    it.(count := it.count + 1, cost := it.cost * Inflation)
  }

  /** The buy handler of upgrade `i`. When speed covers the current price the
      price is paid, the upgrade's rate is added to acceleration and the
      upgrade is bought; otherwise the whole state is left as it was. */
  function Purchase(s: GameState, i: nat): (r: GameState)
    requires i < |s.items|
    ensures |r.items| == |s.items|
    ensures s.speed >= s.items[i].cost ==>
      && r.speed == s.speed - s.items[i].cost
      && r.acceleration == s.acceleration + s.items[i].rate
      && r.items[i].count == s.items[i].count + 1
      && r.items[i].cost == s.items[i].cost * Inflation
      && r.items[i].name == s.items[i].name
      && r.items[i].description == s.items[i].description
      && r.items[i].rate == s.items[i].rate
    ensures s.speed < s.items[i].cost ==> r == s
    ensures forall j :: 0 <= j < |s.items| && j != i ==> r.items[j] == s.items[j]
  {
    var item := s.items[i];
    if s.speed >= item.cost then
      GameState(s.speed - item.cost, s.acceleration + item.rate, s.items[i := Bought(item)])
    else
      s
  }

  /** The accrual of one animation frame that lasted `dt` seconds. */
  function Advance(s: GameState, dt: real): (r: GameState)
    ensures r.speed - s.speed == s.acceleration * dt
    ensures r.acceleration == s.acceleration && r.items == s.items
  {
    s.(speed := s.speed + s.acceleration * dt)
  }

  /** One animation frame: `time` and `lastTime` are host timestamps in
      milliseconds, so the frame lasted `(time - lastTime) / 1000` seconds. */
  function Frame(s: GameState, lastTime: real, time: real): (r: GameState)
    ensures r.speed == s.speed + s.acceleration * ((time - lastTime) / 1000.0)
    ensures r.acceleration == s.acceleration && r.items == s.items
  {
    Advance(s, (time - lastTime) / 1000.0)
  }

  /** A run of animation frames at the timestamps `times`, the first frame
      measured from `lastTime` and each later one from its predecessor. */
  function Animate(s: GameState, lastTime: real, times: seq<real>): GameState
    decreases |times|
  {
    if |times| == 0 then s
    else Animate(Frame(s, lastTime, times[0]), times[0], times[1..])
  }

  /** The timestamp of the last frame of a run, or `lastTime` if it is empty. */
  function LastTime(lastTime: real, times: seq<real>): real
  {
    if |times| == 0 then lastTime else times[|times| - 1]
  }

  /** The enabled flag the display shows is exactly the purchase guard, and
      exactly the condition under which a purchase changes the state. */
  lemma EnabledIffPurchaseSucceeds(s: GameState, i: nat)
    requires i < |s.items|
    ensures Enabled(s, i) <==> s.speed >= s.items[i].cost
    ensures Enabled(s, i) <==> Purchase(s, i) != s
  {
  }

  /** A purchase never makes speed negative and never lowers a non-negative price. */
  lemma PurchaseKeepsNonNegative(s: GameState, i: nat)
    requires i < |s.items|
    requires s.speed >= 0.0
    requires s.items[i].cost >= 0.0
    ensures Purchase(s, i).speed >= 0.0
    ensures Purchase(s, i).items[i].cost >= s.items[i].cost
  {
  }

  /** Accrual over no time changes nothing. */
  lemma AdvanceZero(s: GameState)
    ensures Advance(s, 0.0) == s
  {
  }

  /** Accrual is additive: two frames of `t1` and `t2` seconds equal one of `t1 + t2`. */
  lemma AdvanceAdditive(s: GameState, t1: real, t2: real)
    ensures Advance(Advance(s, t1), t2) == Advance(s, t1 + t2)
  {
  }

  /** With non-negative acceleration, accrual forward in time never lowers speed,
      so it keeps speed non-negative. */
  lemma AdvanceKeepsNonNegative(s: GameState, dt: real)
    requires s.acceleration >= 0.0 && dt >= 0.0
    ensures Advance(s, dt).speed >= s.speed
    ensures s.speed >= 0.0 ==> Advance(s, dt).speed >= 0.0
  {
  }

  /** The per-frame elapsed times telescope: a run of frames accrues exactly
      what a single frame spanning from the first to the last timestamp would. */
  lemma {:induction false} AnimateTelescopes(s: GameState, lastTime: real, times: seq<real>)
    ensures Animate(s, lastTime, times) == Advance(s, (LastTime(lastTime, times) - lastTime) / 1000.0)
    decreases |times|
  {
    if |times| == 0 {
      AdvanceZero(s);
    } else {
      var t0 := times[0];
      var rest := times[1..];
      var s1 := Frame(s, lastTime, t0);
      AnimateTelescopes(s1, t0, rest);
      assert LastTime(t0, rest) == LastTime(lastTime, times);
      AdvanceAdditive(s, (t0 - lastTime) / 1000.0, (LastTime(t0, rest) - t0) / 1000.0);
      assert (t0 - lastTime) / 1000.0 + (LastTime(t0, rest) - t0) / 1000.0
          == (LastTime(lastTime, times) - lastTime) / 1000.0;
    }
  }
}
