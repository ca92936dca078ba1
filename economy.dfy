/** The economy of the game: money, click power, passive income, the five
    skill levels and the three repeatable upgrades, with the cost curves and
    the state changes of a click, a skill purchase, an upgrade purchase, a
    clock tick and the refresh of the cached upgrade affordability. */
module Economy {
  import opened Numbers
  import opened Options

  /** What one purchase of an upgrade adds to the economy (the `applyEffect`
      closure of an upgrade configuration). */
  datatype Effect = AddClickPower(amount: real) | AddPassiveIncome(amount: real)
  {
    function ClickGain(): real {
      if AddClickPower? then amount else 0.0
    }

    function PassiveGain(): real {
      if AddPassiveIncome? then amount else 0.0
    }
  }

  /** The fixed part of an upgrade. Name and description are display text. */
  datatype UpgradeConfig = UpgradeConfig(id: string, baseCost: nat, multiplier: PosReal, effect: Effect)

  /** A configuration with its purchase count and the cached flag that says
      whether it was affordable at the last display refresh. */
  datatype Upgrade = Upgrade(config: UpgradeConfig, count: int, lastAffordable: bool)
  {
    function Id(): string {
      config.id
    }
  }

  const UpgradeConfigs: seq<UpgradeConfig> := [
    UpgradeConfig("street_cred", 10, 1.5, AddClickPower(1.0)),
    UpgradeConfig("data_mining", 25, 1.8, AddPassiveIncome(1.0)),
    UpgradeConfig("netrunner", 100, 2.0, AddPassiveIncome(5.0))
  ]

  /** A configuration as the constructor lists it: never bought, not affordable. */
  function NewUpgrade(config: UpgradeConfig): Upgrade {
    Upgrade(config, 0, false)
  }

  /** The whole game state the core works on. `skills` is the JavaScript
      object of levels, keyed `bodyLevel` … `coolLevel`; a save may replace it
      with any object. `lastUpdate` is a clock reading in milliseconds. */
  datatype State = State(
    money: real,
    clickPower: real,
    passiveIncome: real,
    skills: map<string, int>,
    upgrades: seq<Upgrade>,
    lastUpdate: int,
    unlocked: set<string>)

  const InitialSkills: map<string, int> :=
    map["bodyLevel" := 1, "reflexesLevel" := 1, "technicalLevel" := 1,
        "intelligenceLevel" := 1, "coolLevel" := 1]

  function InitialUpgrades(): (ups: seq<Upgrade>)
    ensures |ups| == |UpgradeConfigs|
    ensures forall i :: 0 <= i < |ups| ==> ups[i] == NewUpgrade(UpgradeConfigs[i])
  {
    seq(|UpgradeConfigs|, i requires 0 <= i < |UpgradeConfigs| => NewUpgrade(UpgradeConfigs[i]))
  }

  /** The state the constructor sets up, with the clock reading `now`. */
  function InitialState(now: int): State {
    State(0.0, 1.0, 0.0, InitialSkills, InitialUpgrades(), now, {})
  }

  /** The upgrades are the configured ones, in configuration order. */
  predicate WellFormed(s: State) {
    |s.upgrades| == |UpgradeConfigs| &&
    forall i :: 0 <= i < |s.upgrades| ==> s.upgrades[i].config == UpgradeConfigs[i]
  }

  /** The economy invariant the purchase guards are there to keep. */
  predicate Sane(s: State) {
    s.money >= 0.0 && s.clickPower >= 1.0 && s.passiveIncome >= 0.0
  }

  // ---------------------------------------------------------------------
  // Costs

  const SkillBaseCost: real := 50.0
  const SkillCostMultiplier: PosReal := 1.8

  /** `calculateSkillCost`: floor(50 * 1.8^(level - 1)). */
  function SkillCost(level: int): (cost: int)
    ensures cost >= 0
  {
    ScaledFloor(SkillBaseCost, SkillCostMultiplier, level - 1)
  }

  /** `calculateUpgradeCost`: floor(baseCost * multiplier^count). */
  function UpgradeCost(u: Upgrade): (cost: int)
    ensures cost >= 0
  {
    ScaledFloor(u.config.baseCost as real, u.config.multiplier, u.count)
  }

  lemma SkillCostExamples()
    ensures SkillCost(1) == 50 && SkillCost(2) == 90 && SkillCost(3) == 162
  {
    assert Power(SkillCostMultiplier, 1) == 1.8;
    assert Power(SkillCostMultiplier, 2) == 1.8 * 1.8;
  }

  /** From level 1 on, every level costs strictly more than the one before. */
  lemma SkillCostIncreasing(level: int)
    requires level >= 1
    ensures SkillCost(level) < SkillCost(level + 1)
  {
    ScaledFloorIncreasing(SkillBaseCost, SkillCostMultiplier, level - 1);
  }

  /** For every configured upgrade, each purchase makes the next one strictly dearer. */
  lemma UpgradeCostIncreasing(u: Upgrade)
    requires u.config in UpgradeConfigs && u.count >= 0
    ensures UpgradeCost(u) < UpgradeCost(u.(count := u.count + 1))
  {
    var c := u.config;
    assert c.baseCost as real * (c.multiplier - 1.0) >= 1.0;
    ScaledFloorIncreasing(c.baseCost as real, c.multiplier, u.count);
  }

  // ---------------------------------------------------------------------
  // Player actions

  /** `click`: one hustle adds the click power to the money. */
  function AfterClick(s: State): (r: State)
    ensures r.money == s.money + s.clickPower && r.(money := s.money) == s
  {
    s.(money := s.money + s.clickPower)
  }

  /** The click-power and passive-income gains of one level of a skill, by
      its key in `skills`; a key outside the five gains nothing. */
  function SkillEffect(key: string): (gains: (real, real))
    ensures gains.0 >= 0.0 && gains.1 >= 0.0
    ensures gains.0 + gains.1 > 0.0 <==> key in InitialSkills
  {
    if key == "bodyLevel" then (0.5, 0.0)
    else if key == "reflexesLevel" then (0.0, 0.2)
    else if key == "technicalLevel" then (0.3, 0.1)
    else if key == "intelligenceLevel" then (0.0, 0.3)
    else if key == "coolLevel" then (0.2, 0.2)
    else (0.0, 0.0)
  }

  /** A key with no level behind it prices at NaN, which no money reaches. */
  predicate CanBuySkill(s: State, key: string)
    ensures CanBuySkill(s, key) ==> key in s.skills && s.money >= 0.0
  {
    key in s.skills && s.money >= SkillCost(s.skills[key]) as real
  }

  /** `upgradeSkill(key)` on the economy. */
  function AfterSkillPurchase(s: State, key: string): (r: State)
    ensures !CanBuySkill(s, key) ==> r == s
    ensures s.money >= 0.0 ==> 0.0 <= r.money <= s.money
    ensures r.upgrades == s.upgrades && r.lastUpdate == s.lastUpdate && r.unlocked == s.unlocked
  {
    if CanBuySkill(s, key) then
      var cost := SkillCost(s.skills[key]);
      var (click, passive) := SkillEffect(key);
      s.(money := s.money - cost as real,
         skills := s.skills[key := s.skills[key] + 1],
         clickPower := s.clickPower + click,
         passiveIncome := s.passiveIncome + passive)
    else s
  }

  function ApplyEffect(s: State, e: Effect): (r: State)
    ensures r.clickPower == s.clickPower + e.ClickGain() && r.passiveIncome == s.passiveIncome + e.PassiveGain()
    ensures r.(clickPower := s.clickPower, passiveIncome := s.passiveIncome) == s
  {
    match e
    case AddClickPower(x) => s.(clickPower := s.clickPower + x)
    case AddPassiveIncome(x) => s.(passiveIncome := s.passiveIncome + x)
  }

  predicate CanBuyUpgrade(s: State, i: nat)
    requires i < |s.upgrades|
  {
    s.money >= UpgradeCost(s.upgrades[i]) as real
  }

  /** `purchaseUpgrade(upgrades[i])` on the economy. */
  function AfterUpgradePurchase(s: State, i: nat): (r: State)
    requires i < |s.upgrades|
    ensures !CanBuyUpgrade(s, i) ==> r == s
    ensures |r.upgrades| == |s.upgrades|
    ensures forall j :: 0 <= j < |s.upgrades| ==>
      r.upgrades[j].config == s.upgrades[j].config && r.upgrades[j].count >= s.upgrades[j].count
    ensures r.skills == s.skills && r.lastUpdate == s.lastUpdate && r.unlocked == s.unlocked
  {
    if CanBuyUpgrade(s, i) then
      var u := s.upgrades[i];
      var bought := s.(money := s.money - UpgradeCost(u) as real,
                       upgrades := s.upgrades[i := u.(count := u.count + 1)]);
      ApplyEffect(bought, u.config.effect)
    else s
  }

  /** A clock difference in milliseconds, as seconds. */
  function Seconds(ms: int): real {
    ms as real / 1000.0
  }

  /** The accrual part of the live tick: passive income for the time since
      `lastUpdate`, which is not clamped when the clock went backwards. */
  function AfterAccrual(s: State, now: int): (r: State)
    ensures r.lastUpdate == now && r.(money := s.money, lastUpdate := s.lastUpdate) == s
    ensures r.money == s.money + s.passiveIncome * Seconds(now - s.lastUpdate)
    ensures now >= s.lastUpdate && s.passiveIncome >= 0.0 ==> r.money >= s.money
  {
    var r := s.(money := s.money + s.passiveIncome * Seconds(now - s.lastUpdate), lastUpdate := now);
    assert now >= s.lastUpdate && s.passiveIncome >= 0.0 ==> r.money >= s.money by {
      if now >= s.lastUpdate && s.passiveIncome >= 0.0 {
        MulNonNegative(s.passiveIncome, Seconds(now - s.lastUpdate));
      }
    }
    r
  }

  // ---------------------------------------------------------------------
  // Properties of the actions

  /** An unaffordable skill, or a key with no level, changes nothing. */
  lemma SkillPurchaseNoOp(s: State, key: string)
    requires key !in s.skills || s.money < SkillCost(s.skills[key]) as real
    ensures AfterSkillPurchase(s, key) == s
  {
  }

  /** An affordable skill costs exactly its price at the current level, goes
      up one level and adds its gains once; nothing else moves. */
  lemma SkillPurchaseEffect(s: State, key: string)
    requires key in s.skills && s.money >= SkillCost(s.skills[key]) as real
    ensures var r := AfterSkillPurchase(s, key);
      && r.money == s.money - SkillCost(s.skills[key]) as real
      && r.skills == s.skills[key := s.skills[key] + 1]
      && r.clickPower == s.clickPower + SkillEffect(key).0
      && r.passiveIncome == s.passiveIncome + SkillEffect(key).1
      && r.upgrades == s.upgrades && r.lastUpdate == s.lastUpdate && r.unlocked == s.unlocked
  {
  }

  /** The per-skill gains of the five levels. */
  lemma SkillEffectTable()
    ensures SkillEffect("bodyLevel") == (0.5, 0.0)
    ensures SkillEffect("reflexesLevel") == (0.0, 0.2)
    ensures SkillEffect("technicalLevel") == (0.3, 0.1)
    ensures SkillEffect("intelligenceLevel") == (0.0, 0.3)
    ensures SkillEffect("coolLevel") == (0.2, 0.2)
  {
  }

  /** An unaffordable upgrade changes nothing. */
  lemma UpgradePurchaseNoOp(s: State, i: nat)
    requires i < |s.upgrades| && s.money < UpgradeCost(s.upgrades[i]) as real
    ensures AfterUpgradePurchase(s, i) == s
  {
  }

  /** An affordable upgrade costs exactly its price, counts one more purchase
      of that upgrade only and applies its effect once. */
  lemma UpgradePurchaseEffect(s: State, i: nat)
    requires i < |s.upgrades| && s.money >= UpgradeCost(s.upgrades[i]) as real
    ensures var r := AfterUpgradePurchase(s, i); var u := s.upgrades[i];
      && r.money == s.money - UpgradeCost(u) as real
      && |r.upgrades| == |s.upgrades|
      && r.upgrades[i] == u.(count := u.count + 1)
      && (forall j :: 0 <= j < |s.upgrades| && j != i ==> r.upgrades[j] == s.upgrades[j])
      && r.clickPower == s.clickPower + u.config.effect.ClickGain()
      && r.passiveIncome == s.passiveIncome + u.config.effect.PassiveGain()
      && r.skills == s.skills && r.lastUpdate == s.lastUpdate && r.unlocked == s.unlocked
  {
  }

  /** Clicks and purchases keep money non-negative, click power at least one
      and passive income non-negative; so does a tick whose clock did not go
      backwards. */
  lemma ActionsKeepSane(s: State, key: string, i: nat, now: int)
    requires Sane(s) && WellFormed(s) && i < |s.upgrades|
    ensures Sane(AfterClick(s))
    ensures Sane(AfterSkillPurchase(s, key))
    ensures Sane(AfterUpgradePurchase(s, i))
    ensures now >= s.lastUpdate ==> Sane(AfterAccrual(s, now))
  {
    assert s.upgrades[i].config in UpgradeConfigs;
    if now >= s.lastUpdate {
      MulNonNegative(s.passiveIncome, Seconds(now - s.lastUpdate));
    }
  }

  /** Two ticks accrue exactly what one tick over the whole span does: the
      passive income earned does not depend on how often the timer fires. */
  lemma TicksCompose(s: State, t1: int, t2: int)
    ensures AfterAccrual(AfterAccrual(s, t1), t2) == AfterAccrual(s, t2)
  {
    var l, p := s.lastUpdate, s.passiveIncome;
    assert Seconds(t1 - l) + Seconds(t2 - t1) == Seconds(t2 - l);
    assert p * Seconds(t1 - l) + p * Seconds(t2 - t1) == p * Seconds(t2 - l);
  }

  /** The live tick does not clamp: a clock that went backwards takes money
      away when there is passive income. */
  lemma AccrualWithClockBackwards(s: State, now: int)
    requires now < s.lastUpdate && s.passiveIncome > 0.0
    ensures AfterAccrual(s, now).money < s.money
  {
    var dt := Seconds(now - s.lastUpdate);
    assert dt < 0.0;
    assert s.passiveIncome * dt < 0.0;
  }

  // ---------------------------------------------------------------------
  // Repeated purchases

  function SkillPurchases(s: State, key: string, n: nat): State
    decreases n
  {
    if n == 0 then s else SkillPurchases(AfterSkillPurchase(s, key), key, n - 1)
  }

  /** The price of n successive levels starting at `level`. */
  function TotalSkillCost(level: int, n: nat): (total: int)
    ensures total >= 0
    decreases n
  {
    if n == 0 then 0 else SkillCost(level) + TotalSkillCost(level + 1, n - 1)
  }

  /** With money for n levels, n purchases of one skill pay each level's own
      price and compound n gains. */
  lemma {:induction false} RepeatedSkillPurchases(s: State, key: string, n: nat)
    requires key in s.skills && s.money >= TotalSkillCost(s.skills[key], n) as real
    ensures var r := SkillPurchases(s, key, n);
      && r.money == s.money - TotalSkillCost(s.skills[key], n) as real
      && r.skills == s.skills[key := s.skills[key] + n]
      && r.clickPower == s.clickPower + n as real * SkillEffect(key).0
      && r.passiveIncome == s.passiveIncome + n as real * SkillEffect(key).1
      && r.upgrades == s.upgrades && r.lastUpdate == s.lastUpdate && r.unlocked == s.unlocked
    decreases n
  {
    if n > 0 {
      var level := s.skills[key];
      var s1 := AfterSkillPurchase(s, key);
      SkillPurchaseEffect(s, key);
      RepeatedSkillPurchases(s1, key, n - 1);
      assert s1.skills[key := level + n] == s.skills[key := level + n];
      MulStep(n, SkillEffect(key).0);
      MulStep(n, SkillEffect(key).1);
    }
  }

  lemma MulStep(n: nat, g: real)
    requires n > 0
    ensures n as real * g == g + (n - 1) as real * g
  {
  }


  function UpgradePurchases(s: State, i: nat, n: nat): State
    requires i < |s.upgrades|
    decreases n
  {
    if n == 0 then s
    else
      var s1 := AfterUpgradePurchase(s, i);
      if i < |s1.upgrades| then UpgradePurchases(s1, i, n - 1) else s1
  }

  /** The price of n successive purchases of `u` from its current count. */
  function TotalUpgradeCost(u: Upgrade, n: nat): (total: int)
    ensures total >= 0
    decreases n
  {
    if n == 0 then 0 else UpgradeCost(u) + TotalUpgradeCost(u.(count := u.count + 1), n - 1)
  }

  /** With money for n purchases, n purchases of one upgrade pay each
      purchase's own price, count n more and apply the effect n times. */
  lemma RepeatedUpgradePurchases(s: State, i: nat, n: nat)
    requires i < |s.upgrades| && s.money >= TotalUpgradeCost(s.upgrades[i], n) as real
    ensures var r := UpgradePurchases(s, i, n); var u := s.upgrades[i];
      && r.money == s.money - TotalUpgradeCost(u, n) as real
      && r.upgrades == s.upgrades[i := u.(count := u.count + n)]
      && r.clickPower == s.clickPower + n as real * u.config.effect.ClickGain()
      && r.passiveIncome == s.passiveIncome + n as real * u.config.effect.PassiveGain()
      && r.skills == s.skills && r.lastUpdate == s.lastUpdate && r.unlocked == s.unlocked
  {
    RepeatedUpgradeSpending(s, i, n);
    RepeatedUpgradeGains(s, i, n);
  }

  lemma {:induction false} RepeatedUpgradeSpending(s: State, i: nat, n: nat)
    requires i < |s.upgrades| && s.money >= TotalUpgradeCost(s.upgrades[i], n) as real
    ensures var r := UpgradePurchases(s, i, n); var u := s.upgrades[i];
      && r.money == s.money - TotalUpgradeCost(u, n) as real
      && r.upgrades == s.upgrades[i := u.(count := u.count + n)]
      && r.skills == s.skills && r.lastUpdate == s.lastUpdate && r.unlocked == s.unlocked
    decreases n
  {
    var u := s.upgrades[i];
    if n == 0 {
      assert u.(count := u.count + 0) == u;
    } else {
      var u1 := u.(count := u.count + 1);
      var s1 := AfterUpgradePurchase(s, i);
      UpgradePurchaseEffect(s, i);
      assert s1.upgrades == s.upgrades[i := u1];
      RepeatedUpgradeSpending(s1, i, n - 1);
      assert s1.upgrades[i] == u1;
      assert u1.(count := u1.count + (n - 1)) == u.(count := u.count + n);
    }
  }

  /** After the first of n affordable purchases, the other n - 1 are still affordable. */
  lemma AffordsRest(s: State, i: nat, n: nat)
    requires i < |s.upgrades| && n > 0 && s.money >= TotalUpgradeCost(s.upgrades[i], n) as real
    ensures var s1 := AfterUpgradePurchase(s, i);
      && |s1.upgrades| == |s.upgrades|
      && s1.upgrades[i] == s.upgrades[i].(count := s.upgrades[i].count + 1)
      && s1.money >= TotalUpgradeCost(s1.upgrades[i], n - 1) as real
      && s1.clickPower == s.clickPower + s.upgrades[i].config.effect.ClickGain()
      && s1.passiveIncome == s.passiveIncome + s.upgrades[i].config.effect.PassiveGain()
  {
    UpgradePurchaseEffect(s, i);
  }

  lemma {:induction false} RepeatedUpgradeGains(s: State, i: nat, n: nat)
    requires i < |s.upgrades| && s.money >= TotalUpgradeCost(s.upgrades[i], n) as real
    ensures var r := UpgradePurchases(s, i, n); var e := s.upgrades[i].config.effect;
      && r.clickPower == s.clickPower + n as real * e.ClickGain()
      && r.passiveIncome == s.passiveIncome + n as real * e.PassiveGain()
    decreases n
  {
    if n > 0 {
      var e := s.upgrades[i].config.effect;
      var s1 := AfterUpgradePurchase(s, i);
      AffordsRest(s, i, n);
      RepeatedUpgradeGains(s1, i, n - 1);
      assert s1.upgrades[i].config.effect == e;
      assert UpgradePurchases(s, i, n) == UpgradePurchases(s1, i, n - 1);
      MulStep(n, e.ClickGain());
      MulStep(n, e.PassiveGain());
    }
  }


  // ---------------------------------------------------------------------
  // The affordability cache refreshed by `updateDisplay`

  predicate Affordable(money: real, u: Upgrade) {
    money >= UpgradeCost(u) as real
  }

  /** The cached flag no longer matches the current affordability. */
  predicate Stale(money: real, u: Upgrade) {
    u.lastAffordable != Affordable(money, u)
  }

  function Refreshed(money: real, u: Upgrade): Upgrade {
    u.(lastAffordable := Affordable(money, u))
  }

  /** The position of the first upgrade whose flag is stale, or the length. */
  function FirstStale(ups: seq<Upgrade>, money: real): (k: nat)
    ensures k <= |ups|
    ensures forall j :: 0 <= j < k ==> !Stale(money, ups[j])
    ensures k < |ups| ==> Stale(money, ups[k])
  {
    if ups == [] then 0
    else if Stale(money, ups[0]) then 0
    else 1 + FirstStale(ups[1..], money)
  }

  /** The `upgrades.some(...)` pass of `updateDisplay`: refresh each flag in
      order and stop at the first one that flipped, reporting whether one did. */
  function RefreshCache(ups: seq<Upgrade>, money: real): (r: (seq<Upgrade>, bool))
    ensures |r.0| == |ups|
    ensures forall j :: 0 <= j < |ups| ==> r.0[j].config == ups[j].config && r.0[j].count == ups[j].count
  {
    if ups == [] then ([], false)
    else if Stale(money, ups[0]) then ([Refreshed(money, ups[0])] + ups[1..], true)
    else
      var (rest, flipped) := RefreshCache(ups[1..], money);
      ([Refreshed(money, ups[0])] + rest, flipped)
  }

  /** Because the pass stops at the first flip and every earlier flag was
      already right, its whole effect is to correct the first stale flag. */
  lemma {:induction false} RefreshCacheFixesFirstStale(ups: seq<Upgrade>, money: real)
    ensures var k := FirstStale(ups, money);
      RefreshCache(ups, money) ==
        (if k < |ups| then ups[k := Refreshed(money, ups[k])] else ups, k < |ups|)
    decreases |ups|
  {
    if ups == [] {
    } else if Stale(money, ups[0]) {
      assert [Refreshed(money, ups[0])] + ups[1..] == ups[0 := Refreshed(money, ups[0])];
    } else {
      var tail := ups[1..];
      RefreshCacheFixesFirstStale(tail, money);
      var k := FirstStale(tail, money);
      assert FirstStale(ups, money) == k + 1;
      assert Refreshed(money, ups[0]) == ups[0];
      var rest := RefreshCache(tail, money).0;
      assert RefreshCache(ups, money) == ([ups[0]] + rest, k < |tail|);
      ConsUpdate(ups, k, if k < |tail| then Refreshed(money, tail[k]) else ups[0]);
    }
  }

  /** Updating the tail of a non-empty list at k updates the list at k + 1. */
  lemma ConsUpdate<T>(xs: seq<T>, k: nat, v: T)
    requires xs != []
    ensures [xs[0]] + xs[1..] == xs
    ensures k + 1 < |xs| ==> [xs[0]] + xs[1..][k := v] == xs[k + 1 := v]
  {
    if k + 1 < |xs| {
      assert ([xs[0]] + xs[1..][k := v])[k + 1] == v;
    }
  }

  /** The pass reports a re-render exactly when some flag was stale; the flags
      up to and including the first stale one are then right, and the later
      ones keep their old values. */
  lemma RefreshCacheOutcome(ups: seq<Upgrade>, money: real)
    ensures var (r, flipped) := RefreshCache(ups, money);
      && |r| == |ups|
      && (flipped <==> exists j :: 0 <= j < |ups| && Stale(money, ups[j]))
      && (!flipped ==> r == ups)
      && (forall j :: 0 <= j <= FirstStale(ups, money) && j < |r| ==> !Stale(money, r[j]))
      && (forall j :: FirstStale(ups, money) < j < |r| ==> r[j] == ups[j])
  {
    RefreshCacheFixesFirstStale(ups, money);
  }

  /** `upgrades.find(u => u.id === id)`: the first upgrade with that id. */
  function FindUpgrade(ups: seq<Upgrade>, id: string): (r: Option<Upgrade>)
    ensures r.Some? ==> r.value in ups && r.value.Id() == id
    ensures r.None? ==> forall j :: 0 <= j < |ups| ==> ups[j].Id() != id
    ensures r.Some? ==>
      exists j :: 0 <= j < |ups| && r == Some(ups[j]) && forall l :: 0 <= l < j ==> ups[l].Id() != id
  {
    if ups == [] then None
    else if ups[0].Id() == id then Some(ups[0])
    else
      var r := FindUpgrade(ups[1..], id);
      assert r.Some? ==> exists j :: 0 <= j < |ups| && r == Some(ups[j]) && forall l :: 0 <= l < j ==> ups[l].Id() != id by {
        if r.Some? {
          var j :| 0 <= j < |ups[1..]| && r == Some(ups[1..][j]) && forall l :: 0 <= l < j ==> ups[1..][l].Id() != id;
          assert r == Some(ups[j + 1]);
          assert forall l :: 0 <= l < j + 1 ==> ups[l].Id() != id by {
            forall l | 0 <= l < j + 1 ensures ups[l].Id() != id {
              if l > 0 { assert ups[l] == ups[1..][l - 1]; }
            }
          }
        }
      }
      r
  }

  /** In a list of configured upgrades the search by id finds the one at
      that id's configuration position. */
  lemma {:induction false} FindUpgradeAt(ups: seq<Upgrade>, i: nat)
    requires |ups| == |UpgradeConfigs| && i < |ups|
    requires forall j :: 0 <= j < |ups| ==> ups[j].config == UpgradeConfigs[j]
    ensures FindUpgrade(ups, UpgradeConfigs[i].id) == Some(ups[i])
  {
    assert ups[0].Id() == "street_cred" && ups[1].Id() == "data_mining" && ups[2].Id() == "netrunner";
    if i > 0 {
      assert ups[1..][i - 1] == ups[i];
      if i > 1 {
        assert ups[1..][1..][i - 2] == ups[i];
      }
    }
  }

  /** The search by id sees only ids and counts: two lists that agree on
      those give the same answer up to the cached flag. */
  lemma {:induction false} FindUpgradeSeesIdsAndCounts(ups: seq<Upgrade>, other: seq<Upgrade>, id: string)
    requires |ups| == |other|
    requires forall j :: 0 <= j < |ups| ==> ups[j].config == other[j].config && ups[j].count == other[j].count
    ensures FindUpgrade(ups, id).Some? == FindUpgrade(other, id).Some?
    ensures FindUpgrade(ups, id).Some? ==> FindUpgrade(ups, id).value.count == FindUpgrade(other, id).value.count
    decreases |ups|
  {
    if ups != [] && ups[0].Id() != id {
      FindUpgradeSeesIdsAndCounts(ups[1..], other[1..], id);
    }
  }
}
