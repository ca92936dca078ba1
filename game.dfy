/** The `Game` object: the fields the player's actions, the clock tick, the
    display refresh and the save/load update in place. Each method is proved
    against the state function of the other modules, through `Abs()`. */
module GameModel {
  import opened Options
  import opened Economy
  import opened Achievements
  import opened Persistence

  /** `updateDisplay` on the state, leaving out the text it writes: the
      affordability pass over the upgrades, then the unlock pass. The
      economy, the skills and the clock are untouched, the upgrades keep
      their configurations and counts, and nothing is ever locked again. */
  function AfterDisplay(s: State, catalog: seq<Achievement>): (r: State)
    ensures r.money == s.money && r.clickPower == s.clickPower && r.passiveIncome == s.passiveIncome
    ensures r.skills == s.skills && r.lastUpdate == s.lastUpdate
    ensures |r.upgrades| == |s.upgrades|
    ensures forall j :: 0 <= j < |r.upgrades| ==>
      r.upgrades[j].config == s.upgrades[j].config && r.upgrades[j].count == s.upgrades[j].count
    ensures r.unlocked >= s.unlocked
    ensures WellFormed(s) ==> WellFormed(r)
  {
    AfterUnlock(s.(upgrades := RefreshCache(s.upgrades, s.money).0), catalog)
  }

  /** `click`: money grows by the click power, then the display refreshes. */
  function Clicked(s: State, catalog: seq<Achievement>): (r: State)
    ensures r.money == s.money + s.clickPower && r.clickPower == s.clickPower
    ensures r.passiveIncome == s.passiveIncome && r.skills == s.skills && r.lastUpdate == s.lastUpdate
    ensures r.unlocked >= s.unlocked && (WellFormed(s) ==> WellFormed(r))
  {
    AfterDisplay(AfterClick(s), catalog)
  }

  /** `upgradeSkill(key)`: the display refreshes only after a purchase. */
  function SkillUpgraded(s: State, key: string, catalog: seq<Achievement>): (r: State)
    ensures !CanBuySkill(s, key) ==> r == s
    ensures s.money >= 0.0 ==> 0.0 <= r.money <= s.money
    ensures r.lastUpdate == s.lastUpdate && r.unlocked >= s.unlocked && (WellFormed(s) ==> WellFormed(r))
  {
    if CanBuySkill(s, key) then AfterDisplay(AfterSkillPurchase(s, key), catalog) else s
  }

  /** `purchaseUpgrade(upgrades[i])`: the display refreshes only after a purchase. */
  function UpgradePurchased(s: State, i: nat, catalog: seq<Achievement>): (r: State)
    requires i < |s.upgrades|
    ensures !CanBuyUpgrade(s, i) ==> r == s
    ensures |r.upgrades| == |s.upgrades| && r.upgrades[i].count >= s.upgrades[i].count
    ensures r.skills == s.skills && r.lastUpdate == s.lastUpdate && r.unlocked >= s.unlocked
    ensures WellFormed(s) ==> WellFormed(r)
  {
    if CanBuyUpgrade(s, i) then AfterDisplay(AfterUpgradePurchase(s, i), catalog) else s
  }

  /** One run of the game loop's timer callback at clock reading `now`. */
  function Ticked(s: State, now: int, catalog: seq<Achievement>): (r: State)
    ensures r.lastUpdate == now && r.money == s.money + s.passiveIncome * Seconds(now - s.lastUpdate)
    ensures r.clickPower == s.clickPower && r.passiveIncome == s.passiveIncome && r.skills == s.skills
    ensures r.unlocked >= s.unlocked && (WellFormed(s) ==> WellFormed(r))
  {
    AfterDisplay(AfterAccrual(s, now), catalog)
  }

  /** The unlocked set grows by exactly the ids of the catalog entries that
      hold, judged on the incoming state: refreshing the cached flags first
      changes no condition. */
  lemma DisplayOutcome(s: State, catalog: seq<Achievement>)
    ensures AfterDisplay(s, catalog).unlocked == s.unlocked + HeldIds(s, catalog)
  {
    var ups := RefreshCache(s.upgrades, s.money).0;
    var refreshed := s.(upgrades := ups);
    forall a | a in catalog
      ensures Holds(refreshed, a) == Holds(s, a)
    {
      if a.kind.Owned? {
        FindUpgradeSeesIdsAndCounts(ups, s.upgrades, a.kind.upgradeId);
      }
    }
    assert HeldIds(refreshed, catalog) == HeldIds(s, catalog);
  }

  /** Money never goes negative, click power stays at least one and passive
      income non-negative through clicks, purchases, display refreshes, and
      ticks whose clock did not go backwards. */
  lemma GameKeepsSane(s: State, key: string, i: nat, now: int, catalog: seq<Achievement>)
    requires Sane(s) && WellFormed(s) && i < |s.upgrades|
    ensures Sane(Clicked(s, catalog)) && Sane(SkillUpgraded(s, key, catalog))
    ensures Sane(UpgradePurchased(s, i, catalog))
    ensures now >= s.lastUpdate ==> Sane(Ticked(s, now, catalog))
  {
    ActionsKeepSane(s, key, i, now);
  }

  class Game {
    var money: real
    var clickPower: real
    var passiveIncome: real
    var lastUpdate: int
    /** The skill levels, keyed `bodyLevel` … `coolLevel`. */
    var skills: map<string, int>
    /** The upgrade records; a load replaces the whole array. */
    var upgrades: array<Upgrade>
    const achievements: seq<Achievement>
    var unlocked: set<string>

    /** The state the fields stand for. */
    function Abs(): State
      reads this, upgrades
    {
      State(money, clickPower, passiveIncome, skills, upgrades[..], lastUpdate, unlocked)
    }

    /** The upgrades are the configured ones. */
    predicate Valid()
      reads this, upgrades
    {
      WellFormed(Abs())
    }

    /** The field initialisation of the constructor, with `now` for `Date.now()`. */
    constructor(now: int)
      ensures Valid() && Abs() == InitialState(now) && achievements == Catalog()
      ensures fresh(upgrades)
    {
      money := 0.0;
      clickPower := 1.0;
      passiveIncome := 0.0;
      lastUpdate := now;
      skills := InitialSkills;
      var initial := InitialUpgrades();
      upgrades := new Upgrade[|initial|](i requires 0 <= i < |initial| => initial[i]);
      achievements := Catalog();
      unlocked := {};
      new;
      assert upgrades[..] == initial;
    }

    /** The `upgrades.some(...)` pass: refresh each cached flag in order and
        stop at the first one that flipped. */
    method RefreshAffordability() returns (shouldRerender: bool)
      requires Valid()
      modifies upgrades
      ensures Valid()
      ensures (upgrades[..], shouldRerender) == RefreshCache(old(upgrades[..]), money)
    {
      ghost var before := upgrades[..];
      ghost var k := FirstStale(before, money);
      shouldRerender := false;
      var i := 0;
      while i < upgrades.Length && !shouldRerender
        invariant 0 <= i <= upgrades.Length
        invariant !shouldRerender ==> i <= k && upgrades[..] == before
        invariant shouldRerender ==>
          i == k + 1 && k < |before| && upgrades[..] == before[k := Refreshed(money, before[k])]
        decreases upgrades.Length - i
      {
        var upgrade := upgrades[i];
        var cost := UpgradeCost(upgrade);
        var wasAffordable := upgrade.lastAffordable;
        var isAffordable := money >= cost as real;
        upgrades[i] := upgrade.(lastAffordable := isAffordable);
        shouldRerender := wasAffordable != isAffordable;
        if !shouldRerender {
          assert upgrades[..] == before;
        }
        i := i + 1;
      }
      RefreshCacheFixesFirstStale(before, money);
    }

    /** `checkAchievements`: every catalog entry not yet unlocked whose
        condition holds is unlocked; the result says whether any was. */
    method CheckAchievements() returns (newUnlocks: bool)
      requires Valid()
      modifies this
      ensures Valid() && upgrades == old(upgrades)
      ensures Abs() == AfterUnlock(old(Abs()), achievements)
      ensures newUnlocks <==> unlocked != old(unlocked)
    {
      var s := Abs();
      newUnlocks := false;
      var i := 0;
      while i < |achievements|
        invariant 0 <= i <= |achievements|
        invariant unlocked == s.unlocked + HeldIds(s, achievements[..i])
        invariant newUnlocks <==> unlocked != s.unlocked
        invariant money == s.money && clickPower == s.clickPower && passiveIncome == s.passiveIncome
        invariant skills == s.skills && lastUpdate == s.lastUpdate && upgrades == old(upgrades)
      {
        var achievement := achievements[i];
        assert achievements[..i + 1] == achievements[..i] + [achievement];
        if achievement.id !in unlocked && Holds(s, achievement) {
          unlocked := unlocked + {achievement.id};
          newUnlocks := true;
        }
        i := i + 1;
      }
      assert achievements[..i] == achievements;
    }

    /** `updateDisplay` without the text it writes. */
    method UpdateDisplay()
      requires Valid()
      modifies this, upgrades
      ensures Valid() && upgrades == old(upgrades)
      ensures Abs() == AfterDisplay(old(Abs()), achievements)
    {
      var shouldRerender := RefreshAffordability();
      var newUnlocks := CheckAchievements();
    }

    /** `click` */
    method Click()
      requires Valid()
      modifies this, upgrades
      ensures Valid() && upgrades == old(upgrades)
      ensures Abs() == Clicked(old(Abs()), achievements)
    {
      money := money + clickPower;
      UpdateDisplay();
    }

    /** `upgradeSkill(skillName)`. A key without a level prices at NaN, and
        the comparison with NaN fails, so nothing happens. */
    method UpgradeSkill(skillName: string)
      requires Valid()
      modifies this, upgrades
      ensures Valid() && upgrades == old(upgrades)
      ensures Abs() == SkillUpgraded(old(Abs()), skillName, achievements)
    {
      if skillName in skills {
        var cost := SkillCost(skills[skillName]);
        if money >= cost as real {
          ghost var bought := AfterSkillPurchase(Abs(), skillName);
          money := money - cost as real;
          skills := skills[skillName := skills[skillName] + 1];
          ApplySkillEffect(skillName);
          assert Abs() == bought;
          UpdateDisplay();
        }
      }
    }

    /** The `switch` of `upgradeSkill`: the gains of one level of the skill. */
    method ApplySkillEffect(skillName: string)
      modifies this
      ensures clickPower == old(clickPower) + SkillEffect(skillName).0
      ensures passiveIncome == old(passiveIncome) + SkillEffect(skillName).1
      ensures money == old(money) && skills == old(skills) && lastUpdate == old(lastUpdate)
      ensures upgrades == old(upgrades) && unlocked == old(unlocked)
    {
      if skillName == "bodyLevel" {
        clickPower := clickPower + 0.5;
      } else if skillName == "reflexesLevel" {
        passiveIncome := passiveIncome + 0.2;
      } else if skillName == "technicalLevel" {
        clickPower := clickPower + 0.3;
        passiveIncome := passiveIncome + 0.1;
      } else if skillName == "intelligenceLevel" {
        passiveIncome := passiveIncome + 0.3;
      } else if skillName == "coolLevel" {
        clickPower := clickPower + 0.2;
        passiveIncome := passiveIncome + 0.2;
      }
    }

    /** `purchaseUpgrade(upgrades[i])` */
    method PurchaseUpgrade(i: nat)
      requires Valid() && i < upgrades.Length
      modifies this, upgrades
      ensures Valid() && upgrades == old(upgrades)
      ensures Abs() == UpgradePurchased(old(Abs()), i, achievements)
    {
      var upgrade := upgrades[i];
      var cost := UpgradeCost(upgrade);
      if money >= cost as real {
        ghost var bought := AfterUpgradePurchase(Abs(), i);
        money := money - cost as real;
        upgrades[i] := upgrade.(count := upgrade.count + 1);
        assert upgrades[..] == old(upgrades[..])[i := upgrade.(count := upgrade.count + 1)];
        ApplyEffect(upgrade.config.effect);
        assert Abs() == bought;
        UpdateDisplay();
      }
    }

    /** `upgrade.applyEffect(this)` */
    method ApplyEffect(effect: Effect)
      modifies this
      ensures clickPower == old(clickPower) + effect.ClickGain()
      ensures passiveIncome == old(passiveIncome) + effect.PassiveGain()
      ensures money == old(money) && skills == old(skills) && lastUpdate == old(lastUpdate)
      ensures upgrades == old(upgrades) && unlocked == old(unlocked)
    {
      match effect {
        case AddClickPower(x) => clickPower := clickPower + x;
        case AddPassiveIncome(x) => passiveIncome := passiveIncome + x;
      }
    }

    /** The body of the game loop's timer callback, with `now` for `Date.now()`. */
    method Tick(now: int)
      requires Valid()
      modifies this, upgrades
      ensures Valid() && upgrades == old(upgrades)
      ensures Abs() == Ticked(old(Abs()), now, achievements)
    {
      ghost var accrued := AfterAccrual(Abs(), now);
      var elapsed := Seconds(now - lastUpdate);
      money := money + passiveIncome * elapsed;
      lastUpdate := now;
      assert Abs() == accrued;
      UpdateDisplay();
    }

    /** The snapshot part of `saveGame`. */
    method SaveGame() returns (saveData: Snapshot)
      ensures saveData == Save(Abs())
    {
      var current := upgrades[..];
      var saved := seq(|current|, i requires 0 <= i < |current| => SaveUpgrade(current[i]));
      assert saved == Save(Abs()).upgrades.value;
      saveData := Snapshot(money, clickPower, passiveIncome, Some(saved), skills, lastUpdate, Some(unlocked));
    }

    /** `loadGame`, given what storage held (`None` when nothing was saved)
        and `now` for `Date.now()`. */
    method LoadGame(savedGame: Option<Snapshot>, now: int)
      requires Valid()
      modifies this
      ensures Valid()
      ensures Abs() == AfterLoad(old(Abs()), savedGame, now)
    {
      ghost var loaded := AfterLoad(Abs(), savedGame, now);
      if savedGame.Some? {
        var saveData := savedGame.value;
        money := saveData.money;
        clickPower := saveData.clickPower;
        passiveIncome := saveData.passiveIncome;
        skills := saveData.skills;
        lastUpdate := saveData.lastUpdate;
        if saveData.upgrades.Some? {
          var saved := saveData.upgrades.value;
          upgrades := new Upgrade[|UpgradeConfigs|](i requires 0 <= i < |UpgradeConfigs| => MergedUpgrade(saved, i));
          assert upgrades[..] == MergeUpgrades(saved);
        }
        var offlineTime := Seconds(now - lastUpdate);
        if offlineTime > 0.0 {
          money := money + passiveIncome * offlineTime;
          lastUpdate := now;
        }
        unlocked := if saveData.unlocked.Some? then saveData.unlocked.value else {};
        assert Abs() == loaded;
      }
    }
  }
}
