/** Worked runs of the game from a fresh start. */
module Scenarios {
  import opened Numbers
  import opened Economy
  import opened GameModel
  import opened Achievements

  /** A click adds the click power to money and leaves the power and the
      purchase counts alone. */
  lemma ClickStep(s: State, catalog: seq<Achievement>)
    requires WellFormed(s)
    ensures var r := Clicked(s, catalog);
      && WellFormed(r) && r.money == s.money + s.clickPower && r.clickPower == s.clickPower
      && r.upgrades[0].count == s.upgrades[0].count
  {
  }

  /** With exactly 10 €$ and no Street Cred yet, buying it spends all the
      money, adds one click power, and prices the next one at 15. */
  lemma FirstStreetCred(s: State, catalog: seq<Achievement>)
    requires WellFormed(s) && s.money == 10.0 && s.upgrades[0].count == 0
    ensures var r := UpgradePurchased(s, 0, catalog);
      r.money == 0.0 && r.clickPower == s.clickPower + 1.0 && UpgradeCost(r.upgrades[0]) == 15
  {
    assert UpgradeCost(s.upgrades[0]) == 10;
    assert Power(1.5, 1) == 1.5;
  }

  /** From a fresh game, ten clicks earn 10 €$, the first Street Cred costs
      all of it and raises click power to 2, and the next one costs 15. */
  method StreetCredScenario(now: int) returns (money: real, clickPower: real, nextCost: int)
    ensures money == 0.0 && clickPower == 2.0 && nextCost == 15
  {
    var game := new Game(now);
    var clicks := 0;
    while clicks < 10
      invariant 0 <= clicks <= 10
      invariant game.Valid() && fresh(game.upgrades)
      invariant game.money == clicks as real && game.clickPower == 1.0
      invariant game.upgrades[0].count == 0
    {
      ClickStep(game.Abs(), game.achievements);
      game.Click();
      clicks := clicks + 1;
    }
    FirstStreetCred(game.Abs(), game.achievements);
    game.PurchaseUpgrade(0);
    money, clickPower := game.money, game.clickPower;
    nextCost := UpgradeCost(game.upgrades[0]);
  }

  /** With 302 €$, three Body levels cost 50 + 90 + 162, leave nothing, take
      the level from 1 to 4 and add 1.5 click power. */
  lemma BodySkillScenario(now: int)
    ensures var r := SkillPurchases(InitialState(now).(money := 302.0), "bodyLevel", 3);
      r.money == 0.0 && r.skills["bodyLevel"] == 4 && r.clickPower == 2.5 && r.passiveIncome == 0.0
  {
    var s := InitialState(now).(money := 302.0);
    SkillCostExamples();
    assert TotalSkillCost(1, 3) == 302;
    RepeatedSkillPurchases(s, "bodyLevel", 3);
  }
}
