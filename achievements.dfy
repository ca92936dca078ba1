/** The static achievement catalog of `initializeAchievements` and the
    one-way unlock pass of `checkAchievements`. The closures over the game
    that decide each achievement become the `Holds` predicate over a state. */
module Achievements {
  import opened Numbers
  import opened Strings
  import opened Options
  import opened Economy

  /** What an achievement compares its threshold with. `Tier` is built by
      the threshold-family builder and keeps its criterion text, because the
      predicate chooses the compared field by searching that text. */
  datatype Kind = Tier(criterion: string) | Owned(upgradeId: string) | SkillAtLeast(skillName: string)

  /** Title and description are display text and are not kept. */
  datatype Achievement = Achievement(id: string, kind: Kind, threshold: int)

  // ---------------------------------------------------------------------
  // Threshold arrays and builders

  /** `Array.from({length: n}, (_, i) => Math.floor(init * Math.pow(growth, i)))` */
  function Geometric(n: nat, init: real, growth: PosReal): (tiers: seq<int>)
    ensures |tiers| == n
    ensures init >= 0.0 ==> forall i :: 0 <= i < n ==> tiers[i] >= 0
  {
    var tiers := seq(n, i => ScaledFloor(init, growth, i));
    assert init >= 0.0 ==> forall i :: 0 <= i < n ==> tiers[i] >= 0 by {
      if init >= 0.0 {
        forall i | 0 <= i < n ensures tiers[i] >= 0 {
          MulNonNegative(init, Power(growth, i));
        }
      }
    }
    tiers
  }

  /** `Array.from({length: n}, (_, i) => (i + 1) * step)` */
  function Linear(n: nat, step: int): (tiers: seq<int>)
    ensures |tiers| == n && (n > 0 ==> tiers[0] == step)
    ensures step >= 0 ==> forall i :: 0 <= i < n ==> tiers[i] >= 0
  {
    seq(n, i => (i + 1) * step)
  }

  /** The id of the tier at index i of a family: the stem, `_`, and i + 1. */
  function TierId(stem: string, i: nat): string {
    stem + "_" + Decimal(i + 1)
  }

  /** `createAchievementTiers(baseTitle, criterion, thresholds)` */
  function CreateTiers(baseTitle: string, criterion: string, thresholds: seq<int>): (fam: seq<Achievement>)
    ensures |fam| == |thresholds| && FamilyKind(fam, Tier(criterion))
    ensures forall i :: 0 <= i < |fam| ==> fam[i].threshold == thresholds[i]
  {
    seq(|thresholds|, i requires 0 <= i < |thresholds| =>
      Achievement(TierId(Slug(baseTitle), i), Tier(criterion), thresholds[i]))
  }

  /** The ids of a titled family are its title's slug numbered from 1. */
  lemma CreateTiersIds(baseTitle: string, criterion: string, thresholds: seq<int>)
    ensures TaggedBy(CreateTiers(baseTitle, criterion, thresholds), Slug(baseTitle))
  {
  }

  /** `createUpgradeAchievements(upgradeId, name, thresholds)` */
  function CreateUpgradeAchievements(upgradeId: string, thresholds: seq<int>): (fam: seq<Achievement>)
    ensures |fam| == |thresholds| && TaggedBy(fam, upgradeId) && FamilyKind(fam, Owned(upgradeId))
    ensures forall i :: 0 <= i < |fam| ==> fam[i].threshold == thresholds[i]
  {
    seq(|thresholds|, i requires 0 <= i < |thresholds| =>
      Achievement(TierId(upgradeId, i), Owned(upgradeId), thresholds[i]))
  }

  /** `createSkillAchievements(skillName, thresholds)` */
  function CreateSkillAchievements(skillName: string, thresholds: seq<int>): (fam: seq<Achievement>)
    ensures |fam| == |thresholds| && TaggedBy(fam, ToLower(skillName)) && FamilyKind(fam, SkillAtLeast(skillName))
    ensures forall i :: 0 <= i < |fam| ==> fam[i].threshold == thresholds[i]
  {
    seq(|thresholds|, i requires 0 <= i < |thresholds| =>
      Achievement(TierId(ToLower(skillName), i), SkillAtLeast(skillName), thresholds[i]))
  }

  const MoneyCriterion: string := "Accumulate €$ {X}"
  const ClickCriterion: string := "Reach {X} click power"
  const PassiveCriterion: string := "Reach {X} passive income per second"

  function MoneyMakers(): seq<Achievement> {
    CreateTiers("Money Maker", MoneyCriterion, Geometric(100, 100.0, 1.5))
  }

  function ClickMasters(): seq<Achievement> {
    CreateTiers("Click Master", ClickCriterion, Geometric(100, 10.0, 1.4))
  }

  function PassiveMasters(): seq<Achievement> {
    CreateTiers("Passive Master", PassiveCriterion, Geometric(100, 5.0, 1.45))
  }

  function UpgradeOwners(upgradeId: string): seq<Achievement> {
    CreateUpgradeAchievements(upgradeId, Linear(40, 5))
  }

  function SkillExperts(skillName: string): seq<Achievement> {
    CreateSkillAchievements(skillName, Linear(20, 1))
  }

  /** The eleven families, in the order they are spread into the catalog. */
  function Families(): seq<seq<Achievement>> {
    [ MoneyMakers(), ClickMasters(), PassiveMasters(),
      UpgradeOwners("street_cred"), UpgradeOwners("data_mining"), UpgradeOwners("netrunner"),
      SkillExperts("Body"), SkillExperts("Reflexes"), SkillExperts("Technical"),
      SkillExperts("Intelligence"), SkillExperts("Cool") ]
  }

  /** The array spread `[...f0, ...f1, …]`. */
  function Flatten(fams: seq<seq<Achievement>>): (all: seq<Achievement>)
    ensures forall a :: a in all <==> exists k :: 0 <= k < |fams| && a in fams[k]
    decreases |fams|
  {
    if fams == [] then [] else fams[0] + Flatten(fams[1..])
  }

  function Catalog(): (catalog: seq<Achievement>)
    ensures |catalog| == 520
  {
    FamiliesShape();
    FlattenSize(Families(), Sizes());
    SizesSum();
    Flatten(Families())
  }

  // ---------------------------------------------------------------------
  // Evaluation

  /** The achievement's condition on a state. A threshold family compares
      click power when its criterion mentions `Click`, passive income when it
      mentions `Passive`, and money otherwise; the search is case-sensitive.
      An ownership achievement is false when no upgrade carries its id, and a
      skill achievement is false when the skills have no such key. */
  predicate Holds(s: State, a: Achievement)
    ensures Holds(s, a) && a.kind.Owned? ==>
      exists j :: 0 <= j < |s.upgrades| && s.upgrades[j].Id() == a.kind.upgradeId &&
        s.upgrades[j].count >= a.threshold
    ensures Holds(s, a) && a.kind.SkillAtLeast? ==>
      ToLower(a.kind.skillName) + "Level" in s.skills
  {
    match a.kind
    case Tier(criterion) =>
      if Contains(criterion, "Click") then s.clickPower >= a.threshold as real
      else if Contains(criterion, "Passive") then s.passiveIncome >= a.threshold as real
      else s.money >= a.threshold as real
    case Owned(upgradeId) =>
      var found := FindUpgrade(s.upgrades, upgradeId);
      found.Some? && found.value.count >= a.threshold
    case SkillAtLeast(skillName) =>
      var key := ToLower(skillName) + "Level";
      key in s.skills && s.skills[key] >= a.threshold
  }

  /** The ids of the catalog entries whose condition holds in `s`. */
  function HeldIds(s: State, catalog: seq<Achievement>): set<string> {
    set a | a in catalog && Holds(s, a) :: a.id
  }

  /** `checkAchievements` on the state: every held achievement is unlocked,
      no id is removed, and an id is added only for a held achievement. */
  function AfterUnlock(s: State, catalog: seq<Achievement>): (r: State)
    ensures r.unlocked >= s.unlocked
    ensures forall a :: a in catalog && Holds(s, a) ==> a.id in r.unlocked
    ensures forall id :: id in r.unlocked && id !in s.unlocked ==>
      exists a :: a in catalog && a.id == id && Holds(s, a)
    ensures r.(unlocked := s.unlocked) == s
  {
    s.(unlocked := s.unlocked + HeldIds(s, catalog))
  }

  /** The conditions read the economy, the upgrades and the skills, never
      the unlocked set. */
  lemma HoldsIgnoresUnlocked(s: State, a: Achievement, ids: set<string>)
    ensures Holds(s.(unlocked := ids), a) == Holds(s, a)
  {
  }

  /** A second pass on an unchanged state adds nothing. */
  lemma UnlockIdempotent(s: State, catalog: seq<Achievement>)
    ensures AfterUnlock(AfterUnlock(s, catalog), catalog) == AfterUnlock(s, catalog)
  {
    var r := AfterUnlock(s, catalog);
    forall a | a in catalog
      ensures Holds(r, a) == Holds(s, a)
    {
      HoldsIgnoresUnlocked(s, a, r.unlocked);
    }
    assert HeldIds(r, catalog) == HeldIds(s, catalog);
  }

  // ---------------------------------------------------------------------
  // The catalog's shape

  /** Every member of the family has the id stem_(i + 1) at index i. */
  predicate TaggedBy(fam: seq<Achievement>, stem: string) {
    forall i :: 0 <= i < |fam| ==> fam[i].id == TierId(stem, i)
  }

  predicate ThresholdsNonDecreasing(fam: seq<Achievement>) {
    forall i, j :: 0 <= i <= j < |fam| ==> fam[i].threshold <= fam[j].threshold
  }

  function Stems(): seq<string> {
    [ "money_maker", "click_master", "passive_master",
      "street_cred", "data_mining", "netrunner",
      "body", "reflexes", "technical", "intelligence", "cool" ]
  }

  function Sizes(): seq<nat> {
    [100, 100, 100, 40, 40, 40, 20, 20, 20, 20, 20]
  }

  lemma TitlesSplit()
    ensures "Money Maker" == "Money" + " " + "Maker"
    ensures "Click Master" == "Click" + " " + "Master"
    ensures "Passive Master" == "Passive" + " " + "Master"
  {
  }

  lemma WordsPlain()
    ensures NoWhitespace("Money") && NoWhitespace("Maker") && NoWhitespace("Click")
    ensures NoWhitespace("Master") && NoWhitespace("Passive")
  {
  }

  lemma StemWords()
    ensures ToLower("Money") + "_" + ToLower("Maker") == "money_maker"
    ensures ToLower("Click") + "_" + ToLower("Master") == "click_master"
    ensures ToLower("Passive") + "_" + ToLower("Master") == "passive_master"
  {
  }

  /** The slugs of the three titled families. */
  lemma TitleStems()
    ensures Slug("Money Maker") == "money_maker"
    ensures Slug("Click Master") == "click_master"
    ensures Slug("Passive Master") == "passive_master"
  {
    TitlesSplit();
    WordsPlain();
    StemWords();
    TwoWordSlug("Money", "Maker");
    TwoWordSlug("Click", "Master");
    TwoWordSlug("Passive", "Master");
  }

  /** The lower-cased skill names. */
  lemma SkillStems()
    ensures ToLower("Body") == "body" && ToLower("Reflexes") == "reflexes"
    ensures ToLower("Technical") == "technical" && ToLower("Intelligence") == "intelligence"
    ensures ToLower("Cool") == "cool"
  {
  }

  lemma TitledFamiliesTagged()
    ensures |MoneyMakers()| == 100 && TaggedBy(MoneyMakers(), "money_maker")
    ensures |ClickMasters()| == 100 && TaggedBy(ClickMasters(), "click_master")
    ensures |PassiveMasters()| == 100 && TaggedBy(PassiveMasters(), "passive_master")
  {
    TitleStems();
  }

  lemma FamiliesShape()
    ensures |Families()| == |Stems()| == |Sizes()| == 11
    ensures forall k :: 0 <= k < 11 ==> |Families()[k]| == Sizes()[k]
    ensures forall k :: 0 <= k < 11 ==> TaggedBy(Families()[k], Stems()[k])
  {
    TitledFamiliesTagged();
    SkillStems();
  }

  predicate DistinctIds(catalog: seq<Achievement>) {
    forall i, j :: 0 <= i < j < |catalog| ==> catalog[i].id != catalog[j].id
  }

  /** The id is stem_n for one of the stems and some n. */
  ghost predicate IdUnder(id: string, stems: seq<string>) {
    exists k: nat, m: nat :: k < |stems| && id == TierId(stems[k], m)
  }

  lemma {:induction false} FlattenIdsUnder(fams: seq<seq<Achievement>>, stems: seq<string>)
    requires |fams| == |stems|
    requires forall k :: 0 <= k < |fams| ==> TaggedBy(fams[k], stems[k])
    ensures forall p :: 0 <= p < |Flatten(fams)| ==> IdUnder(Flatten(fams)[p].id, stems)
    decreases |fams|
  {
    if fams != [] {
      var rest := Flatten(fams[1..]);
      FlattenIdsUnder(fams[1..], stems[1..]);
      forall p | 0 <= p < |Flatten(fams)|
        ensures IdUnder(Flatten(fams)[p].id, stems)
      {
        if p < |fams[0]| {
          assert Flatten(fams)[p].id == TierId(stems[0], p);
        } else {
          var q := p - |fams[0]|;
          assert Flatten(fams)[p] == rest[q];
          var k: nat, m: nat :| k < |stems[1..]| && rest[q].id == TierId(stems[1..][k], m);
          assert rest[q].id == TierId(stems[k + 1], m);
        }
      }
    }
  }

  /** Families tagged by pairwise different stems spread into a list whose
      ids are pairwise distinct. */
  lemma {:induction false} FlattenDistinct(fams: seq<seq<Achievement>>, stems: seq<string>)
    requires |fams| == |stems|
    requires forall k :: 0 <= k < |fams| ==> TaggedBy(fams[k], stems[k])
    requires forall k, l :: 0 <= k < l < |stems| ==> stems[k] != stems[l]
    ensures DistinctIds(Flatten(fams))
    decreases |fams|
  {
    if fams != [] {
      var head, rest := fams[0], Flatten(fams[1..]);
      var all := Flatten(fams);
      assert all == head + rest;
      FlattenDistinct(fams[1..], stems[1..]);
      FlattenIdsUnder(fams[1..], stems[1..]);
      forall i, j | 0 <= i < j < |all|
        ensures all[i].id != all[j].id
      {
        if j < |head| {
          TierIdsDistinct(stems[0], i + 1, j + 1);
        } else if i < |head| {
          var q := j - |head|;
          assert all[j] == rest[q];
          var k: nat, m: nat :| k < |stems[1..]| && rest[q].id == TierId(stems[1..][k], m);
          PrefixedIdsDistinct(stems[0], i + 1, stems[k + 1], m + 1);
        } else {
          assert all[i] == rest[i - |head|] && all[j] == rest[j - |head|];
        }
      }
    }
  }

  lemma StemsDistinct()
    ensures forall k, l :: 0 <= k < l < |Stems()| ==> Stems()[k] != Stems()[l]
  {
  }

  /** No two catalog entries share an id. */
  lemma CatalogIdsDistinct()
    ensures DistinctIds(Catalog())
  {
    FamiliesShape();
    StemsDistinct();
    FlattenDistinct(Families(), Stems());
  }

  function Sum(sizes: seq<nat>): nat {
    if sizes == [] then 0 else sizes[0] + Sum(sizes[1..])
  }

  lemma {:induction false} FlattenSize(fams: seq<seq<Achievement>>, sizes: seq<nat>)
    requires |fams| == |sizes|
    requires forall k :: 0 <= k < |fams| ==> |fams[k]| == sizes[k]
    ensures |Flatten(fams)| == Sum(sizes)
    decreases |fams|
  {
    if fams != [] {
      FlattenSize(fams[1..], sizes[1..]);
    }
  }

  /** 100 + 100 + 100 + 3 * 40 + 5 * 20 entries. */
  lemma SizesSum()
    ensures Sum(Sizes()) == 520
  {
  }

  /** A geometric family never lowers its threshold from one tier to the next. */
  lemma GeometricTiersNonDecreasing(baseTitle: string, criterion: string, n: nat, init: real, growth: PosReal)
    requires init >= 0.0 && growth >= 1.0
    ensures ThresholdsNonDecreasing(CreateTiers(baseTitle, criterion, Geometric(n, init, growth)))
  {
    var fam := CreateTiers(baseTitle, criterion, Geometric(n, init, growth));
    forall i, j | 0 <= i <= j < |fam|
      ensures fam[i].threshold <= fam[j].threshold
    {
      ScaledFloorMonotone(init, growth, i, j);
    }
  }

  lemma LinearNonDecreasing(n: nat, step: nat)
    ensures forall i, j :: 0 <= i <= j < n ==> Linear(n, step)[i] <= Linear(n, step)[j]
  {
    forall i, j | 0 <= i <= j < n
      ensures Linear(n, step)[i] <= Linear(n, step)[j]
    {
      MulMonotone(i + 1, j + 1, step);
    }
  }

  lemma MulMonotone(x: nat, y: nat, step: nat)
    requires x <= y
    ensures x * step <= y * step
  {
  }

  /** Every family's thresholds are non-decreasing in the tier index. */
  lemma FamilyThresholdsNonDecreasing()
    ensures forall k :: 0 <= k < |Families()| ==> ThresholdsNonDecreasing(Families()[k])
  {
    GeometricTiersNonDecreasing("Money Maker", MoneyCriterion, 100, 100.0, 1.5);
    GeometricTiersNonDecreasing("Click Master", ClickCriterion, 100, 10.0, 1.4);
    GeometricTiersNonDecreasing("Passive Master", PassiveCriterion, 100, 5.0, 1.45);
    LinearNonDecreasing(40, 5);
    LinearNonDecreasing(20, 1);
  }

  lemma {:induction false} FlattenMember(fams: seq<seq<Achievement>>, a: Achievement)
    requires a in Flatten(fams)
    ensures exists k :: 0 <= k < |fams| && a in fams[k]
    decreases |fams|
  {
    if a !in fams[0] {
      FlattenMember(fams[1..], a);
      var k :| 0 <= k < |fams[1..]| && a in fams[1..][k];
      assert a in fams[k + 1];
    }
  }

  /** The kind every member of a family shares. */
  predicate FamilyKind(fam: seq<Achievement>, kind: Kind) {
    forall i :: 0 <= i < |fam| ==> fam[i].kind == kind
  }

  /** The kinds of the eleven families, in catalog order. */
  function Kinds(): seq<Kind> {
    [ Tier(MoneyCriterion), Tier(ClickCriterion), Tier(PassiveCriterion),
      Owned(UpgradeConfigs[0].id), Owned(UpgradeConfigs[1].id), Owned(UpgradeConfigs[2].id),
      SkillAtLeast("Body"), SkillAtLeast("Reflexes"), SkillAtLeast("Technical"),
      SkillAtLeast("Intelligence"), SkillAtLeast("Cool") ]
  }

  lemma FamiliesKinds()
    ensures |Families()| == |Kinds()|
    ensures forall k :: 0 <= k < |Kinds()| ==> FamilyKind(Families()[k], Kinds()[k])
  {
  }

  /** Every catalog entry has the kind of the family it came from. */
  lemma CatalogEntryKind(a: Achievement)
    requires a in Catalog()
    ensures exists k :: 0 <= k < |Kinds()| && a.kind == Kinds()[k]
  {
    FlattenMember(Families(), a);
    FamiliesKinds();
    var k :| 0 <= k < |Families()| && a in Families()[k];
    var i :| 0 <= i < |Families()[k]| && Families()[k][i] == a;
    assert a.kind == Kinds()[k];
  }

  lemma SkillKeys()
    ensures ToLower("Body") + "Level" in InitialSkills
    ensures ToLower("Reflexes") + "Level" in InitialSkills
    ensures ToLower("Technical") + "Level" in InitialSkills
    ensures ToLower("Intelligence") + "Level" in InitialSkills
    ensures ToLower("Cool") + "Level" in InitialSkills
  {
    SkillKeysByName();
  }

  /** The kinds the eleven families use: the three criteria, the three
      configured upgrade ids and the five skill names. */
  predicate KnownKind(kind: Kind) {
    match kind
    case Tier(c) => c == MoneyCriterion || c == ClickCriterion || c == PassiveCriterion
    case Owned(id) => id == UpgradeConfigs[0].id || id == UpgradeConfigs[1].id || id == UpgradeConfigs[2].id
    case SkillAtLeast(name) =>
      name == "Body" || name == "Reflexes" || name == "Technical" || name == "Intelligence" || name == "Cool"
  }

  lemma KindsKnown()
    ensures forall k :: 0 <= k < |Kinds()| ==> KnownKind(Kinds()[k])
  {
  }

  lemma CatalogEntryKnown(a: Achievement)
    requires a in Catalog()
    ensures KnownKind(a.kind)
  {
    CatalogEntryKind(a);
    KindsKnown();
  }

  /** A criterion without a capital C or P contains neither "Click" nor
      "Passive"; the three criteria are such texts. */
  lemma LacksCapitalWords(criterion: string)
    requires 'C' !in criterion && 'P' !in criterion
    ensures !Contains(criterion, "Click") && !Contains(criterion, "Passive")
  {
    MissingFirstCharNotContained(criterion, "Click");
    MissingFirstCharNotContained(criterion, "Passive");
  }

  lemma CriteriaLackCapitals()
    ensures 'C' !in MoneyCriterion && 'P' !in MoneyCriterion
    ensures 'C' !in ClickCriterion && 'P' !in ClickCriterion
    ensures 'C' !in PassiveCriterion && 'P' !in PassiveCriterion
  {
    MoneyCriterionLacksCapitals();
    ClickCriterionLacksCapitals();
    PassiveCriterionLacksCapitals();
  }

  lemma MoneyCriterionLacksCapitals()
    ensures 'C' !in MoneyCriterion && 'P' !in MoneyCriterion
  {
  }

  lemma ClickCriterionLacksCapitals()
    ensures 'C' !in ClickCriterion && 'P' !in ClickCriterion
  {
  }

  lemma PassiveCriterionLacksCapitals()
    ensures 'C' !in PassiveCriterion && 'P' !in PassiveCriterion
  {
  }

  /** All three threshold families, click power and passive income
      included, compare money: the case-sensitive search never matches.
      With `CatalogEntryKnown` this covers every threshold entry of the
      catalog. */
  lemma TierFamiliesCompareMoney(s: State, a: Achievement)
    requires KnownKind(a.kind) && a.kind.Tier?
    ensures Holds(s, a) <==> s.money >= a.threshold as real
  {
    CriteriaLackCapitals();
    LacksCapitalWords(a.kind.criterion);
  }

  /** An ownership achievement compares the purchase count of the upgrade
      it names, which a well-formed state always has. */
  lemma OwnershipReadsCount(s: State, a: Achievement)
    requires WellFormed(s) && KnownKind(a.kind) && a.kind.Owned?
    ensures exists i :: (0 <= i < |s.upgrades| && s.upgrades[i].Id() == a.kind.upgradeId &&
      (Holds(s, a) <==> s.upgrades[i].count >= a.threshold))
  {
    var i := KnownUpgradeIndex(a.kind.upgradeId);
    FindUpgradeAt(s.upgrades, i);
  }

  /** The position of one of the three configured ids. */
  function KnownUpgradeIndex(id: string): (i: nat)
    requires id == UpgradeConfigs[0].id || id == UpgradeConfigs[1].id || id == UpgradeConfigs[2].id
    ensures i < |UpgradeConfigs| && UpgradeConfigs[i].id == id
  {
    if id == UpgradeConfigs[0].id then 0 else if id == UpgradeConfigs[1].id then 1 else 2
  }

  /** A skill achievement compares the level kept under its skill's key,
      the lower-cased name followed by `Level`. That key is one of the five
      the skill purchases raise, and the entry is false when a loaded save
      lacks it. */
  lemma SkillAchievementReadsLevel(s: State, a: Achievement)
    requires KnownKind(a.kind) && a.kind.SkillAtLeast?
    ensures var key := ToLower(a.kind.skillName) + "Level";
      && key in InitialSkills
      && (Holds(s, a) <==> key in s.skills && s.skills[key] >= a.threshold)
  {
    SkillKeys();
  }

  /** The five skill entries and the keys they read. */
  lemma SkillKeysByName()
    ensures ToLower("Body") + "Level" == "bodyLevel"
    ensures ToLower("Reflexes") + "Level" == "reflexesLevel"
    ensures ToLower("Technical") + "Level" == "technicalLevel"
    ensures ToLower("Intelligence") + "Level" == "intelligenceLevel"
    ensures ToLower("Cool") + "Level" == "coolLevel"
  {
    SkillStems();
    assert "body" + "Level" == "bodyLevel";
    assert "reflexes" + "Level" == "reflexesLevel";
    assert "technical" + "Level" == "technicalLevel";
    assert "intelligence" + "Level" == "intelligenceLevel";
    assert "cool" + "Level" == "coolLevel";
  }
}
