/** The save snapshot written by `saveGame` and read back by `loadGame`.
    The storage itself and the JSON text are not modelled: a save is the
    snapshot value, and "nothing saved" is `None`. */
module Persistence {
  import opened Options
  import opened Numbers
  import opened Economy

  /** What a save keeps of an upgrade: its id, count and cached flag. */
  datatype SavedUpgrade = SavedUpgrade(id: string, count: int, lastAffordable: bool)

  /** The saved object. A save written by another version may lack the
      upgrade list or the unlocked list, which `None` stands for. */
  datatype Snapshot = Snapshot(
    money: real,
    clickPower: real,
    passiveIncome: real,
    upgrades: Option<seq<SavedUpgrade>>,
    skills: map<string, int>,
    lastUpdate: int,
    unlocked: Option<set<string>>)

  function SaveUpgrade(u: Upgrade): SavedUpgrade {
    SavedUpgrade(u.Id(), u.count, u.lastAffordable)
  }

  /** `saveData` as `saveGame` builds it. */
  function Save(s: State): (d: Snapshot)
    ensures d.upgrades.Some? && |d.upgrades.value| == |s.upgrades|
    ensures forall i :: 0 <= i < |s.upgrades| ==>
      d.upgrades.value[i].id == s.upgrades[i].Id() && d.upgrades.value[i].count == s.upgrades[i].count
  {
    Snapshot(s.money, s.clickPower, s.passiveIncome,
      Some(seq(|s.upgrades|, i requires 0 <= i < |s.upgrades| => SaveUpgrade(s.upgrades[i]))),
      s.skills, s.lastUpdate, Some(s.unlocked))
  }

  /** `saveData.upgrades.find(u => u.id === id)` */
  function FindSaved(saved: seq<SavedUpgrade>, id: string): (r: Option<SavedUpgrade>)
    ensures r.Some? ==> r.value in saved && r.value.id == id
    ensures r.None? ==> forall j :: 0 <= j < |saved| ==> saved[j].id != id
  {
    if saved == [] then None
    else if saved[0].id == id then Some(saved[0])
    else FindSaved(saved[1..], id)
  }

  /** The upgrade list rebuilt from the configurations, in their order, with
      the count and flag of the saved entry carrying the same id, or 0 and
      false when there is none. */
  function MergeUpgrades(saved: seq<SavedUpgrade>): (ups: seq<Upgrade>)
    ensures |ups| == |UpgradeConfigs|
    ensures forall i :: 0 <= i < |ups| ==> ups[i].config == UpgradeConfigs[i]
  {
    seq(|UpgradeConfigs|, i requires 0 <= i < |UpgradeConfigs| => MergedUpgrade(saved, i))
  }

  /** The element of the merge for the configuration at position i. */
  function MergedUpgrade(saved: seq<SavedUpgrade>, i: nat): Upgrade
    requires i < |UpgradeConfigs|
  {
    var found := FindSaved(saved, UpgradeConfigs[i].id);
    Upgrade(UpgradeConfigs[i],
      if found.Some? then found.value.count else 0,
      if found.Some? then found.value.lastAffordable else false)
  }

  /** `loadGame` with `now` for `Date.now()`. The scalars and the skills are
      taken wholesale, the upgrades are merged when the save has a list, the
      passive income of the time since the saved clock is added when that
      time is positive, and the unlocked set is the saved one or empty. */
  function AfterLoad(s: State, saved: Option<Snapshot>, now: int): (r: State)
    ensures WellFormed(s) ==> WellFormed(r)
    ensures saved.Some? ==> r.lastUpdate >= saved.value.lastUpdate
    ensures saved.Some? && saved.value.passiveIncome >= 0.0 ==> r.money >= saved.value.money
  {
    match saved
    case None => s
    case Some(d) =>
      var ups := if d.upgrades.Some? then MergeUpgrades(d.upgrades.value) else s.upgrades;
      var loaded := State(d.money, d.clickPower, d.passiveIncome, d.skills, ups, d.lastUpdate, s.unlocked);
      var offline := Seconds(now - d.lastUpdate);
      var caughtUp :=
        if offline > 0.0 then loaded.(money := loaded.money + loaded.passiveIncome * offline, lastUpdate := now)
        else loaded;
      assert d.passiveIncome >= 0.0 ==> caughtUp.money >= d.money by {
        if d.passiveIncome >= 0.0 && offline > 0.0 { MulNonNegative(d.passiveIncome, offline); }
      }
      caughtUp.(unlocked := if d.unlocked.Some? then d.unlocked.value else {})
  }

  /** The search by id returns the first saved entry with that id. */
  lemma {:induction false} FindSavedFirst(saved: seq<SavedUpgrade>, id: string)
    ensures FindSaved(saved, id).None? <==> forall j :: 0 <= j < |saved| ==> saved[j].id != id
    ensures FindSaved(saved, id).Some? ==>
      exists j :: (0 <= j < |saved| && FindSaved(saved, id) == Some(saved[j]) &&
        saved[j].id == id && forall l :: 0 <= l < j ==> saved[l].id != id)
    decreases |saved|
  {
    if saved != [] && saved[0].id != id {
      FindSavedFirst(saved[1..], id);
      if FindSaved(saved[1..], id).Some? {
        var j :| 0 <= j < |saved[1..]| && FindSaved(saved[1..], id) == Some(saved[1..][j]) &&
          saved[1..][j].id == id && forall l :: 0 <= l < j ==> saved[1..][l].id != id;
        assert saved[j + 1] == saved[1..][j];
      }
    }
  }

  /** The merge by id: each configured upgrade, in configuration order, takes
      its count and flag from the first saved entry with its id, and gets 0
      and false when no entry has that id; ids of no configuration are
      dropped. */
  lemma MergeByFirstId(saved: seq<SavedUpgrade>, i: nat, j: nat)
    requires i < |UpgradeConfigs|
    ensures var r := MergeUpgrades(saved);
      && |r| == |UpgradeConfigs| && r[i].config == UpgradeConfigs[i]
      && ((forall l :: 0 <= l < |saved| ==> saved[l].id != UpgradeConfigs[i].id) ==>
            r[i].count == 0 && !r[i].lastAffordable)
      && (j < |saved| && saved[j].id == UpgradeConfigs[i].id &&
          (forall l :: 0 <= l < j ==> saved[l].id != UpgradeConfigs[i].id) ==>
            r[i].count == saved[j].count && r[i].lastAffordable == saved[j].lastAffordable)
  {
    var id := UpgradeConfigs[i].id;
    FindSavedFirst(saved, id);
    if j < |saved| && saved[j].id == id && (forall l :: 0 <= l < j ==> saved[l].id != id) {
      var k :| 0 <= k < |saved| && FindSaved(saved, id) == Some(saved[k]) &&
        saved[k].id == id && forall l :: 0 <= l < k ==> saved[l].id != id;
    }
  }

  /** No save leaves the game as it was; a save without an upgrade list
      leaves the upgrades as they were. */
  lemma LoadWithoutData(s: State, saved: Option<Snapshot>, now: int)
    ensures saved.None? ==> AfterLoad(s, saved, now) == s
    ensures saved.Some? && saved.value.upgrades.None? ==> AfterLoad(s, saved, now).upgrades == s.upgrades
  {
  }

  /** The offline catch-up: with a positive time since the saved clock,
      money grows by the saved passive income times that many seconds and
      the clock moves to `now`; otherwise both keep their saved values. The
      skills are the saved object and the unlocked set the saved one or empty. */
  lemma LoadedFields(s: State, d: Snapshot, now: int)
    ensures var r := AfterLoad(s, Some(d), now);
      && r.clickPower == d.clickPower && r.passiveIncome == d.passiveIncome && r.skills == d.skills
      && (now > d.lastUpdate ==>
            r.money == d.money + d.passiveIncome * Seconds(now - d.lastUpdate) && r.lastUpdate == now)
      && (now <= d.lastUpdate ==> r.money == d.money && r.lastUpdate == d.lastUpdate)
      && r.unlocked == (if d.unlocked.Some? then d.unlocked.value else {})
  {
    if now <= d.lastUpdate {
      assert Seconds(now - d.lastUpdate) <= 0.0;
    } else {
      assert Seconds(now - d.lastUpdate) > 0.0;
    }
  }

  /** Saving and loading a well-formed state with a clock that has not
      moved on restores it exactly, whatever state the load starts from. */
  lemma SaveLoadRoundTrip(start: State, s: State, now: int)
    requires WellFormed(s) && now <= s.lastUpdate
    ensures AfterLoad(start, Some(Save(s)), now) == s
  {
    var saved := Save(s).upgrades.value;
    var merged := MergeUpgrades(saved);
    forall i | 0 <= i < |UpgradeConfigs|
      ensures merged[i] == s.upgrades[i]
    {
      MergeByFirstId(saved, i, i);
      assert saved[i] == SaveUpgrade(s.upgrades[i]);
      forall l | 0 <= l < i
        ensures saved[l].id != UpgradeConfigs[i].id
      {
        assert saved[l].id == UpgradeConfigs[l].id;
      }
    }
    assert merged == s.upgrades;
    LoadedFields(start, Save(s), now);
  }
}
