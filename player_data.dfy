/** The meta-profile: the account's permanent gold, blood shards, experience, level,
    unlocked items and chosen loadout, kept in memory and mirrored into browser storage
    after every change. */
module PlayerData {
  import opened Options

  /** The chosen weapon and ability. A field is `None` when the object lacks it, which
      happens when a stored loadout is missing a key or a menu click picks from an empty
      list. */
  datatype Loadout = Loadout(weapon: Option<string>, ability: Option<string>)

  /** The in-memory record. */
  datatype Profile = Profile(
    totalGold: int,
    bloodShards: int,
    metaXp: int,
    accountLevel: int,
    unlockedWeapons: seq<string>,
    unlockedAbilities: seq<string>,
    currentLoadout: Loadout)

  /** What the storage slot holds once parsed: every top-level key may be missing. */
  datatype SavedProfile = SavedProfile(
    totalGold: Option<int>,
    bloodShards: Option<int>,
    metaXp: Option<int>,
    accountLevel: Option<int>,
    unlockedWeapons: Option<seq<string>>,
    unlockedAbilities: Option<seq<string>>,
    currentLoadout: Option<Loadout>)

  const STARTER_WEAPON := "Zrezivělý Meč"
  const SECOND_WEAPON := "Lovecká Kuše"
  const STARTER_ABILITY := "Sprint"
  const SECOND_ABILITY := "Léčení"

  /** Experience needed per account level: level `L` completes at `L * 1000`. */
  const XP_PER_LEVEL := 1000

  /** The record a new manager starts from before loading. */
  function Defaults(): (d: Profile)
    ensures d.totalGold == 0 && d.bloodShards == 0 && d.metaXp == 0 && d.accountLevel == 1
    ensures |d.unlockedWeapons| == 2 && d.currentLoadout.weapon == Some(d.unlockedWeapons[0])
    ensures |d.unlockedAbilities| == 2 && d.currentLoadout.ability == Some(d.unlockedAbilities[0])
  {
    Profile(0, 0, 0, 1,
            [STARTER_WEAPON, SECOND_WEAPON],
            [STARTER_ABILITY, SECOND_ABILITY],
            Loadout(Some(STARTER_WEAPON), Some(STARTER_ABILITY)))
  }

  /** What `save` writes: the whole record, every key present, so that merging it into
      any record gives back exactly the record that was saved. */
  function Snapshot(d: Profile): (s: SavedProfile)
    ensures s.totalGold.Some? && s.bloodShards.Some? && s.metaXp.Some? && s.accountLevel.Some?
    ensures s.unlockedWeapons.Some? && s.unlockedAbilities.Some? && s.currentLoadout.Some?
    ensures forall base :: Merge(base, s) == d
  {
    SavedProfile(Some(d.totalGold), Some(d.bloodShards), Some(d.metaXp), Some(d.accountLevel),
                 Some(d.unlockedWeapons), Some(d.unlockedAbilities), Some(d.currentLoadout))
  }

  /** The object spread `{ ...base, ...saved }`: each key present in the saved record
      replaces the base value wholesale (the nested loadout included), each missing key
      keeps the base value. */
  function Merge(base: Profile, saved: SavedProfile): (r: Profile)
    ensures r.totalGold == (if saved.totalGold.Some? then saved.totalGold.value else base.totalGold)
    ensures r.bloodShards == (if saved.bloodShards.Some? then saved.bloodShards.value else base.bloodShards)
    ensures r.metaXp == (if saved.metaXp.Some? then saved.metaXp.value else base.metaXp)
    ensures r.accountLevel == (if saved.accountLevel.Some? then saved.accountLevel.value else base.accountLevel)
    ensures r.unlockedWeapons == (if saved.unlockedWeapons.Some? then saved.unlockedWeapons.value else base.unlockedWeapons)
    ensures r.unlockedAbilities == (if saved.unlockedAbilities.Some? then saved.unlockedAbilities.value else base.unlockedAbilities)
    ensures r.currentLoadout == (if saved.currentLoadout.Some? then saved.currentLoadout.value else base.currentLoadout)
  {
    Profile(saved.totalGold.GetOr(base.totalGold),
            saved.bloodShards.GetOr(base.bloodShards),
            saved.metaXp.GetOr(base.metaXp),
            saved.accountLevel.GetOr(base.accountLevel),
            saved.unlockedWeapons.GetOr(base.unlockedWeapons),
            saved.unlockedAbilities.GetOr(base.unlockedAbilities),
            saved.currentLoadout.GetOr(base.currentLoadout))
  }

  /** `load`: merge when the storage slot holds something, keep the record otherwise. */
  function Restore(base: Profile, stored: Option<SavedProfile>): (r: Profile)
    ensures stored.None? ==> r == base
    ensures stored.Some? && stored.value.currentLoadout.Some? ==>
              r.currentLoadout == stored.value.currentLoadout.value
    ensures stored.Some? && stored.value.currentLoadout.None? ==>
              r.currentLoadout == base.currentLoadout
    ensures stored.Some? && stored.value.accountLevel.None? ==> r.accountLevel == base.accountLevel
    ensures stored.Some? && stored.value.totalGold.None? ==> r.totalGold == base.totalGold
  {
    match stored
    case None => base
    case Some(saved) => Merge(base, saved)
  }

  /** Save then load gives back exactly the record that was saved, whatever the
      in-memory record was when loading. */
  lemma RestoreSnapshot(base: Profile, d: Profile)
    ensures Restore(base, Some(Snapshot(d))) == d
  {
  }

  /** Loading a record without any keys changes nothing. */
  lemma RestoreEmpty(base: Profile)
    ensures Restore(base, Some(SavedProfile(None, None, None, None, None, None, None))) == base
  {
  }

  /** The nested loadout is replaced, not merged: a stored loadout that lacks its
      ability leaves the loaded profile without one, although the defaults have one. */
  lemma LoadoutReplacedNotMerged()
    ensures var saved := SavedProfile(None, None, None, None, None, None, Some(Loadout(Some(SECOND_WEAPON), None)));
      && Defaults().currentLoadout.ability == Some(STARTER_ABILITY)
      && Restore(Defaults(), Some(saved)).currentLoadout == Loadout(Some(SECOND_WEAPON), None)
  {
  }

  /** `addMetaXp`: add the experience, then level up AT MOST ONCE, when the new total
      reaches the current level's threshold. */
  function GrantMetaXp(d: Profile, amount: int): (r: Profile)
    ensures r.accountLevel == d.accountLevel || r.accountLevel == d.accountLevel + 1
    ensures r.accountLevel == d.accountLevel + 1 <==> d.metaXp + amount >= d.accountLevel * XP_PER_LEVEL
    ensures r.accountLevel == d.accountLevel ==> r.metaXp == d.metaXp + amount
    ensures r.accountLevel == d.accountLevel + 1 ==>
              r.metaXp == d.metaXp + amount - d.accountLevel * XP_PER_LEVEL
    ensures d.metaXp >= 0 && amount >= 0 ==> r.metaXp >= 0
    ensures r.(metaXp := d.metaXp, accountLevel := d.accountLevel) == d
  {
    var xp := d.metaXp + amount;
    var nextLevelXp := d.accountLevel * XP_PER_LEVEL;
    if xp >= nextLevelXp then d.(accountLevel := d.accountLevel + 1, metaXp := xp - nextLevelXp)
    else d.(metaXp := xp)
  }

  /** All experience the account has ever earned: the thresholds of the levels it has
      completed plus what it holds towards the next one. */
  function LevelBase(level: int): (r: int)
    ensures level >= 1 ==> 2 * r == (level - 1) * level * XP_PER_LEVEL
    decreases level
  {
    if level <= 1 then 0 else LevelBase(level - 1) + (level - 1) * XP_PER_LEVEL
  }

  function LifetimeXp(d: Profile): int {
    LevelBase(d.accountLevel) + d.metaXp
  }

  /** A grant never loses or invents experience: lifetime experience grows by exactly
      the amount, level-up or not. */
  lemma GrantKeepsLifetimeXp(d: Profile, amount: int)
    requires d.accountLevel >= 1
    ensures LifetimeXp(GrantMetaXp(d, amount)) == LifetimeXp(d) + amount
  {
  }

  /** Splitting a grant into two parts yields the same lifetime experience as one grant. */
  lemma SplitGrantSameLifetimeXp(d: Profile, a: int, b: int)
    requires d.accountLevel >= 1
    ensures LifetimeXp(GrantMetaXp(GrantMetaXp(d, a), b)) == LifetimeXp(GrantMetaXp(d, a + b))
  {
    GrantKeepsLifetimeXp(d, a);
    GrantKeepsLifetimeXp(GrantMetaXp(d, a), b);
    GrantKeepsLifetimeXp(d, a + b);
  }

  /** The level and experience an account settles at when levels are taken repeatedly:
      while the experience held reaches the current level times 1000, that amount is
      subtracted and the level goes up by one. */
  function Settle(level: int, xp: int): (r: (int, int))
    requires level >= 1
    ensures r.0 >= level
    ensures xp >= 0 ==> 0 <= r.1
    ensures r.1 < r.0 * XP_PER_LEVEL
    decreases xp
  {
    if xp < level * XP_PER_LEVEL then (level, xp)
    else Settle(level + 1, xp - level * XP_PER_LEVEL)
  }

  /** Under repeated level-ups a grant may be split freely: settling `x` and then adding
      `b` ends where settling `x + b` at once does. */
  lemma {:induction false} SettleSplit(level: int, x: int, b: int)
    requires level >= 1 && x >= 0 && b >= 0
    ensures var first := Settle(level, x);
      Settle(first.0, first.1 + b) == Settle(level, x + b)
    decreases x
  {
    if x >= level * XP_PER_LEVEL {
      SettleSplit(level + 1, x - level * XP_PER_LEVEL, b);
    }
  }

  /** Whenever a grant crosses at most one threshold, the single `if` of `addMetaXp`
      ends in the same state as repeated level-ups would. */
  lemma {:induction false} GrantAgreesWithSettle(d: Profile, amount: int)
    requires d.accountLevel >= 1 && amount >= 0
    requires 0 <= d.metaXp < d.accountLevel * XP_PER_LEVEL
    requires d.metaXp + amount < (2 * d.accountLevel + 1) * XP_PER_LEVEL
    ensures var r := GrantMetaXp(d, amount);
      (r.accountLevel, r.metaXp) == Settle(d.accountLevel, d.metaXp + amount)
  {
    var L := d.accountLevel;
    var xp := d.metaXp + amount;
    if xp >= L * XP_PER_LEVEL {
      assert xp - L * XP_PER_LEVEL < (L + 1) * XP_PER_LEVEL;
      assert Settle(L + 1, xp - L * XP_PER_LEVEL) == (L + 1, xp - L * XP_PER_LEVEL);
    }
  }

  /** One large grant and the same amount split in two end in different states: from a
      fresh account, 3000 at once gives level 2 with 2000 left over, while 1000 then 2000
      gives level 3 with nothing left over. Repeated level-ups would give level 3 with 0
      either way. */
  lemma SplitGrantDiverges()
    ensures GrantMetaXp(Defaults(), 3000).accountLevel == 2
    ensures GrantMetaXp(Defaults(), 3000).metaXp == 2000
    ensures GrantMetaXp(GrantMetaXp(Defaults(), 1000), 2000).accountLevel == 3
    ensures GrantMetaXp(GrantMetaXp(Defaults(), 1000), 2000).metaXp == 0
    ensures Settle(1, 3000) == (3, 0)
  {
    assert Settle(1, 3000) == Settle(2, 2000) == Settle(3, 0);
  }

  /** The profile manager: the record in `data` and the storage slot in `store`. */
  class PlayerDataManager {
    var data: Profile
    var store: Option<SavedProfile>

    /** Storage mirrors the in-memory record, as it does after every mutator. */
    predicate Synced()
      reads this
    {
      store == Some(Snapshot(data))
    }

    /** Starts from the defaults and loads whatever the storage slot already holds;
        loading writes nothing back. */
    constructor (stored: Option<SavedProfile>)
      ensures store == stored
      ensures data == Restore(Defaults(), stored)
    {
      data := Defaults();
      store := stored;
      new;
      Load();
    }

    method Save()
      modifies this`store
      ensures Synced()
    {
      store := Some(Snapshot(data));
    }

    method Load()
      modifies this`data
      ensures data == Restore(old(data), store)
    {
      if store.Some? {
        data := Merge(data, store.value);
      }
    }

    method AddGold(amount: int)
      modifies this
      ensures data == old(data).(totalGold := old(data).totalGold + amount)
      ensures Synced()
    {
      data := data.(totalGold := data.totalGold + amount);
      Save();
    }

    method AddShards(amount: int)
      modifies this
      ensures data == old(data).(bloodShards := old(data).bloodShards + amount)
      ensures Synced()
    {
      data := data.(bloodShards := data.bloodShards + amount);
      Save();
    }

    method AddMetaXp(amount: int)
      modifies this
      ensures data == GrantMetaXp(old(data), amount)
      ensures Synced()
    {
      data := data.(metaXp := data.metaXp + amount);
      var nextLevelXp := data.accountLevel * XP_PER_LEVEL;
      if data.metaXp >= nextLevelXp {
        data := data.(accountLevel := data.accountLevel + 1);
        data := data.(metaXp := data.metaXp - nextLevelXp);
      }
      Save();
    }

    method SetLoadout(weapon: Option<string>, ability: Option<string>)
      modifies this
      ensures data == old(data).(currentLoadout := Loadout(weapon, ability))
      ensures Synced()
    {
      data := data.(currentLoadout := data.currentLoadout.(weapon := weapon));
      data := data.(currentLoadout := data.currentLoadout.(ability := ability));
      Save();
    }

    method GetLoadout() returns (l: Loadout)
      ensures l == data.currentLoadout
    {
      l := data.currentLoadout;
    }
  }

  /** Setting a loadout and reading it back gives exactly the pair that was set, and
      leaves the currencies, experience and level alone. */
  method SetThenGetLoadout(p: PlayerDataManager, weapon: Option<string>, ability: Option<string>)
    returns (l: Loadout)
    modifies p
    ensures l == Loadout(weapon, ability)
    ensures p.data.totalGold == old(p.data.totalGold) && p.data.bloodShards == old(p.data.bloodShards)
    ensures p.data.metaXp == old(p.data.metaXp) && p.data.accountLevel == old(p.data.accountLevel)
    ensures p.Synced()
  {
    p.SetLoadout(weapon, ability);
    l := p.GetLoadout();
  }
}
