/** The loadout picker of the main menu: one index into the unlocked weapons and one
    into the unlocked abilities, each advanced cyclically by its "next" button, with
    every click writing the selected pair to the profile. */
module Menu {
  import opened Options
  import opened PlayerData

  /** A list position as JavaScript computes it: `Num(i)`, or `NaN`, which is what
      `(i + 1) % 0` gives when a list is empty. */
  datatype Index = Num(i: nat) | NaN

  /** `Array.prototype.indexOf`: the first position holding `x`, or -1. Looking up
      `undefined` in a list of strings finds nothing. */
  function IndexOf(s: seq<string>, x: Option<string>): (r: int)
    ensures -1 <= r < |s|
    ensures r == -1 <==> x.None? || x.value !in s
    ensures r >= 0 ==> x == Some(s[r]) && forall j :: 0 <= j < r ==> Some(s[j]) != x
  {
    if x.None? || |s| == 0 then -1
    else if s[0] == x.value then 0
    else
      var k := IndexOf(s[1..], x);
      if k == -1 then -1 else k + 1
  }

  /** The starting index: where the loadout item sits in the list, or 0 when it is absent. */
  function StartIndex(s: seq<string>, x: Option<string>): (r: nat)
    ensures |s| > 0 ==> r < |s|
    ensures x.Some? && x.value in s ==> s[r] == x.value && forall j :: 0 <= j < r ==> s[j] != x.value
    ensures x.None? || x.value !in s ==> r == 0
  {
    var i := IndexOf(s, x);
    if i == -1 then 0 else i
  }

  /** One press of a "next" button: `(i + 1) % length`. */
  function Next(idx: Index, length: nat): (r: Index)
    ensures length == 0 ==> r == NaN
    ensures idx.Num? && idx.i < length ==> r.Num? && r.i < length
    ensures idx.Num? && idx.i + 1 < length ==> r == Num(idx.i + 1)
    ensures idx.Num? && idx.i + 1 == length ==> r == Num(0)
  {
    match idx
    case NaN => NaN
    case Num(i) => if length == 0 then NaN else Num((i + 1) % length)
  }

  /** `list[idx]`: `undefined` past the end or at `NaN`. */
  function ItemAt(s: seq<string>, idx: Index): (r: Option<string>)
    ensures r.Some? <==> idx.Num? && idx.i < |s|
    ensures r.Some? ==> r.value == s[idx.i]
  {
    if idx.Num? && idx.i < |s| then Some(s[idx.i]) else None
  }

  /** `k` presses in a row. */
  function Presses(idx: Index, length: nat, k: nat): Index {
    if k == 0 then idx else Next(Presses(idx, length, k - 1), length)
  }

  /** From position `i`, `k` presses that do not reach the end of the list move to `i + k`. */
  lemma {:induction false} PressesBeforeWrap(i: nat, length: nat, k: nat)
    requires i + k < length
    ensures Presses(Num(i), length, k) == Num(i + k)
  {
    if k > 0 {
      PressesBeforeWrap(i, length, k - 1);
    }
  }

  /** From position `i`, `k` presses that wrap once land on `i + k - length`. */
  lemma {:induction false} PressesAfterWrap(i: nat, length: nat, k: nat)
    requires i < length <= i + k < 2 * length
    ensures Presses(Num(i), length, k) == Num(i + k - length)
  {
    if i + k == length {
      PressesBeforeWrap(i, length, k - 1);
    } else {
      PressesAfterWrap(i, length, k - 1);
    }
  }

  /** Pressing "next" `length` times comes back to where it started. */
  lemma FullCycle(i: nat, length: nat)
    requires i < length
    ensures Presses(Num(i), length, length) == Num(i)
  {
    PressesAfterWrap(i, length, length);
  }

  /** The loadout part of the menu scene. The lists are the profile's unlocked lists as
      they were when the menu was built; the indices are the variables the two click
      handlers share. */
  class MenuScene {
    const profile: PlayerDataManager
    const weapons: seq<string>
    const abilities: seq<string>
    var weaponIdx: Index
    var abilityIdx: Index

    /** Both indices point into their lists, as long as the lists are non-empty. */
    ghost predicate InRange()
      reads this
    {
      && (|weapons| > 0 ==> weaponIdx.Num? && weaponIdx.i < |weapons|)
      && (|abilities| > 0 ==> abilityIdx.Num? && abilityIdx.i < |abilities|)
    }

    /** Builds the loadout picker: each index starts at the loadout item's position, or 0
        when it is not unlocked. Building the picker writes nothing to the profile. */
    constructor (profile: PlayerDataManager)
      ensures this.profile == profile
      ensures weapons == profile.data.unlockedWeapons && abilities == profile.data.unlockedAbilities
      ensures weaponIdx == Num(StartIndex(weapons, profile.data.currentLoadout.weapon))
      ensures abilityIdx == Num(StartIndex(abilities, profile.data.currentLoadout.ability))
      ensures InRange()
    {
      this.profile := profile;
      weapons := profile.data.unlockedWeapons;
      abilities := profile.data.unlockedAbilities;
      var w := IndexOf(profile.data.unlockedWeapons, profile.data.currentLoadout.weapon);
      var a := IndexOf(profile.data.unlockedAbilities, profile.data.currentLoadout.ability);
      if w == -1 { w := 0; }
      if a == -1 { a := 0; }
      weaponIdx := Num(w);
      abilityIdx := Num(a);
    }

    /** The weapon "next" button: advance the weapon index only, then store the pair. */
    method NextWeapon()
      modifies this, profile
      ensures weaponIdx == Next(old(weaponIdx), |weapons|) && abilityIdx == old(abilityIdx)
      ensures old(InRange()) ==> InRange()
      ensures profile.data == old(profile.data).(currentLoadout :=
                Loadout(ItemAt(weapons, weaponIdx), ItemAt(abilities, abilityIdx)))
      ensures profile.Synced()
    {
      weaponIdx := Next(weaponIdx, |weapons|);
      UpdateSelection(ItemAt(weapons, weaponIdx), ItemAt(abilities, abilityIdx));
    }

    /** The ability "next" button: advance the ability index only, then store the pair. */
    method NextAbility()
      modifies this, profile
      ensures abilityIdx == Next(old(abilityIdx), |abilities|) && weaponIdx == old(weaponIdx)
      ensures old(InRange()) ==> InRange()
      ensures profile.data == old(profile.data).(currentLoadout :=
                Loadout(ItemAt(weapons, weaponIdx), ItemAt(abilities, abilityIdx)))
      ensures profile.Synced()
    {
      abilityIdx := Next(abilityIdx, |abilities|);
      UpdateSelection(ItemAt(weapons, weaponIdx), ItemAt(abilities, abilityIdx));
    }

    /** Stores the shown pair in the profile (the label updates are not modelled). */
    method UpdateSelection(weapon: Option<string>, ability: Option<string>)
      modifies profile
      ensures profile.data == old(profile.data).(currentLoadout := Loadout(weapon, ability))
      ensures profile.Synced()
    {
      profile.SetLoadout(weapon, ability);
    }
  }
}
