/**
 * The weapon table: 27 weapons registered by id, a random pick among them, and a random pick among
 * those of one rarity. `rand()` is given as an argument: any natural number may be drawn.
 */
module Weapons {

  /** One record of the table. */
  datatype WeaponData = WeaponData(name: string, description: string, damage: int, rarity: string, ranged: bool, stun: bool)

  /** The record `operator[]` default-constructs for an id that has none. */
  const NoWeapon: WeaponData := WeaponData("", "", 0, "", false, false)

  /** The ids `lo`, `lo + 1`, ..., `hi - 1` in order. */
  function Range(lo: int, hi: int): (r: seq<int>)
    ensures |r| == if lo <= hi then hi - lo else 0
    ensures forall k :: 0 <= k < |r| ==> r[k] == lo + k
    decreases hi - lo
  {
    if lo >= hi then [] else [lo] + Range(lo + 1, hi)
  }

  /** The records the constructor registers, in order: the record of id `k` is at position `k - 1`. */
  const Table: seq<WeaponData> := TableLow + TableMiddle + TableHigh

  /** Ids 1 to 9. */
  const TableLow: seq<WeaponData> := [
    WeaponData("Plasma Rifle", "A high-energy weapon that fires concentrated plasma bolts.", 45, "Rare", true, false),
    WeaponData("Laser Pistol", "A compact, high-precision laser pistol ideal for close combat.", 25, "Common", true, false),
    WeaponData("Icicle", "A grenade that releases a freezing gas upon hit, freezing enemies.", 35, "Uncommon", false, true),
    WeaponData("Sonic Blaster", "Emits sound waves capable of shattering solid objects.", 40, "Rare", true, true),
    WeaponData("Electro Blade", "A sword infused with electrical energy, delivering a shock with each strike.", 30, "Uncommon", false, true),
    WeaponData("Ion Cannon", "A heavy-duty weapon that fires a massive ion beam, effective against armored targets.", 60, "Epic", true, true),
    WeaponData("Pulse Rifle", "Fires rapid bursts of energy pulses, excellent for crowd control.", 38, "Common", true, true),
    WeaponData("Nano Sword", "A blade composed of nanobots, able to cut through virtually anything.", 50, "Epic", false, false),
    WeaponData("Graviton Hammer", "A weapon that manipulates gravity to deliver devastating blows.", 55, "Legendary", false, true)
  ]

  /** Ids 10 to 18. */
  const TableMiddle: seq<WeaponData> := [
    WeaponData("Neutron Bomb", "A bomb that releases neutron radiation, lethal to organic life.", 100, "Legendary", true, false),
    WeaponData("Crysknife", "A sacred knife made from the tooth of a sandworm. Deadly in close combat.", 50, "Rare", false, false),
    WeaponData("Maula Pistol", "A small, easily concealable projectile weapon used by assassins.", 25, "Common", false, false),
    WeaponData("Lasgun", "A powerful beam weapon capable of cutting through almost any material.", 60, "Uncommon", false, false),
    WeaponData("Spice Grenade", "An explosive that disperses spice particles, causing hallucinations and disorientation.", 50, "Epic", true, true),
    WeaponData("Gom Jabbar", "A needle-like weapon that delivers a lethal poison. Used in specific assassination rituals.", 100, "Legendary", false, false),
    WeaponData("Hunter-Seeker", "A remote-controlled assassination device that seeks out its target with precision.", 45, "Epic", true, false),
    WeaponData("Stunner", "A non-lethal weapon used to incapacitate enemies, commonly used by law enforcement.", 20, "Common", false, true),
    WeaponData("Spice-Enhanced Blade", "A blade tempered with the essence of spice, increasing its sharpness and durability.", 55, "Epic", false, true)
  ]

  /** Ids 19 to 27. */
  const TableHigh: seq<WeaponData> := [
    WeaponData("Shai-Hulud's Tooth", "A weapon made from a sandworm tooth, infused with the power of the desert.", 70, "Legendary", false, false),
    WeaponData("Weirding Module", "A sound-based weapon that amplifies the voice of its user to deliver devastating sonic attacks.", 70, "Legendary", true, true),
    WeaponData("Sand Compactor", "A tool-turned-weapon that uses compressed sand to create projectiles.", 30, "Uncommon", true, false),
    WeaponData("Fremen Hook", "A specialized tool used by the Fremen to ride sandworms, can also be used as a weapon.", 40, "Rare", false, true),
    WeaponData("Injector Dart", "A small dart that can deliver a variety of substances, from tranquilizers to lethal toxins.", 35, "Uncommon", true, true),
    WeaponData("Spice Harvester's Wrench", "A large, heavy tool used in spice harvesting, repurposed as a weapon.", 45, "Common", true, false),
    WeaponData("Glowglobe Bomb", "A light-emitting device that can be overloaded to explode, blinding enemies temporarily.", 20, "Uncommon", true, true),
    WeaponData("Stilgar's Blade", "A unique knife belonging to the legendary Fremen leader Stilgar, revered for its history.", 55, "Epic", false, false),
    WeaponData("Sardaukar Blade", "A razor-sharp sword used by the elite Sardaukar troops, feared across the galaxy.", 65, "Rare", false, false)
  ]

  /** The map registering `records` in order: id `k` for `k` in 1..n holds the `k`-th record. */
  function IdMap(records: seq<WeaponData>, n: nat): (m: map<int, WeaponData>)
    requires n <= |records|
    ensures forall id :: id in m <==> 1 <= id <= n
    ensures forall id :: 1 <= id <= n ==> m[id] == records[id - 1]
  {
    if n == 0 then map[] else IdMap(records, n - 1)[n := records[n - 1]]
  }

  /** The ids of the weapons of one rarity. */
  ghost function RarityIds(weapons: map<int, WeaponData>, rarity: string): set<int>
  {
    set id | id in weapons && weapons[id].rarity == rarity
  }

  /** The five rarities the table uses. */
  const Rarities: set<string> := {"Common", "Uncommon", "Rare", "Epic", "Legendary"}

  /** A record with a name and one of the five rarities. */
  predicate RecordOk(w: WeaponData)
  {
    w.name != [] && w.rarity in Rarities
  }

  /** Every record of the table has a name and one of the five rarities (checked record by record). */
  lemma TableRecords()
    ensures forall i :: 0 <= i < |Table| ==> RecordOk(Table[i])
  {
    TableLowRecords();
    TableMiddleRecords();
    TableHighRecords();
    AppendRecords(TableLow, TableMiddle, TableHigh);
  }

  lemma AppendRecords(a: seq<WeaponData>, b: seq<WeaponData>, c: seq<WeaponData>)
    requires forall i :: 0 <= i < |a| ==> RecordOk(a[i])
    requires forall i :: 0 <= i < |b| ==> RecordOk(b[i])
    requires forall i :: 0 <= i < |c| ==> RecordOk(c[i])
    ensures forall i :: 0 <= i < |a + b + c| ==> RecordOk((a + b + c)[i])
  {
  }

  lemma TableLowRecords()
    ensures forall i :: 0 <= i < |TableLow| ==> RecordOk(TableLow[i])
  {
  }

  lemma TableMiddleRecords()
    ensures forall i :: 0 <= i < |TableMiddle| ==> RecordOk(TableMiddle[i])
  {
  }

  lemma TableHighRecords()
    ensures forall i :: 0 <= i < |TableHigh| ==> RecordOk(TableHigh[i])
  {
  }

  /**
   * The initial table: every weapon has a name and one of the five rarities, so no weapon has any
   * other rarity.
   */
  lemma InitialTable()
    ensures forall id :: id in IdMap(Table, |Table|) ==> IdMap(Table, |Table|)[id].name != []
    ensures forall r :: r !in Rarities ==> RarityIds(IdMap(Table, |Table|), r) == {}
  {
    TableRecords();
    RegisteredRecords(Table);
  }

  /** Weapon 1 is the Plasma Rifle, a Rare weapon, and weapon 2 is Common. */
  lemma FirstWeapons()
    ensures IdMap(Table, |Table|)[1] == WeaponData("Plasma Rifle", "A high-energy weapon that fires concentrated plasma bolts.", 45, "Rare", true, false)
    ensures 1 in RarityIds(IdMap(Table, |Table|), "Rare") && 2 in RarityIds(IdMap(Table, |Table|), "Common")
  {
    assert Table[0] == TableLow[0] && Table[1] == TableLow[1];
    RegisteredRarity(Table, 1);
    RegisteredRarity(Table, 2);
  }

  /** Each registered id is among the ids of its record's rarity. */
  lemma RegisteredRarity(records: seq<WeaponData>, id: int)
    requires 1 <= id <= |records|
    ensures id in RarityIds(IdMap(records, |records|), records[id - 1].rarity)
  {
  }

  /** Every weapon registered from records that all have a name and a known rarity has both. */
  lemma RegisteredRecords(records: seq<WeaponData>)
    requires forall i :: 0 <= i < |records| ==> RecordOk(records[i])
    ensures forall id :: id in IdMap(records, |records|) ==> RecordOk(IdMap(records, |records|)[id])
    ensures forall r :: r !in Rarities ==> RarityIds(IdMap(records, |records|), r) == {}
  {
    var m := IdMap(records, |records|);
    forall id | id in m
      ensures RecordOk(m[id])
    {
      assert m[id] == records[id - 1];
    }
  }

  class Weapon {
    var weapons: map<int, WeaponData>
    var weaponIds: seq<int>

    /** `Weapon::Weapon()`: registers the 27 weapons of `Table`, ids 1 to 27 in order. */
    constructor()
      ensures weaponIds == Range(1, 28)
      ensures weapons == IdMap(Table, |Table|)
      ensures forall id :: id in weaponIds ==> id in weapons
    {
      weapons := map[];
      weaponIds := [];
      new;
      RegisterAll(Table);
    }

    /** The constructor's run of `addWeapon` calls: record `k` of `records` under id `k`, in order. */
    method RegisterAll(records: seq<WeaponData>)
      requires weapons == map[] && weaponIds == []
      modifies this
      ensures weapons == IdMap(records, |records|) && weaponIds == Range(1, |records| + 1)
    {
      for i := 0 to |records|
        invariant weapons == IdMap(records, i) && weaponIds == Range(1, i + 1)
      {
        var w := records[i];
        AddWeapon(i + 1, w.name, w.description, w.damage, w.rarity, w.ranged, w.stun);
      }
    }

    /** `addWeapon`: stores or overwrites the record under `id` and appends `id` to the list. */
    method AddWeapon(id: int, name: string, description: string, damage: int, rarity: string, ranged: bool, stun: bool)
      modifies this
      ensures weapons == old(weapons)[id := WeaponData(name, description, damage, rarity, ranged, stun)]
      ensures weaponIds == old(weaponIds) + [id]
    {
      weapons := weapons[id := WeaponData(name, description, damage, rarity, ranged, stun)];
      weaponIds := weaponIds + [id];
    }

    /**
     * `giveRandWeapon`: the id at position `rnd % |weaponIds|`, an element of the list; every
     * position can come out. The list must not be empty (the source divides by its size).
     */
    method GiveRandWeapon(rnd: nat) returns (id: int)
      requires |weaponIds| > 0
      ensures id in weaponIds
      ensures rnd < |weaponIds| ==> id == weaponIds[rnd]
    {
      var randomIndex := rnd % |weaponIds|;
      id := weaponIds[randomIndex];
    }

    /**
     * `giveRariWeapon`: collects the ids of the given rarity, visiting the table in an unspecified
     * order, and returns the one at position `rnd % count`; -1 when there is none.
     */
    method GiveRariWeapon(rarity: string, rnd: nat) returns (id: int)
      ensures RarityIds(weapons, rarity) == {} ==> id == -1
      ensures RarityIds(weapons, rarity) != {} ==> id in weapons && weapons[id].rarity == rarity
      ensures -1 !in weapons ==> (id == -1 <==> RarityIds(weapons, rarity) == {})
    {
      var filteredIds: seq<int> := [];
      var remaining := weapons;
      while remaining != map[]
        invariant forall k :: k in remaining ==> k in weapons && remaining[k] == weapons[k]
        invariant forall k :: k in filteredIds <==> k in weapons && k !in remaining && weapons[k].rarity == rarity
        decreases |remaining|
      {
        var weapon :| weapon in remaining.Items;
        if weapon.1.rarity == rarity {
          filteredIds := filteredIds + [weapon.0];
        }
        remaining := remaining - {weapon.0};
      }
      if filteredIds != [] {
        var randomIndex := rnd % |filteredIds|;
        id := filteredIds[randomIndex];
        assert id in weapons;
      } else {
        id := -1;
        assert forall k :: k in RarityIds(weapons, rarity) ==> k in filteredIds;
      }
    }

    /**
     * `weapons[weaponId]`: the record under the id, inserting the default record when there is
     * none; the id list is left alone.
     */
    method Record(weaponId: int) returns (w: WeaponData)
      modifies this`weapons
      ensures weaponId in old(weapons) ==> w == old(weapons)[weaponId] && weapons == old(weapons)
      ensures weaponId !in old(weapons) ==> w == NoWeapon && weapons == old(weapons)[weaponId := NoWeapon]
    {
      if weaponId !in weapons {
        weapons := weapons[weaponId := NoWeapon];
      }
      w := weapons[weaponId];
    }

    /** `getName`: the weapon's name, "" for an unregistered id (which `operator[]` then registers in the map). */
    method GetName(weaponId: int) returns (name: string)
      modifies this`weapons
      ensures name == if weaponId in old(weapons) then old(weapons)[weaponId].name else ""
      ensures weapons == if weaponId in old(weapons) then old(weapons) else old(weapons)[weaponId := NoWeapon]
    {
      var w := Record(weaponId);
      name := w.name;
    }

    /** `getDescription`: the weapon's description, "" for an unregistered id. */
    method GetDescription(weaponId: int) returns (description: string)
      modifies this`weapons
      ensures description == if weaponId in old(weapons) then old(weapons)[weaponId].description else ""
      ensures weapons == if weaponId in old(weapons) then old(weapons) else old(weapons)[weaponId := NoWeapon]
    {
      var w := Record(weaponId);
      description := w.description;
    }

    /** `getDamage`: the weapon's damage, 0 for an unregistered id. */
    method GetDamage(weaponId: int) returns (damage: int)
      modifies this`weapons
      ensures damage == if weaponId in old(weapons) then old(weapons)[weaponId].damage else 0
      ensures weapons == if weaponId in old(weapons) then old(weapons) else old(weapons)[weaponId := NoWeapon]
    {
      var w := Record(weaponId);
      damage := w.damage;
    }

    /** `getRarity`: the weapon's rarity, "" for an unregistered id. */
    method GetRarity(weaponId: int) returns (rarity: string)
      modifies this`weapons
      ensures rarity == if weaponId in old(weapons) then old(weapons)[weaponId].rarity else ""
      ensures weapons == if weaponId in old(weapons) then old(weapons) else old(weapons)[weaponId := NoWeapon]
    {
      var w := Record(weaponId);
      rarity := w.rarity;
    }

    /** `getRanged`: whether the weapon is ranged, false for an unregistered id. */
    method GetRanged(weaponId: int) returns (ranged: bool)
      modifies this`weapons
      ensures ranged == (weaponId in old(weapons) && old(weapons)[weaponId].ranged)
      ensures weapons == if weaponId in old(weapons) then old(weapons) else old(weapons)[weaponId := NoWeapon]
    {
      var w := Record(weaponId);
      ranged := w.ranged;
    }

    /** `getStun`: whether the weapon stuns, false for an unregistered id. */
    method GetStun(weaponId: int) returns (stun: bool)
      modifies this`weapons
      ensures stun == (weaponId in old(weapons) && old(weapons)[weaponId].stun)
      ensures weapons == if weaponId in old(weapons) then old(weapons) else old(weapons)[weaponId := NoWeapon]
    {
      var w := Record(weaponId);
      stun := w.stun;
    }
  }
}
