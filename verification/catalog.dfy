/**
 * The item catalog: the `items` array of the item-types module, one record per
 * item version (normal, enchanted, legendary), with the invariants every record
 * of the catalog keeps.
 */
module Catalog {
  import opened Options
  import opened ItemTypes

  /** Every item of the catalog, in catalog order. */
  const Items: seq<Item> := [
    OrbOfMastery, OrbOfMasteryEnchanted, OrbOfMasteryLegendary,
    SalVaraesRobeOfDarkness, SalVaraesRobeOfDarknessEnchanted, SalVaraesRobeOfDarknessLegendary,
    WhiteResistanceStone, BlueResistanceStone, RedResistanceStone,
    ClothGloves, SmallClothGloves, LargeClothGloves,
    BrownLeatherGloves, UsedMerchantsGloves, KerranFishingpole,
    RuinedHereticLongsword, DirkOfTheTraitor, Frostwrath,
    OrbOfTheCrimsonBull, VeliumRoundShield, CrackedPaineelShield,
    CopperChampionshipRing
  ]

  const OrbOfMastery: Item := Item(
    id := 28034,
    name := "Orb of Mastery",
    itemType := 3,
    slot := SlotMask(Primary),
    defense := 0,
    stats := Stats(
        strength := Some(15), stamina := Some(10), dexterity := Some(5),
        intelligence := Some(20), poisonResist := Some(0),
        magicResist := Some(10), diseaseResist := Some(5),
        fireResist := Some(20), coldResist := Some(20), hp := Some(0),
        mana := Some(100), spellDamage := Some(20)),
    value := 100,
    rarity := 1,
    classes := 4096,
    castTime := 20000,
    mana := 100,
    manaRegen := 0)

  const OrbOfMasteryEnchanted: Item := Item(
    id := 1028034,
    name := "Orb of Mastery (Enchanted)",
    itemType := 3,
    slot := SlotMask(Primary),
    defense := 0,
    stats := Stats(
        strength := Some(30), stamina := Some(20), dexterity := Some(10),
        intelligence := Some(40), attack := Some(5), poisonResist := Some(0),
        magicResist := Some(20), diseaseResist := Some(5),
        fireResist := Some(40), coldResist := Some(40), hp := Some(0),
        mana := Some(200), spellDamage := Some(40)),
    heroicStats := Some(HeroicStats(
        spellDamage := Some(20))),
    value := 200,
    rarity := 2,
    classes := 4096,
    castTime := 5000,
    mana := 200,
    manaRegen := 0)

  const OrbOfMasteryLegendary: Item := Item(
    id := 2028034,
    name := "Orb of Mastery (Legendary)",
    itemType := 3,
    slot := SlotMask(Primary),
    defense := 0,
    stats := Stats(
        strength := Some(30), stamina := Some(20), dexterity := Some(10),
        intelligence := Some(40), accuracy := Some(3), attack := Some(10),
        poisonResist := Some(0), magicResist := Some(20),
        diseaseResist := Some(4), fireResist := Some(40),
        coldResist := Some(40), hp := Some(0), mana := Some(200),
        spellDamage := Some(40)),
    heroicStats := Some(HeroicStats(
        strength := Some(8), stamina := Some(5), intelligence := Some(10),
        dexterity := Some(3), magicResist := Some(5), fireResist := Some(10),
        coldResist := Some(10), spellDamage := Some(40))),
    value := 200,
    rarity := 3,
    classes := 4096,
    castTime := 2500,
    mana := 200,
    manaRegen := 0)

  const SalVaraesRobeOfDarkness: Item := Item(
    id := 31239,
    name := "Sal`Varae's Robe of Darkness",
    itemType := 0,
    slot := SlotMask(Chest),
    defense := 60,
    stats := Stats(
        strength := Some(15), stamina := Some(25), agility := Some(25),
        intelligence := Some(25), wisdom := Some(25), dexterity := Some(15),
        charisma := Some(25), poisonResist := Some(15),
        magicResist := Some(15), diseaseResist := Some(15),
        fireResist := Some(15), coldResist := Some(15), hp := Some(0),
        mana := Some(100), spellDamage := Some(0)),
    value := 100,
    rarity := 1,
    classes := 15362,
    castTime := 0,
    mana := 100,
    manaRegen := 3)

  const SalVaraesRobeOfDarknessEnchanted: Item := Item(
    id := 1031239,
    name := "Sal`Varae's Robe of Darkness (Enchanted)",
    itemType := 0,
    slot := SlotMask(Chest),
    defense := 120,
    stats := Stats(
        strength := Some(30), stamina := Some(50), agility := Some(50),
        intelligence := Some(50), wisdom := Some(50), dexterity := Some(30),
        charisma := Some(50), attack := Some(8), poisonResist := Some(30),
        magicResist := Some(30), diseaseResist := Some(30),
        fireResist := Some(30), coldResist := Some(30), hp := Some(0),
        mana := Some(200), spellDamage := Some(25)),
    heroicStats := Some(HeroicStats(
        healAmount := Some(25), spellDamage := Some(25))),
    value := 200,
    rarity := 2,
    classes := 15362,
    castTime := 0,
    mana := 200,
    manaRegen := 5)

  const SalVaraesRobeOfDarknessLegendary: Item := Item(
    id := 2031239,
    name := "Sal`Varae's Robe of Darkness (Legendary)",
    itemType := 0,
    slot := SlotMask(Chest),
    defense := 120,
    stats := Stats(
        strength := Some(30), stamina := Some(50), agility := Some(50),
        intelligence := Some(50), wisdom := Some(50), dexterity := Some(30),
        charisma := Some(50), accuracy := Some(8), attack := Some(15),
        poisonResist := Some(30), magicResist := Some(30),
        diseaseResist := Some(30), fireResist := Some(30),
        coldResist := Some(30), hp := Some(0), mana := Some(200),
        spellDamage := Some(50)),
    heroicStats := Some(HeroicStats(
        strength := Some(8), intelligence := Some(13), wisdom := Some(13),
        agility := Some(13), dexterity := Some(8), stamina := Some(13),
        charisma := Some(13), poisonResist := Some(8),
        diseaseResist := Some(8), fireResist := Some(8), coldResist := Some(8),
        magicResist := Some(8), healAmount := Some(50),
        spellDamage := Some(50))),
    value := 200,
    rarity := 3,
    classes := 15362,
    castTime := 0,
    mana := 200,
    manaRegen := 6)

  const WhiteResistanceStone: Item := Item(
    id := 1138,
    name := "White Resistance Stone",
    itemType := 11,
    slot := SlotMask(Range),
    defense := 1,
    stats := Stats(
        strength := Some(1), stamina := Some(1), agility := Some(1),
        intelligence := Some(1), wisdom := Some(1), dexterity := Some(1),
        charisma := Some(1), poisonResist := Some(0), magicResist := Some(35),
        diseaseResist := Some(0), fireResist := Some(0), coldResist := Some(0)),
    value := 0,
    rarity := 1,
    icon := Some("966"),
    classes := 65535,
    castTime := 0,
    mana := 0,
    manaRegen := 0)

  const BlueResistanceStone: Item := Item(
    id := 1139,
    name := "Blue Resistance Stone",
    itemType := 11,
    slot := SlotMask(Range),
    defense := 1,
    stats := Stats(
        strength := Some(1), stamina := Some(1), agility := Some(1),
        intelligence := Some(1), wisdom := Some(1), dexterity := Some(1),
        charisma := Some(1), poisonResist := Some(0), magicResist := Some(0),
        diseaseResist := Some(0), fireResist := Some(0),
        coldResist := Some(35)),
    value := 0,
    rarity := 1,
    icon := Some("963"),
    classes := 65535,
    castTime := 0,
    mana := 0,
    manaRegen := 0)

  const RedResistanceStone: Item := Item(
    id := 1140,
    name := "Red Resistance Stone",
    itemType := 11,
    slot := SlotMask(Range),
    defense := 1,
    stats := Stats(
        strength := Some(1), stamina := Some(1), agility := Some(1),
        intelligence := Some(1), wisdom := Some(1), dexterity := Some(1),
        charisma := Some(1), poisonResist := Some(0), magicResist := Some(0),
        diseaseResist := Some(0), fireResist := Some(35),
        coldResist := Some(0)),
    value := 0,
    rarity := 1,
    icon := Some("964"),
    classes := 65535,
    castTime := 0,
    mana := 0,
    manaRegen := 0)

  const ClothGloves: Item := Item(
    id := 1010,
    name := "Cloth Gloves",
    itemType := 10,
    slot := SlotMask(Hands),
    defense := 2,
    stats := Stats(
        ),
    value := 260,
    rarity := 1,
    icon := Some("517"),
    classes := 65535,
    castTime := 0,
    mana := 0,
    manaRegen := 0)

  const SmallClothGloves: Item := Item(
    id := 1022,
    name := "Small Cloth Gloves",
    itemType := 10,
    slot := SlotMask(Hands),
    defense := 2,
    stats := Stats(
        ),
    value := 260,
    rarity := 1,
    icon := Some("517"),
    classes := 65535,
    castTime := 0,
    mana := 0,
    manaRegen := 0)

  const LargeClothGloves: Item := Item(
    id := 1034,
    name := "Large Cloth Gloves",
    itemType := 10,
    slot := SlotMask(Hands),
    defense := 2,
    stats := Stats(
        ),
    value := 260,
    rarity := 1,
    icon := Some("517"),
    classes := 65535,
    castTime := 0,
    mana := 0,
    manaRegen := 0)

  const BrownLeatherGloves: Item := Item(
    id := 1049,
    name := "Brown Leather Gloves",
    itemType := 10,
    slot := SlotMask(Hands),
    defense := 1,
    stats := Stats(
        dexterity := Some(2)),
    value := 450,
    rarity := 1,
    icon := Some("636"),
    classes := 33177,
    castTime := 0,
    mana := 0,
    manaRegen := 0)

  const UsedMerchantsGloves: Item := Item(
    id := 1054,
    name := "Used Merchants Gloves",
    itemType := 10,
    slot := SlotMask(Hands),
    defense := 0,
    stats := Stats(
        agility := Some(1)),
    value := 5,
    rarity := 1,
    icon := Some("517"),
    classes := 33161,
    castTime := 0,
    mana := 0,
    manaRegen := 0)

  const KerranFishingpole: Item := Item(
    id := 1062,
    name := "Kerran Fishingpole",
    itemType := 3,
    slot := SlotMask(Primary),
    defense := 0,
    stats := Stats(
        strength := Some(2), spellDamage := Some(3)),
    value := 0,
    rarity := 1,
    icon := Some("749"),
    classes := 32767,
    castTime := 0,
    mana := 0,
    manaRegen := 0)

  const RuinedHereticLongsword: Item := Item(
    id := 1074,
    name := "Ruined Heretic Longsword",
    itemType := 0,
    slot := SlotMask(Primary) | SlotMask(Secondary),
    defense := 0,
    stats := Stats(
        spellDamage := Some(2)),
    value := 30000,
    rarity := 1,
    icon := Some("590"),
    classes := 32767,
    castTime := 0,
    mana := 0,
    manaRegen := 0)

  const DirkOfTheTraitor: Item := Item(
    id := 1094,
    name := "Dirk of the Traitor",
    itemType := 2,
    slot := SlotMask(Primary) | SlotMask(Secondary),
    defense := 0,
    stats := Stats(
        strength := Some(4), agility := Some(4), dexterity := Some(4),
        spellDamage := Some(9)),
    value := 0,
    rarity := 1,
    icon := Some("574"),
    classes := 16777,
    castTime := 0,
    mana := 0,
    manaRegen := 0)

  const Frostwrath: Item := Item(
    id := 1097,
    name := "Frostwrath",
    itemType := 0,
    slot := SlotMask(Primary),
    defense := 20,
    stats := Stats(
        strength := Some(10), intelligence := Some(5), wisdom := Some(5),
        spellDamage := Some(24), coldResist := Some(15),
        fireResist := Some(15)),
    value := 0,
    rarity := 1,
    icon := Some("1173"),
    classes := 20,
    castTime := 0,
    mana := 50,
    manaRegen := 0)

  const OrbOfTheCrimsonBull: Item := Item(
    id := 1113,
    name := "Orb of the Crimson Bull",
    itemType := 11,
    slot := SlotMask(Primary) | SlotMask(Secondary),
    defense := 0,
    stats := Stats(
        intelligence := Some(5), wisdom := Some(5), stamina := Some(10),
        coldResist := Some(10), diseaseResist := Some(10),
        fireResist := Some(10), hp := Some(25), mana := Some(75)),
    value := 0,
    rarity := 1,
    icon := Some("973"),
    classes := 15906,
    castTime := 4000,
    mana := 75,
    manaRegen := 0)

  const VeliumRoundShield: Item := Item(
    id := 1044,
    name := "Velium Round Shield",
    itemType := 8,
    slot := SlotMask(Secondary),
    defense := 15,
    stats := Stats(
        coldResist := Some(10)),
    value := 4000,
    rarity := 1,
    icon := Some("972"),
    classes := 959,
    castTime := 0,
    mana := 0,
    manaRegen := 0)

  const CrackedPaineelShield: Item := Item(
    id := 1075,
    name := "Cracked Paineel Shield",
    itemType := 8,
    slot := SlotMask(Secondary),
    defense := 2,
    stats := Stats(
        ),
    value := 28000,
    rarity := 1,
    icon := Some("805"),
    classes := 991,
    castTime := 0,
    mana := 0,
    manaRegen := 0)

  const CopperChampionshipRing: Item := Item(
    id := 1454,
    name := "Copper Championship Ring",
    itemType := 29,
    slot := SlotMask(Ring1) | SlotMask(Ring2),
    defense := 4,
    stats := Stats(
        strength := Some(2), stamina := Some(2), agility := Some(2),
        intelligence := Some(2), wisdom := Some(2), dexterity := Some(2),
        charisma := Some(2), coldResist := Some(3), diseaseResist := Some(3),
        fireResist := Some(3), endurance := Some(10), hp := Some(10)),
    value := 0,
    rarity := 1,
    icon := Some("748"),
    classes := 65535,
    castTime := 0,
    mana := 10,
    manaRegen := 0)

  /** A slot bitmask is well formed when it names at least one slot and no bit outside the slots. */
  predicate WellSlotted(m: Mask) {
    m != 0 && m & AllSlotBits == m
  }

  /** A rarity is one of Normal (1), Enchanted (2) or Legendary (3). */
  predicate KnownRarity(r: int) {
    1 <= r <= 3
  }

  /** The slot bitmasks the catalog uses: single slots and the weapon and ring pairs. */
  lemma CatalogMasksWellFormed()
    ensures WellSlotted(SlotMask(Primary)) && WellSlotted(SlotMask(Secondary))
    ensures WellSlotted(SlotMask(Chest)) && WellSlotted(SlotMask(Range)) && WellSlotted(SlotMask(Hands))
    ensures WellSlotted(SlotMask(Primary) | SlotMask(Secondary))
    ensures WellSlotted(SlotMask(Ring1) | SlotMask(Ring2))
  {
  }

  /** Every catalog slot names at least one slot and only slot bits. */
  lemma CatalogSlotsWellFormed()
    ensures forall i :: 0 <= i < |Items| ==> WellSlotted(Items[i].slot)
  {
    CatalogMasksWellFormed();
  }

  /** Every catalog item can be equipped somewhere: its list of valid slots is never empty. */
  lemma CatalogItemsEquippable()
    ensures forall i :: 0 <= i < |Items| ==> GetValidSlots(Items[i].slot) != []
  {
    CatalogSlotsWellFormed();
    forall i | 0 <= i < |Items| ensures GetValidSlots(Items[i].slot) != [] {
      ValidSlotsEmpty(Items[i].slot);
    }
  }

  /** Every catalog rarity is 1, 2 or 3. */
  lemma CatalogRarities()
    ensures forall i :: 0 <= i < |Items| ==> KnownRarity(Items[i].rarity)
  {
  }

  /** The ids of a list of items, in order. */
  function Ids(items: seq<Item>): (r: seq<int>)
    ensures |r| == |items| && forall i :: 0 <= i < |items| ==> r[i] == items[i].id
  {
    seq(|items|, i requires 0 <= i < |items| => items[i].id)
  }

  /** No id occurs twice. */
  predicate DistinctIds(ids: seq<int>) {
    forall i, j :: 0 <= i < j < |ids| ==> ids[i] != ids[j]
  }

  /** The catalog's ids, in catalog order. */
  lemma CatalogIdList()
    ensures Ids(Items) == [
      28034, 1028034, 2028034, 31239, 1031239, 2031239, 1138, 1139, 1140, 1010, 1022,
      1034, 1049, 1054, 1062, 1074, 1094, 1097, 1113, 1044, 1075, 1454]
  {
  }

  /** The ids the catalog lists are pairwise different. */
  lemma ListedIdsDistinct()
    ensures DistinctIds([
      28034, 1028034, 2028034, 31239, 1031239, 2031239, 1138, 1139, 1140, 1010, 1022,
      1034, 1049, 1054, 1062, 1074, 1094, 1097, 1113, 1044, 1075, 1454])
  {
  }

  /** No two catalog records share an id. */
  lemma CatalogIdsDistinct()
    ensures DistinctIds(Ids(Items))
  {
    CatalogIdList();
    ListedIdsDistinct();
  }
}
