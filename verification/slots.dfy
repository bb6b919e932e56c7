/**
 * Equipment slots as single-bit flags, the paired slot families and the
 * `SlotUtils` helpers of src/types/Item.ts.
 *
 * Item slot masks are JavaScript numbers combined with `&`, which converts
 * both operands to 32-bit integers; they are modelled as `bv32`.
 */
module ItemTypes {
  import opened Options

  type Mask = bv32

  /** The 23 keys of SLOT_BITMASKS. */
  datatype Slot =
    | Charm | Ear1 | Head | Face | Ear2 | Neck | Shoulder | Arms | Back
    | Bracer1 | Bracer2 | Range | Hands | Primary | Secondary | Ring1 | Ring2
    | Chest | Legs | Feet | Waist | PowerSource | Ammo

  /** The key under which a slot is declared in SLOT_BITMASKS. */
  function Key(s: Slot): (k: string)
    ensures |k| > 0
  {
    match s
    case Charm => "CHARM"
    case Ear1 => "EAR1"
    case Head => "HEAD"
    case Face => "FACE"
    case Ear2 => "EAR2"
    case Neck => "NECK"
    case Shoulder => "SHOULDER"
    case Arms => "ARMS"
    case Back => "BACK"
    case Bracer1 => "BRACER1"
    case Bracer2 => "BRACER2"
    case Range => "RANGE"
    case Hands => "HANDS"
    case Primary => "PRIMARY"
    case Secondary => "SECONDARY"
    case Ring1 => "RING1"
    case Ring2 => "RING2"
    case Chest => "CHEST"
    case Legs => "LEGS"
    case Feet => "FEET"
    case Waist => "WAIST"
    case PowerSource => "POWERSOURCE"
    case Ammo => "AMMO"
  }

  /** The value SLOT_BITMASKS assigns to a slot. */
  function SlotMask(s: Slot): Mask {
    match s
    case Charm => 1
    case Ear1 => 2
    case Head => 4
    case Face => 8
    case Ear2 => 16
    case Neck => 32
    case Shoulder => 64
    case Arms => 128
    case Back => 256
    case Bracer1 => 512
    case Bracer2 => 1024
    case Range => 2048
    case Hands => 4096
    case Primary => 8192
    case Secondary => 16384
    case Ring1 => 32768
    case Ring2 => 65536
    case Chest => 131072
    case Legs => 262144
    case Feet => 524288
    case Waist => 1048576
    case PowerSource => 2097152
    case Ammo => 4194304
  }

  /** The declaration order of SLOT_BITMASKS, which is the order of its keys and values. */
  const SlotOrder: seq<Slot> :=
    [Charm, Ear1, Head, Face, Ear2, Neck, Shoulder, Arms, Back,
     Bracer1, Bracer2, Range, Hands, Primary, Secondary, Ring1, Ring2,
     Chest, Legs, Feet, Waist, PowerSource, Ammo]

  /** The position of a slot in the declaration order; also the exponent of its bit. */
  function BitIndex(s: Slot): nat {
    match s
    case Charm => 0
    case Ear1 => 1
    case Head => 2
    case Face => 3
    case Ear2 => 4
    case Neck => 5
    case Shoulder => 6
    case Arms => 7
    case Back => 8
    case Bracer1 => 9
    case Bracer2 => 10
    case Range => 11
    case Hands => 12
    case Primary => 13
    case Secondary => 14
    case Ring1 => 15
    case Ring2 => 16
    case Chest => 17
    case Legs => 18
    case Feet => 19
    case Waist => 20
    case PowerSource => 21
    case Ammo => 22
  }

  /** Every bit a slot can occupy: 2^0 through 2^22. */
  const AllSlotBits: Mask := 0x7F_FFFF

  /** Every slot value is the power of two 2^BitIndex(s), listed at that position. */
  lemma SlotMaskIsPowerOfTwo(s: Slot)
    ensures BitIndex(s) < |SlotOrder| == 23
    ensures SlotOrder[BitIndex(s)] == s
    ensures SlotMask(s) == 1 << BitIndex(s)
    ensures SlotMask(s) & AllSlotBits == SlotMask(s)
  {
  }

  /** No two slots share a bit. */
  lemma SlotMaskInjective(a: Slot, b: Slot)
    ensures SlotMask(a) == SlotMask(b) <==> a == b
    ensures a != b ==> SlotMask(a) & SlotMask(b) == 0
  {
  }

  /** A mask that has any bit in common with a slot's single bit contains that whole bit. */
  lemma SingleBit(m: Mask, s: Slot)
    ensures m & SlotMask(s) != 0 <==> m & SlotMask(s) == SlotMask(s)
    ensures SlotMask(s) != 0
  {
  }

  /** Later slots in the declaration order have larger values. */
  lemma BitIndexOrder(a: Slot, b: Slot)
    ensures BitIndex(a) < BitIndex(b) ==> Below(SlotMask(a), SlotMask(b))
  {
  }

  /** The slot at position `i` of the declaration order has bit index `i`. */
  lemma BitIndexAt(i: nat)
    requires i < |SlotOrder|
    ensures BitIndex(SlotOrder[i]) == i
  {
  }

  /** The values of SLOT_BITMASKS rise strictly along the declaration order. */
  lemma SlotOrderAscending()
    ensures Ascending(Values(SlotOrder))
  {
    forall i, j | 0 <= i < j < |SlotOrder| ensures Below(Values(SlotOrder)[i], Values(SlotOrder)[j]) {
      BitIndexAt(i);
      BitIndexAt(j);
      BitIndexOrder(SlotOrder[i], SlotOrder[j]);
    }
  }

  /** Every slot is listed in the declaration order. */
  lemma AllSlotsListed(s: Slot)
    ensures s in SlotOrder
  {
    SlotMaskIsPowerOfTwo(s);
  }

  // ---------------------------------------------------------------------
  // Looking a value up among the slots

  /** The first slot of `slots` whose value is `v` (the `find` over the entries of SLOT_BITMASKS). */
  function FindSlot(v: Mask, slots: seq<Slot>): (r: Option<Slot>)
    ensures r.Some? ==> r.value in slots && SlotMask(r.value) == v
    ensures r.None? ==> forall s :: s in slots ==> SlotMask(s) != v
  {
    if slots == [] then None
    else if SlotMask(slots[0]) == v then Some(slots[0])
    else FindSlot(v, slots[1..])
  }

  /** The slot whose SLOT_BITMASKS value is `v`, if any. */
  function SlotOf(v: Mask): (r: Option<Slot>)
    ensures r.Some? ==> SlotMask(r.value) == v
    ensures r.None? ==> forall s :: SlotMask(s) != v
  {
    forall s ensures s in SlotOrder { AllSlotsListed(s); }
    FindSlot(v, SlotOrder)
  }

  /** Looking up a slot's own value finds that slot. */
  lemma SlotOfMask(s: Slot)
    ensures SlotOf(SlotMask(s)) == Some(s)
  {
    AllSlotsListed(s);
    SlotMaskInjective(s, SlotOf(SlotMask(s)).value);
  }

  /** `v` is one of the 23 values of SLOT_BITMASKS. */
  predicate IsSlotValue(v: Mask) {
    SlotOf(v).Some?
  }

  // ---------------------------------------------------------------------
  // SlotUtils.canEquipInSlot and SlotUtils.getValidSlots

  /** `canEquipInSlot`: the item mask and the target mask share a bit. */
  function CanEquipInSlot(itemMask: Mask, target: Mask): (r: bool)
    ensures forall s :: target == SlotMask(s) ==> (r <==> itemMask & SlotMask(s) == SlotMask(s))
    ensures target == 0 ==> !r
  {
    forall s | target == SlotMask(s) ensures (itemMask & SlotMask(s) != 0 <==> itemMask & SlotMask(s) == SlotMask(s)) {
      SingleBit(itemMask, s);
    }
    itemMask & target != 0
  }

  /** The values of `slots` that the item mask covers, in the order of `slots` (the `filter`). */
  function ValidSlotsIn(itemMask: Mask, slots: seq<Slot>): (r: seq<Mask>)
    ensures |r| <= |slots|
    ensures forall v :: v in r ==> v in Values(slots) && CanEquipInSlot(itemMask, v)
    ensures forall s :: s in slots && CanEquipInSlot(itemMask, SlotMask(s)) ==> SlotMask(s) in r
  {
    if slots == [] then []
    else if CanEquipInSlot(itemMask, SlotMask(slots[0])) then [SlotMask(slots[0])] + ValidSlotsIn(itemMask, slots[1..])
    else ValidSlotsIn(itemMask, slots[1..])
  }

  /** Filtering keeps the order of `slots`: an ascending list of values stays ascending. */
  lemma {:induction false} ValidSlotsInAscending(itemMask: Mask, slots: seq<Slot>)
    requires Ascending(Values(slots))
    ensures Ascending(ValidSlotsIn(itemMask, slots))
  {
    if slots != [] {
      assert Values(slots[1..]) == Values(slots)[1..];
      ValidSlotsInAscending(itemMask, slots[1..]);
      var rest := ValidSlotsIn(itemMask, slots[1..]);
      forall v | v in rest ensures Below(SlotMask(slots[0]), v) {
        var k :| 0 <= k < |Values(slots[1..])| && Values(slots[1..])[k] == v;
        assert Values(slots)[0] < Values(slots)[k + 1];
      }
    }
  }

  /** The SLOT_BITMASKS values of a sequence of slots (`Object.values`). */
  function Values(slots: seq<Slot>): (r: seq<Mask>)
    ensures |r| == |slots|
    ensures forall i :: 0 <= i < |slots| ==> r[i] == SlotMask(slots[i])
  {
    seq(|slots|, i requires 0 <= i < |slots| => SlotMask(slots[i]))
  }

  /** Strictly increasing, hence free of duplicates. */
  predicate Ascending(vs: seq<Mask>) {
    forall i, j :: 0 <= i < j < |vs| ==> Below(vs[i], vs[j])
  }

  predicate Below(a: Mask, b: Mask) {
    a < b
  }

  /** `getValidSlots`: exactly the slot values the item mask covers, without duplicates, in declaration order. */
  function GetValidSlots(itemMask: Mask): (r: seq<Mask>)
    ensures forall v :: v in r <==> IsSlotValue(v) && CanEquipInSlot(itemMask, v)
    ensures Ascending(r)
    ensures |r| <= |SlotOrder|
  {
    SlotOrderAscending();
    ValidSlotsInAscending(itemMask, SlotOrder);
    var r := ValidSlotsIn(itemMask, SlotOrder);
    forall v | v in r ensures IsSlotValue(v) {
      var k :| 0 <= k < |SlotOrder| && Values(SlotOrder)[k] == v;
      assert SlotMask(SlotOrder[k]) == v;
    }
    forall v | IsSlotValue(v) && CanEquipInSlot(itemMask, v) ensures v in r {
      AllSlotsListed(SlotOf(v).value);
    }
    r
  }

  /** The bitwise OR of the values of the slots from position `k` on. */
  function UnionFrom(k: nat): Mask
    decreases |SlotOrder| - k
  {
    if k >= |SlotOrder| then 0 else SlotMask(SlotOrder[k]) | UnionFrom(k + 1)
  }

  lemma UnionOfAllSlots()
    ensures UnionFrom(0) == AllSlotBits
  {
    assert UnionFrom(21) == 0x60_0000;
    assert UnionFrom(18) == 0x7C_0000;
    assert UnionFrom(15) == 0x7F_8000;
    assert UnionFrom(12) == 0x7F_F000;
    assert UnionFrom(9) == 0x7F_FE00;
    assert UnionFrom(6) == 0x7F_FFC0;
    assert UnionFrom(3) == 0x7F_FFF8;
  }

  lemma OrSplit(m: Mask, a: Mask, b: Mask)
    ensures m & (a | b) != 0 <==> m & a != 0 || m & b != 0
  {
  }

  /** A mask that meets the bits of the slots from position `k` on meets one of those slots. */
  lemma {:induction false} SomeSlotFrom(itemMask: Mask, k: nat) returns (i: nat)
    requires itemMask & UnionFrom(k) != 0
    ensures k <= i < |SlotOrder| && CanEquipInSlot(itemMask, SlotMask(SlotOrder[i]))
    decreases |SlotOrder| - k
  {
    OrSplit(itemMask, SlotMask(SlotOrder[k]), UnionFrom(k + 1));
    if CanEquipInSlot(itemMask, SlotMask(SlotOrder[k])) {
      i := k;
    } else {
      i := SomeSlotFrom(itemMask, k + 1);
    }
  }

  /**
   * `getValidSlots` is empty exactly when the mask carries none of the 23
   * slot bits; in particular `getValidSlots(0)` is empty.
   */
  lemma ValidSlotsEmpty(itemMask: Mask)
    ensures GetValidSlots(itemMask) == [] <==> itemMask & AllSlotBits == 0
    ensures GetValidSlots(0) == []
  {
    if itemMask & AllSlotBits != 0 {
      ValidSlotsNotEmpty(itemMask);
    } else {
      ValidSlotsNone(itemMask);
    }
    ValidSlotsNone(0);
  }

  lemma ValidSlotsNotEmpty(itemMask: Mask)
    requires itemMask & AllSlotBits != 0
    ensures GetValidSlots(itemMask) != []
  {
    UnionOfAllSlots();
    var i := SomeSlotFrom(itemMask, 0);
    SlotOfMask(SlotOrder[i]);
    assert SlotMask(SlotOrder[i]) in GetValidSlots(itemMask);
  }

  lemma ValidSlotsNone(itemMask: Mask)
    requires itemMask & AllSlotBits == 0
    ensures GetValidSlots(itemMask) == []
  {
    var r := GetValidSlots(itemMask);
    if r != [] {
      assert IsSlotValue(r[0]) && CanEquipInSlot(itemMask, r[0]);
      var s := SlotOf(r[0]).value;
      SlotMaskIsPowerOfTwo(s);
      NoBitOutside(itemMask, SlotMask(s));
    }
  }

  lemma NoBitOutside(m: Mask, bit: Mask)
    requires m & AllSlotBits == 0 && bit & AllSlotBits == bit
    ensures m & bit == 0
  {
  }

  // ---------------------------------------------------------------------
  // Paired slots: PAIRED_SLOTS, canEquipInPairedSlot, getFirstAvailablePairedSlot

  /** `canEquipInPairedSlot`: some slot of the list fits the item (the `some`). */
  function CanEquipInPairedSlot(itemMask: Mask, pair: seq<Mask>): (r: bool)
    ensures r <==> exists i :: 0 <= i < |pair| && CanEquipInSlot(itemMask, pair[i])
    ensures |pair| == 2 ==> (r <==> CanEquipInSlot(itemMask, pair[0]) || CanEquipInSlot(itemMask, pair[1]))
  {
    if pair == [] then false
    else CanEquipInSlot(itemMask, pair[0]) || CanEquipInPairedSlot(itemMask, pair[1..])
  }

  /** The four entries of PAIRED_SLOTS, in declaration order. */
  datatype Family = Ear | Bracer | Ring | Weapon

  const Families: seq<Family> := [Ear, Bracer, Ring, Weapon]

  /** The slot listed first in a family's entry of PAIRED_SLOTS. */
  function First(f: Family): Slot {
    match f
    case Ear => Ear1
    case Bracer => Bracer1
    case Ring => Ring1
    case Weapon => Primary
  }

  /** The slot listed second in a family's entry of PAIRED_SLOTS. */
  function Second(f: Family): Slot {
    match f
    case Ear => Ear2
    case Bracer => Bracer2
    case Ring => Ring2
    case Weapon => Secondary
  }

  /** The two slot values PAIRED_SLOTS assigns to a family. */
  function PairOf(f: Family): seq<Mask> {
    [SlotMask(First(f)), SlotMask(Second(f))]
  }

  /** The family of a paired slot, stated slot by slot, independently of PAIRED_SLOTS. */
  function SlotFamily(s: Slot): Option<Family> {
    match s
    case Ear1 | Ear2 => Some(Ear)
    case Bracer1 | Bracer2 => Some(Bracer)
    case Ring1 | Ring2 => Some(Ring)
    case Primary | Secondary => Some(Weapon)
    case _ => None
  }

  /** PAIRED_SLOTS lists each family's two slots, and only them. */
  lemma FamilySlots(s: Slot, f: Family)
    ensures SlotFamily(s) == Some(f) <==> s == First(f) || s == Second(f)
    ensures First(f) != Second(f)
  {
  }

  /** A value is in a family's pair exactly when it is the value of a slot of that family. */
  lemma PairMembers(f: Family, v: Mask)
    ensures v in PairOf(f) <==> SlotOf(v).Some? && SlotFamily(SlotOf(v).value) == Some(f)
  {
    SlotOfMask(First(f));
    SlotOfMask(Second(f));
    if SlotOf(v).Some? {
      FamilySlots(SlotOf(v).value, f);
    }
  }

  /** Every family is listed in PAIRED_SLOTS. */
  lemma AllFamiliesListed(f: Family)
    ensures f in Families
  {
  }

  /**
   * `getFirstAvailablePairedSlot` may offer the socket `v`: the item carries
   * the socket's own bit, `v` is a slot value and its key is not occupied.
   */
  predicate Offerable(itemMask: Mask, v: Mask, equipped: map<string, Item>) {
    CanEquipInSlot(itemMask, v) && SlotOf(v).Some? && Key(SlotOf(v).value) !in equipped
  }

  /**
   * `getFirstAvailablePairedSlot`: the first socket of the list that the
   * item carries and that is free, looking at the first two entries only.
   * Reading `pairedSlots[1]` past the end of a shorter list gives
   * `undefined`, and `mask & undefined` is 0, so no such socket is offered.
   */
  function GetFirstAvailablePairedSlot(itemMask: Mask, pair: seq<Mask>, equipped: map<string, Item>): (r: Option<Mask>)
    ensures !CanEquipInPairedSlot(itemMask, pair) ==> r.None?
    ensures r.Some? ==> (r.value == pair[0] || (|pair| >= 2 && r.value == pair[1])) && Offerable(itemMask, r.value, equipped)
    ensures |pair| >= 1 && Offerable(itemMask, pair[0], equipped) ==> r == Some(pair[0])
    ensures r.None? && |pair| >= 1 ==> !Offerable(itemMask, pair[0], equipped)
    ensures r.None? && |pair| >= 2 ==> !Offerable(itemMask, pair[1], equipped)
  {
    if !CanEquipInPairedSlot(itemMask, pair) then None
    else if Offerable(itemMask, pair[0], equipped) then Some(pair[0])
    else if |pair| >= 2 && Offerable(itemMask, pair[1], equipped) then Some(pair[1])
    else None
  }

  /** An item that carries only the EAR1 bit is never offered EAR2, even when EAR1 is taken. */
  lemma EarOneItemNeverGetsEarTwo(equipped: map<string, Item>)
    ensures GetFirstAvailablePairedSlot(SlotMask(Ear1), PairOf(Ear), equipped) != Some(SlotMask(Ear2))
    ensures "EAR1" in equipped <==> GetFirstAvailablePairedSlot(SlotMask(Ear1), PairOf(Ear), equipped).None?
  {
    EarTwoNotOfferable(equipped);
    EarOneOfferable(equipped);
  }

  lemma EarTwoNotOfferable(equipped: map<string, Item>)
    ensures !Offerable(SlotMask(Ear1), SlotMask(Ear2), equipped)
  {
    assert !CanEquipInSlot(SlotMask(Ear1), SlotMask(Ear2));
  }

  lemma EarOneOfferable(equipped: map<string, Item>)
    ensures Offerable(SlotMask(Ear1), SlotMask(Ear1), equipped) <==> "EAR1" !in equipped
  {
    SlotOfMask(Ear1);
  }

  /** `isPairedSlot`: some entry of PAIRED_SLOTS includes the value (the `some`). */
  function IsPairedSlot(v: Mask): (r: bool)
    ensures r <==> SlotOf(v).Some? && SlotFamily(SlotOf(v).value).Some?
  {
    PairedValues(v);
    exists f :: f in Families && v in PairOf(f)
  }

  lemma PairedValues(v: Mask)
    ensures (exists f :: f in Families && v in PairOf(f)) <==> SlotOf(v).Some? && SlotFamily(SlotOf(v).value).Some?
  {
    if SlotOf(v).Some? && SlotFamily(SlotOf(v).value).Some? {
      var f := SlotFamily(SlotOf(v).value).value;
      AllFamiliesListed(f);
      PairMembers(f, v);
    }
    forall f | f in Families && v in PairOf(f) ensures SlotOf(v).Some? && SlotFamily(SlotOf(v).value) == Some(f) {
      PairMembers(f, v);
    }
  }

  /** The first entry of `fams` whose pair includes the value (the `find`). */
  function FindFamily(v: Mask, fams: seq<Family>): (r: Option<Family>)
    ensures r.Some? ==> r.value in fams && v in PairOf(r.value)
    ensures r.None? ==> forall f :: f in fams ==> v !in PairOf(f)
  {
    if fams == [] then None
    else if v in PairOf(fams[0]) then Some(fams[0])
    else FindFamily(v, fams[1..])
  }

  /** No value lies in two pairs, so the search finds the value's own family. */
  lemma {:induction false} FindOwnFamily(f: Family, v: Mask, fams: seq<Family>)
    requires f in fams && v in PairOf(f)
    ensures FindFamily(v, fams) == Some(f)
  {
    if fams[0] != f {
      PairMembers(f, v);
      PairMembers(fams[0], v);
      FindOwnFamily(f, v, fams[1..]);
    }
  }

  /** Searching PAIRED_SLOTS for a value finds its slot's family, or nothing for an unpaired value. */
  lemma FamilyOfValue(v: Mask)
    ensures FindFamily(v, Families) == if IsPairedSlot(v) then SlotFamily(SlotOf(v).value) else None
  {
    if IsPairedSlot(v) {
      var f := SlotFamily(SlotOf(v).value).value;
      AllFamiliesListed(f);
      PairMembers(f, v);
      FindOwnFamily(f, v, Families);
    } else if FindFamily(v, Families).Some? {
      PairMembers(FindFamily(v, Families).value, v);
    }
  }

  /** The other slot of a paired slot, stated slot by slot. */
  function Partner(s: Slot): Slot
    requires SlotFamily(s).Some?
  {
    match s
    case Ear1 => Ear2
    case Ear2 => Ear1
    case Bracer1 => Bracer2
    case Bracer2 => Bracer1
    case Ring1 => Ring2
    case Ring2 => Ring1
    case Primary => Secondary
    case Secondary => Primary
  }

  /**
   * `getPairedSlot`: nothing for a value outside every pair; otherwise the
   * value of the other slot of its family, never the value itself.
   */
  function GetPairedSlot(v: Mask): (r: Option<Mask>)
    ensures r.None? <==> !IsPairedSlot(v)
    ensures r.Some? ==> r.value != v && r.value == SlotMask(Partner(SlotOf(v).value))
  {
    FamilyOfValue(v);
    match FindFamily(v, Families)
    case None => None
    case Some(f) =>
      PartnerInPair(SlotOf(v).value, f);
      var pair := PairOf(f);
      if pair[0] == v then Some(pair[1]) else Some(pair[0])
  }

  /** Within its pair, a slot's partner is the other entry. */
  lemma PartnerInPair(s: Slot, f: Family)
    requires SlotFamily(s) == Some(f)
    ensures s == First(f) ==> Partner(s) == Second(f)
    ensures s == Second(f) ==> Partner(s) == First(f)
    ensures s == First(f) || s == Second(f)
    ensures SlotMask(Partner(s)) != SlotMask(s)
    ensures SlotFamily(Partner(s)) == Some(f) && Partner(Partner(s)) == s
  {
    SlotMaskInjective(s, Partner(s));
  }

  /** `getPairedSlot` is an involution on the eight paired slot values. */
  lemma PairedSlotInvolution(v: Mask)
    requires IsPairedSlot(v)
    ensures GetPairedSlot(v).Some? && GetPairedSlot(GetPairedSlot(v).value) == Some(v)
  {
    var s := SlotOf(v).value;
    var w := GetPairedSlot(v).value;
    PartnerInPair(s, SlotFamily(s).value);
    SlotOfMask(Partner(s));
    assert SlotOf(w) == Some(Partner(s));
  }

  // ---------------------------------------------------------------------
  // SlotUtils.getSlotName

  predicate IsUpper(c: char) {
    'A' <= c <= 'Z'
  }

  /** The characters a SLOT_BITMASKS key is written with. */
  predicate IsKeyChar(c: char) {
    IsUpper(c) || '0' <= c <= '9'
  }

  /** Every key is a capital letter followed by capitals and digits. */
  lemma KeyShape(s: Slot)
    ensures |Key(s)| > 0 && IsUpper(Key(s)[0])
    ensures forall i :: 0 <= i < |Key(s)| ==> IsKeyChar(Key(s)[i])
  {
  }

  /** No two slots share a key. */
  lemma KeyInjective(a: Slot, b: Slot)
    ensures Key(a) == Key(b) <==> a == b
  {
  }

  /** `replace(/([A-Z])/g, ' $1')`: a space inserted before every capital letter A-Z. */
  function SpaceCapitals(k: string): (r: string)
    ensures |r| >= |k|
  {
    if k == [] then []
    else (if IsUpper(k[0]) then [' ', k[0]] else [k[0]]) + SpaceCapitals(k[1..])
  }

  /** The characters `String.prototype.trim` removes: white space and line terminators. */
  predicate IsTrimmable(c: char) {
    c in {'\t', '\n', '\U{000B}', '\U{000C}', '\r', ' ', '\U{00A0}', '\U{1680}', '\U{2000}', '\U{2001}', '\U{2002}', '\U{2003}', '\U{2004}', '\U{2005}', '\U{2006}', '\U{2007}', '\U{2008}', '\U{2009}', '\U{200A}', '\U{2028}', '\U{2029}', '\U{202F}', '\U{205F}', '\U{3000}', '\U{FEFF}'}
  }

  function TrimStart(s: string): (r: string)
    ensures r == [] || !IsTrimmable(r[0])
  {
    if s != [] && IsTrimmable(s[0]) then TrimStart(s[1..]) else s
  }

  function TrimEnd(s: string): (r: string)
    ensures r == [] || !IsTrimmable(r[|r| - 1])
  {
    if s != [] && IsTrimmable(s[|s| - 1]) then TrimEnd(s[..|s| - 1]) else s
  }

  /** `trim`: leading and trailing white space removed. */
  function Trim(s: string): string {
    TrimEnd(TrimStart(s))
  }

  /** The string with its spaces deleted. */
  function RemoveSpaces(s: string): string {
    if s == [] then []
    else (if s[0] == ' ' then [] else [s[0]]) + RemoveSpaces(s[1..])
  }

  /**
   * `getSlotName`: "Unknown Slot" for a value that is not a slot value;
   * otherwise the slot's key with a space before every capital letter,
   * the first one excepted, so that deleting the spaces gives the key back.
   */
  function GetSlotName(v: Mask): (r: string)
    ensures SlotOf(v).None? ==> r == "Unknown Slot"
    ensures SlotOf(v).Some? ==> r == SpaceCapitals(Key(SlotOf(v).value))[1..]
    ensures SlotOf(v).Some? ==> RemoveSpaces(r) == Key(SlotOf(v).value)
  {
    match SlotOf(v)
    case None => "Unknown Slot"
    case Some(s) =>
      SlotName(s);
      Trim(SpaceCapitals(Key(s)))
  }

  lemma SlotName(s: Slot)
    ensures Trim(SpaceCapitals(Key(s))) == SpaceCapitals(Key(s))[1..]
    ensures RemoveSpaces(SpaceCapitals(Key(s))[1..]) == Key(s)
  {
    KeyShape(s);
    SpacedKey(Key(s));
  }

  /** What inserting the spaces does to a key: a leading space, the same last character, no other loss. */
  lemma {:induction false} SpacedKey(k: string)
    requires |k| > 0 && IsUpper(k[0])
    requires forall i :: 0 <= i < |k| ==> IsKeyChar(k[i])
    ensures Trim(SpaceCapitals(k)) == SpaceCapitals(k)[1..]
    ensures RemoveSpaces(SpaceCapitals(k)[1..]) == k
  {
    var spaced := SpaceCapitals(k);
    assert spaced == [' ', k[0]] + SpaceCapitals(k[1..]);
    assert TrimStart(spaced) == spaced[1..];
    LastOfSpaced(k);
    assert TrimEnd(spaced[1..]) == spaced[1..];
    RemoveSpacesOfSpaced(k);
    assert RemoveSpaces(spaced) == RemoveSpaces(spaced[1..]);
  }

  lemma {:induction false} LastOfSpaced(k: string)
    requires |k| > 0
    ensures |SpaceCapitals(k)| > 0 && SpaceCapitals(k)[|SpaceCapitals(k)| - 1] == k[|k| - 1]
  {
    if |k| > 1 {
      LastOfSpaced(k[1..]);
    }
  }

  lemma {:induction false} RemoveSpacesOfSpaced(k: string)
    requires forall i :: 0 <= i < |k| ==> IsKeyChar(k[i])
    ensures RemoveSpaces(SpaceCapitals(k)) == k
  {
    if k != [] {
      RemoveSpacesOfSpaced(k[1..]);
      var head := if IsUpper(k[0]) then [' ', k[0]] else [k[0]];
      RemoveSpacesAppend(head, SpaceCapitals(k[1..]));
      assert RemoveSpaces(head) == [k[0]] by {
        if IsUpper(k[0]) {
          assert head[1..] == [k[0]];
        }
      }
    }
  }

  lemma {:induction false} RemoveSpacesAppend(a: string, b: string)
    ensures RemoveSpaces(a + b) == RemoveSpaces(a) + RemoveSpaces(b)
  {
    if a == [] {
      assert a + b == b;
    } else {
      assert (a + b)[0] == a[0] && (a + b)[1..] == a[1..] + b;
      RemoveSpacesAppend(a[1..], b);
    }
  }

  /** Distinct slots get distinct display names. */
  lemma SlotNamesDistinct(a: Slot, b: Slot)
    requires a != b
    ensures GetSlotName(SlotMask(a)) != GetSlotName(SlotMask(b))
  {
    SlotOfMask(a);
    SlotOfMask(b);
    KeyInjective(a, b);
  }

  /** HEAD is displayed as "H E A D". */
  lemma HeadName()
    ensures GetSlotName(SlotMask(Head)) == "H E A D"
  {
    SlotOfMask(Head);
    SpacedHead();
  }

  lemma SpacedHead()
    ensures SpaceCapitals("HEAD") == " H E A D"
  {
    assert "HEAD"[1..] == "EAD";
    assert "EAD"[1..] == "AD";
    assert "AD"[1..] == "D";
    assert "D"[1..] == "";
  }

  /** EAR1 is displayed as "E A R1": a digit gets no space. */
  lemma EarOneName()
    ensures GetSlotName(SlotMask(Ear1)) == "E A R1"
  {
    SlotOfMask(Ear1);
    SpacedEarOne();
  }

  lemma SpacedEarOne()
    ensures SpaceCapitals("EAR1") == " E A R1"
  {
    assert "EAR1"[1..] == "AR1";
    assert "AR1"[1..] == "R1";
    assert "R1"[1..] == "1";
    assert "1"[1..] == "";
  }

  /** 3 (EAR1 | CHARM) is not a single slot value, so it has no name. */
  lemma UnknownSlotName()
    ensures GetSlotName(3) == "Unknown Slot"
  {
    if SlotOf(3).Some? {
      SingleBitValue(SlotOf(3).value);
    }
  }

  /** Slot values are powers of two, so 3 is not one. */
  lemma SingleBitValue(s: Slot)
    ensures SlotMask(s) != 3
  {
  }

  // ---------------------------------------------------------------------
  // The Item shape

  /**
   * The `stats` record of an item: every field is optional, and a field that
   * is absent contributes nothing.
   */
  datatype Stats = Stats(
    strength: Option<int> := None,
    agility: Option<int> := None,
    stamina: Option<int> := None,
    intelligence: Option<int> := None,
    wisdom: Option<int> := None,
    dexterity: Option<int> := None,
    accuracy: Option<int> := None,
    attack: Option<int> := None,
    charisma: Option<int> := None,
    poisonResist: Option<int> := None,
    magicResist: Option<int> := None,
    diseaseResist: Option<int> := None,
    fireResist: Option<int> := None,
    coldResist: Option<int> := None,
    hp: Option<int> := None,
    mana: Option<int> := None,
    spellDamage: Option<int> := None,
    endurance: Option<int> := None)

  /**
   * The `heroic_stats` record of an item. It declares a different set of
   * fields from `Stats`: no accuracy or attack, but corruption resistance and
   * heal amount.
   */
  datatype HeroicStats = HeroicStats(
    strength: Option<int> := None,
    agility: Option<int> := None,
    stamina: Option<int> := None,
    intelligence: Option<int> := None,
    wisdom: Option<int> := None,
    dexterity: Option<int> := None,
    charisma: Option<int> := None,
    poisonResist: Option<int> := None,
    diseaseResist: Option<int> := None,
    fireResist: Option<int> := None,
    coldResist: Option<int> := None,
    magicResist: Option<int> := None,
    corruptionResist: Option<int> := None,
    healAmount: Option<int> := None,
    hp: Option<int> := None,
    mana: Option<int> := None,
    spellDamage: Option<int> := None,
    endurance: Option<int> := None)

  /**
   * An item record. `slot` is a bitmask of slot values and `classes` a bitmask
   * of classes; `heroicStats` and `icon` are optional.
   */
  datatype Item = Item(
    id: int,
    name: string,
    itemType: int,
    slot: Mask,
    defense: int,
    stats: Stats,
    heroicStats: Option<HeroicStats> := None,
    value: int,
    rarity: int,
    icon: Option<string> := None,
    classes: int,
    castTime: int,
    mana: int,
    manaRegen: int)
}
