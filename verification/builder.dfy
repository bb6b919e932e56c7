/**
 * The equipment builder component: its fixed slot grid and class list, the
 * state it keeps (what is dropped where, the selected classes, the editable
 * base stats) and the event handlers that update that state.
 *
 * Each handler is a pure function of the previous state, as React's
 * functional `setState` updaters are; the `Builder` class holds the state and
 * applies them in place.
 */
module EquipmentBuilder {
  import opened Options

  // ---------------------------------------------------------------------
  // The slot grid
  // ---------------------------------------------------------------------

  /** One cell of the grid: the droppable's id and its column (1 to 4). */
  datatype LayoutCell = LayoutCell(id: string, col: int)

  /** The grid, row by row; rows with two cells leave the middle columns to the portrait. */
  const EquipmentLayout: seq<seq<LayoutCell>> := [
    [LayoutCell("Ear1", 1), LayoutCell("Head", 2), LayoutCell("Face", 3), LayoutCell("Ear2", 4)],
    [LayoutCell("Chest", 1), LayoutCell("Neck", 4)],
    [LayoutCell("Arms", 1), LayoutCell("Back", 4)],
    [LayoutCell("Belt", 1), LayoutCell("Shoulders", 4)],
    [LayoutCell("Wrist1", 1), LayoutCell("Wrist2", 4)],
    [LayoutCell("Legs", 1), LayoutCell("Arms2", 2), LayoutCell("Charm", 3), LayoutCell("Feet", 4)],
    [LayoutCell("Ring1", 2), LayoutCell("Ring2", 3), LayoutCell("Power", 4)],
    [LayoutCell("Primary", 1), LayoutCell("Secondary", 2), LayoutCell("Range", 3), LayoutCell("Ammo", 4)]
  ]

  /** The cells of the grid in rendering order, row after row. */
  function Cells(rows: seq<seq<LayoutCell>>): (r: seq<LayoutCell>)
    ensures forall c :: c in r <==> exists i :: 0 <= i < |rows| && c in rows[i]
  {
    if rows == [] then []
    else
      var rest := Cells(rows[1..]);
      assert forall c :: (exists i :: 0 <= i < |rows| && c in rows[i]) <==>
        c in rows[0] || exists i :: 0 <= i < |rows[1..]| && c in rows[1..][i]
      by {
        forall c | exists i :: 0 <= i < |rows| && c in rows[i]
          ensures c in rows[0] || exists i :: 0 <= i < |rows[1..]| && c in rows[1..][i]
        {
          var i :| 0 <= i < |rows| && c in rows[i];
          if i > 0 { assert rows[1..][i - 1] == rows[i]; }
        }
      }
      rows[0] + rest
  }

  /** The ids of the droppable slots, in rendering order. */
  function SlotIds(rows: seq<seq<LayoutCell>>): (r: seq<string>)
    ensures |r| == |Cells(rows)|
    ensures forall i :: 0 <= i < |r| ==> r[i] == Cells(rows)[i].id
  {
    var cells := Cells(rows);
    seq(|cells|, i requires 0 <= i < |cells| => cells[i].id)
  }

  /** No value occurs twice. */
  predicate NoDuplicates(s: seq<string>) {
    forall i, j :: 0 <= i < j < |s| ==> s[i] != s[j]
  }

  /** Within a row the cells stand left to right, each in one of the four columns. */
  predicate RowOrdered(row: seq<LayoutCell>) {
    (forall k :: 0 <= k < |row| ==> 1 <= row[k].col <= 4) &&
    (forall k, l :: 0 <= k < l < |row| ==> row[k].col < row[l].col)
  }

  /** The grid has eight rows of well-placed cells. */
  lemma LayoutRowsOrdered()
    ensures |EquipmentLayout| == 8
    ensures forall i :: 0 <= i < |EquipmentLayout| ==> RowOrdered(EquipmentLayout[i])
  {
  }

  /** The slot ids in the order the grid renders them. */
  const RenderedSlotIds: seq<string> := [
    "Ear1", "Head", "Face", "Ear2", "Chest", "Neck", "Arms", "Back", "Belt", "Shoulders",
    "Wrist1", "Wrist2", "Legs", "Arms2", "Charm", "Feet", "Ring1", "Ring2", "Power",
    "Primary", "Secondary", "Range", "Ammo"
  ]

  /** Reading the grid row after row gives exactly the rendered ids. */
  lemma LayoutRendersIds()
    ensures SlotIds(EquipmentLayout) == RenderedSlotIds
  {
  }

  /** The rendered ids are 23 distinct droppable ids. */
  lemma RenderedIdsDistinct()
    ensures |RenderedSlotIds| == 23 && NoDuplicates(RenderedSlotIds)
  {
  }

  /** The grid holds 23 droppable slots, and no two of them share an id. */
  lemma LayoutSlotIdsDistinct()
    ensures |SlotIds(EquipmentLayout)| == 23
    ensures NoDuplicates(SlotIds(EquipmentLayout))
  {
    LayoutRendersIds();
    RenderedIdsDistinct();
  }

  // ---------------------------------------------------------------------
  // Classes
  // ---------------------------------------------------------------------

  /** The classes offered, in the order the picker shows them. */
  const CharacterClasses: seq<string> := [
    "Magician", "Bard", "Beastlord", "Berserker", "Cleric",
    "Druid", "Enchanter", "Monk", "Necromancer", "Paladin",
    "Ranger", "Rogue", "Shadow Knight", "Shaman", "Warrior", "Wizard"
  ]

  /** The most classes a character may combine. */
  const MaxClasses: nat := 3

  /** The selection the builder starts with. */
  const InitialSelection: seq<string> := ["Magician"]

  /** A selection the builder can hold: no class twice and at most three classes. */
  predicate SelectionOk(s: seq<string>) {
    NoDuplicates(s) && |s| <= MaxClasses
  }

  /** The picker offers 16 distinct classes, and the initial selection is one of them. */
  lemma ClassesDistinct()
    ensures |CharacterClasses| == 16 && NoDuplicates(CharacterClasses)
    ensures SelectionOk(InitialSelection)
    ensures forall c :: c in InitialSelection ==> c in CharacterClasses
  {
  }

  /** The selection with every occurrence of `cls` filtered out, the rest in order. */
  function Without(prev: seq<string>, cls: string): (r: seq<string>)
    ensures forall c :: c in r <==> c in prev && c != cls
    ensures |r| <= |prev|
    ensures cls in prev ==> |r| < |prev|
  {
    if prev == [] then []
    else if prev[0] == cls then Without(prev[1..], cls)
    else [prev[0]] + Without(prev[1..], cls)
  }

  /**
   * The selection after the picker's button for `cls` is pressed: a selected
   * class is removed; otherwise it is appended unless three are selected.
   */
  function Toggled(prev: seq<string>, cls: string): (r: seq<string>)
    ensures cls in r <==> cls !in prev && |prev| < MaxClasses
    ensures forall c :: c != cls ==> (c in r <==> c in prev)
  {
    if cls in prev then Without(prev, cls)
    else if |prev| >= MaxClasses then prev
    else prev + [cls]
  }

  /** Filtering keeps a duplicate-free selection duplicate-free. */
  lemma {:induction false} WithoutNoDuplicates(prev: seq<string>, cls: string)
    requires NoDuplicates(prev)
    ensures NoDuplicates(Without(prev, cls))
  {
    if prev != [] {
      assert NoDuplicates(prev[1..]) by {
        forall i, j | 0 <= i < j < |prev[1..]| ensures prev[1..][i] != prev[1..][j] {
          assert prev[1..][i] == prev[i + 1] && prev[1..][j] == prev[j + 1];
        }
      }
      WithoutNoDuplicates(prev[1..], cls);
      if prev[0] != cls {
        assert prev[0] !in prev[1..] by {
          forall j | 0 <= j < |prev[1..]| ensures prev[1..][j] != prev[0] {
            assert prev[1..][j] == prev[j + 1];
          }
        }
        var rest := Without(prev[1..], cls);
        forall i, j | 0 <= i < j < |[prev[0]] + rest| ensures ([prev[0]] + rest)[i] != ([prev[0]] + rest)[j] {
          if i == 0 {
            assert ([prev[0]] + rest)[j] == rest[j - 1];
            assert rest[j - 1] in rest;
          } else {
            assert ([prev[0]] + rest)[i] == rest[i - 1] && ([prev[0]] + rest)[j] == rest[j - 1];
          }
        }
      }
    }
  }

  /**
   * In a duplicate-free selection, filtering `cls` out removes exactly its one
   * position and keeps the order of the other classes.
   */
  lemma {:induction false} WithoutAt(prev: seq<string>, cls: string, k: nat)
    requires NoDuplicates(prev) && k < |prev| && prev[k] == cls
    ensures Without(prev, cls) == prev[..k] + prev[k + 1..]
  {
    if k == 0 {
      assert cls !in prev[1..] by {
        forall j | 0 <= j < |prev[1..]| ensures prev[1..][j] != cls {
          assert prev[1..][j] == prev[j + 1];
        }
      }
      WithoutAbsent(prev[1..], cls);
      assert prev[..0] + prev[1..] == prev[1..];
    } else {
      assert NoDuplicates(prev[1..]) by {
        forall i, j | 0 <= i < j < |prev[1..]| ensures prev[1..][i] != prev[1..][j] {
          assert prev[1..][i] == prev[i + 1] && prev[1..][j] == prev[j + 1];
        }
      }
      assert prev[0] != cls;
      WithoutAt(prev[1..], cls, k - 1);
      assert prev[..k] == [prev[0]] + prev[1..][..k - 1];
      assert prev[k + 1..] == prev[1..][k..];
    }
  }

  /** Filtering a class that does not occur changes nothing. */
  lemma {:induction false} WithoutAbsent(prev: seq<string>, cls: string)
    requires cls !in prev
    ensures Without(prev, cls) == prev
  {
    if prev != [] {
      WithoutAbsent(prev[1..], cls);
      assert [prev[0]] + prev[1..] == prev;
    }
  }

  /** Pressing a button keeps the selection within the rules: no class twice, at most three. */
  lemma ToggledSelectionOk(prev: seq<string>, cls: string)
    requires SelectionOk(prev)
    ensures SelectionOk(Toggled(prev, cls))
  {
    if cls in prev {
      WithoutNoDuplicates(prev, cls);
    } else if |prev| < MaxClasses {
      var r := prev + [cls];
      forall i, j | 0 <= i < j < |r| ensures r[i] != r[j] {
        if j == |prev| { assert r[i] == prev[i]; } else { assert r[i] == prev[i] && r[j] == prev[j]; }
      }
    }
  }

  /** An unselected class is appended at the end when fewer than three are selected. */
  lemma ToggledAppends(prev: seq<string>, cls: string)
    requires SelectionOk(prev) && cls !in prev && |prev| < MaxClasses
    ensures Toggled(prev, cls) == prev + [cls]
  {
  }

  /** A selected class is removed from its own position; the others keep their order. */
  lemma ToggledRemovesInPlace(prev: seq<string>, k: nat)
    requires SelectionOk(prev) && k < |prev|
    ensures Toggled(prev, prev[k]) == prev[..k] + prev[k + 1..]
  {
    WithoutAt(prev, prev[k], k);
  }

  /** Adding a class and pressing its button again restores the selection. */
  lemma ToggleTwiceRestores(prev: seq<string>, cls: string)
    requires SelectionOk(prev) && cls !in prev && |prev| < MaxClasses
    ensures Toggled(Toggled(prev, cls), cls) == prev
  {
    var added := prev + [cls];
    assert added[|prev|] == cls;
    ToggledSelectionOk(prev, cls);
    WithoutAt(added, cls, |prev|);
    assert added[..|prev|] == prev;
  }

  /** Removing a class and pressing its button again moves it to the end of the selection. */
  lemma ToggleTwiceMovesLast(prev: seq<string>, k: nat)
    requires SelectionOk(prev) && k < |prev|
    ensures Toggled(Toggled(prev, prev[k]), prev[k]) == prev[..k] + prev[k + 1..] + [prev[k]]
  {
    WithoutAt(prev, prev[k], k);
    WithoutNoDuplicates(prev, prev[k]);
  }

  /** Pressing the Magician button first leaves no class selected: nothing keeps the selection non-empty. */
  lemma SelectionCanBecomeEmpty()
    ensures Toggled(InitialSelection, "Magician") == []
  {
  }

  /**
   * The picker disables a button exactly when three classes are selected and
   * its class is not one of them; pressing it then would change nothing.
   */
  predicate ButtonDisabled(selected: seq<string>, cls: string) {
    |selected| >= MaxClasses && cls !in selected
  }

  /** A press the picker would refuse leaves the selection as it is, and only such a press does. */
  lemma DisabledPressIsNoOp(prev: seq<string>, cls: string)
    requires SelectionOk(prev)
    ensures Toggled(prev, cls) == prev <==> ButtonDisabled(prev, cls)
  {
    if cls in prev {
      assert |Toggled(prev, cls)| < |prev|;
    } else if |prev| < MaxClasses {
      assert |Toggled(prev, cls)| == |prev| + 1;
    }
  }

  /** The selection after a series of button presses. */
  function ToggledAll(prev: seq<string>, presses: seq<string>): seq<string>
    decreases |presses|
  {
    if presses == [] then prev else ToggledAll(Toggled(prev, presses[0]), presses[1..])
  }

  /**
   * Every selection reachable from the initial one by pressing the picker's
   * buttons keeps the rules and holds only classes the picker offers.
   */
  lemma {:induction false} ReachableSelectionsOk(prev: seq<string>, presses: seq<string>)
    requires SelectionOk(prev) && forall c :: c in prev ==> c in CharacterClasses
    requires forall c :: c in presses ==> c in CharacterClasses
    ensures SelectionOk(ToggledAll(prev, presses))
    ensures forall c :: c in ToggledAll(prev, presses) ==> c in CharacterClasses
    decreases |presses|
  {
    if presses != [] {
      ToggledSelectionOk(prev, presses[0]);
      assert forall c :: c in presses[1..] ==> c in presses;
      ReachableSelectionsOk(Toggled(prev, presses[0]), presses[1..]);
    }
  }

  // ---------------------------------------------------------------------
  // Base stats
  // ---------------------------------------------------------------------

  /** The four groups of the base-stats form. */
  datatype StatGroup = Health | Combat | Attributes | Resistances

  /** The base stats: each group maps a stat's key to its value. */
  datatype BaseStats = BaseStats(
    health: map<string, int>,
    combat: map<string, int>,
    attributes: map<string, int>,
    resistances: map<string, int>)

  /** The base stats the builder starts with. */
  const InitialBaseStats: BaseStats := BaseStats(
    map["hp" := 49, "mp" := 23, "en" := 18],
    map["ac" := 28, "mit" := 2, "avd" := 15, "atk" := 14, "dmg" := 10, "heal" := 5],
    map["str" := 55, "sta" := 65, "agi" := 71, "dex" := 70, "wis" := 107, "int" := 115, "cha" := 115],
    map["poison" := 10, "magic" := 15, "disease" := 8, "fire" := 12, "cold" := 12])

  /** One group of the base stats. */
  function Group(b: BaseStats, g: StatGroup): map<string, int> {
    match g
    case Health => b.health
    case Combat => b.combat
    case Attributes => b.attributes
    case Resistances => b.resistances
  }

  /** Two base-stat records have the same keys in every group. */
  predicate SameShape(a: BaseStats, b: BaseStats) {
    a.health.Keys == b.health.Keys && a.combat.Keys == b.combat.Keys &&
    a.attributes.Keys == b.attributes.Keys && a.resistances.Keys == b.resistances.Keys
  }

  /**
   * The value a number input stores: what `parseInt` read from the field, or 0
   * when it read no number (`parseInt` gives `NaN`, and `NaN || 0` is 0).
   */
  function InputValue(parsed: Option<int>): (r: int)
    ensures parsed.None? ==> r == 0
    ensures parsed.Some? ==> r == parsed.value
  {
    match parsed
    case None => 0
    case Some(n) => n
  }

  /** The base stats after the number input of `key` in group `g` changes. */
  function WithBaseStat(b: BaseStats, g: StatGroup, key: string, parsed: Option<int>): (r: BaseStats)
    ensures key in Group(r, g) && Group(r, g)[key] == InputValue(parsed)
    ensures forall k :: k != key ==> (k in Group(r, g) <==> k in Group(b, g))
    ensures forall k :: k != key && k in Group(b, g) ==> Group(r, g)[k] == Group(b, g)[k]
    ensures forall h :: h != g ==> Group(r, h) == Group(b, h)
  {
    var v := InputValue(parsed);
    match g
    case Health => b.(health := b.health[key := v])
    case Combat => b.(combat := b.combat[key := v])
    case Attributes => b.(attributes := b.attributes[key := v])
    case Resistances => b.(resistances := b.resistances[key := v])
  }

  /** Editing a stat the form shows keeps every group's keys. */
  lemma EditKeepsShape(b: BaseStats, g: StatGroup, key: string, parsed: Option<int>)
    requires key in Group(b, g)
    ensures SameShape(WithBaseStat(b, g, key, parsed), b)
  {
    var r := WithBaseStat(b, g, key, parsed);
    assert Group(r, g).Keys == Group(b, g).Keys;
  }

  /** A base-stats record is determined by its four groups. */
  lemma GroupsDetermine(a: BaseStats, b: BaseStats)
    requires forall g :: Group(a, g) == Group(b, g)
    ensures a == b
  {
    assert Group(a, Health) == Group(b, Health) && Group(a, Combat) == Group(b, Combat);
    assert Group(a, Attributes) == Group(b, Attributes) && Group(a, Resistances) == Group(b, Resistances);
  }

  /** Of two edits to the same input, the later one wins. */
  lemma LaterEditWins(b: BaseStats, g: StatGroup, key: string, p1: Option<int>, p2: Option<int>)
    ensures WithBaseStat(WithBaseStat(b, g, key, p1), g, key, p2) == WithBaseStat(b, g, key, p2)
  {
    var l := WithBaseStat(WithBaseStat(b, g, key, p1), g, key, p2);
    var r := WithBaseStat(b, g, key, p2);
    assert Group(l, g) == Group(r, g);
    GroupsDetermine(l, r);
  }

  /** An edit updates one entry of its own group and leaves the other groups alone. */
  lemma GroupAfterEdit(b: BaseStats, g: StatGroup, key: string, parsed: Option<int>, h: StatGroup)
    ensures Group(WithBaseStat(b, g, key, parsed), h) ==
            if h == g then Group(b, g)[key := InputValue(parsed)] else Group(b, h)
  {
  }

  /** Two edits to different inputs leave any one group the same in either order. */
  lemma GroupEditsCommute(b: BaseStats, g1: StatGroup, k1: string, p1: Option<int>,
                          g2: StatGroup, k2: string, p2: Option<int>, h: StatGroup)
    requires g1 != g2 || k1 != k2
    ensures Group(WithBaseStat(WithBaseStat(b, g1, k1, p1), g2, k2, p2), h) ==
            Group(WithBaseStat(WithBaseStat(b, g2, k2, p2), g1, k1, p1), h)
  {
    var b1, b2 := WithBaseStat(b, g1, k1, p1), WithBaseStat(b, g2, k2, p2);
    GroupAfterEdit(b, g1, k1, p1, h);
    GroupAfterEdit(b, g2, k2, p2, h);
    GroupAfterEdit(b1, g2, k2, p2, h);
    GroupAfterEdit(b2, g1, k1, p1, h);
    if h == g1 && h == g2 {
      var v1, v2 := InputValue(p1), InputValue(p2);
      assert Group(b, h)[k1 := v1][k2 := v2] == Group(b, h)[k2 := v2][k1 := v1];
    }
  }

  /** Edits to two different inputs do not interfere: their order does not matter. */
  lemma EditsCommute(b: BaseStats, g1: StatGroup, k1: string, p1: Option<int>,
                     g2: StatGroup, k2: string, p2: Option<int>)
    requires g1 != g2 || k1 != k2
    ensures WithBaseStat(WithBaseStat(b, g1, k1, p1), g2, k2, p2) ==
            WithBaseStat(WithBaseStat(b, g2, k2, p2), g1, k1, p1)
  {
    GroupEditsCommute(b, g1, k1, p1, g2, k2, p2, Health);
    GroupEditsCommute(b, g1, k1, p1, g2, k2, p2, Combat);
    GroupEditsCommute(b, g1, k1, p1, g2, k2, p2, Attributes);
    GroupEditsCommute(b, g1, k1, p1, g2, k2, p2, Resistances);
    GroupsDetermine(WithBaseStat(WithBaseStat(b, g1, k1, p1), g2, k2, p2),
                    WithBaseStat(WithBaseStat(b, g2, k2, p2), g1, k1, p1));
  }

  // ---------------------------------------------------------------------
  // Dragging items onto slots
  // ---------------------------------------------------------------------

  /**
   * The equipped record after a drag ends: nothing changes when the item was
   * not released over a slot; otherwise the slot it was released over holds the
   * dragged id, whatever it held before. Nothing checks that the item fits.
   */
  function Dropped(equipped: map<string, string>, over: Option<string>, active: string): (r: map<string, string>)
    ensures over.None? ==> r == equipped
    ensures over.Some? ==> over.value in r && r[over.value] == active
    ensures forall k :: (over.None? || k != over.value) ==>
      (k in r <==> k in equipped) && (k in equipped ==> r[k] == equipped[k])
  {
    match over
    case None => equipped
    case Some(slot) => equipped[slot := active]
  }

  /** Dropping twice on the same slot keeps only the second item. */
  lemma LaterDropWins(equipped: map<string, string>, slot: string, a1: string, a2: string)
    ensures Dropped(Dropped(equipped, Some(slot), a1), Some(slot), a2) == Dropped(equipped, Some(slot), a2)
  {
  }

  /** Drops on different slots do not interfere. */
  lemma DropsCommute(equipped: map<string, string>, s1: string, a1: string, s2: string, a2: string)
    requires s1 != s2
    ensures Dropped(Dropped(equipped, Some(s1), a1), Some(s2), a2) ==
            Dropped(Dropped(equipped, Some(s2), a2), Some(s1), a1)
  {
  }

  /** The same item may be dropped on several slots; each keeps it. */
  lemma SameItemTwoSlots(equipped: map<string, string>, s1: string, s2: string, a: string)
    requires s1 != s2
    ensures var r := Dropped(Dropped(equipped, Some(s1), a), Some(s2), a);
      s1 in r && s2 in r && r[s1] == a && r[s2] == a
  {
  }

  // ---------------------------------------------------------------------
  // The component's state
  // ---------------------------------------------------------------------

  /** The state the builder component keeps between renders. */
  class Builder {
    var equipped: map<string, string>
    var selectedClasses: seq<string>
    var baseStats: BaseStats

    /** The selection keeps the rules, and the stats form keeps its fields. */
    ghost predicate Valid()
      reads this
    {
      SelectionOk(selectedClasses) && SameShape(baseStats, InitialBaseStats)
    }

    /** A fresh builder: nothing equipped, the Magician selected, the default base stats. */
    constructor ()
      ensures Valid()
      ensures equipped == map[] && selectedClasses == InitialSelection && baseStats == InitialBaseStats
    {
      equipped := map[];
      selectedClasses := InitialSelection;
      baseStats := InitialBaseStats;
    }

    /** The drag-end handler: records the dragged id under the slot it was released over. */
    method HandleDragEnd(active: string, over: Option<string>)
      requires Valid()
      modifies this`equipped
      ensures Valid()
      ensures equipped == Dropped(old(equipped), over, active)
    {
      if over.None? {
        return;
      }
      equipped := equipped[over.value := active];
    }

    /** The picker's button handler for `cls`. */
    method ToggleClass(cls: string)
      requires Valid()
      modifies this`selectedClasses
      ensures Valid()
      ensures selectedClasses == Toggled(old(selectedClasses), cls)
    {
      ToggledSelectionOk(selectedClasses, cls);
      if cls in selectedClasses {
        selectedClasses := Without(selectedClasses, cls);
        return;
      }
      if |selectedClasses| >= MaxClasses {
        return;
      }
      selectedClasses := selectedClasses + [cls];
    }

    /** The change handler of the number input for `key` in group `g`. */
    method SetBaseStat(g: StatGroup, key: string, parsed: Option<int>)
      requires Valid() && key in Group(baseStats, g)
      modifies this`baseStats
      ensures Valid()
      ensures baseStats == WithBaseStat(old(baseStats), g, key, parsed)
    {
      EditKeepsShape(baseStats, g, key, parsed);
      baseStats := WithBaseStat(baseStats, g, key, parsed);
    }
  }
}
