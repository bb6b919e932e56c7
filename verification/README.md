# THJ Equipment Builder — a Dafny model of its slot rules and builder state

THJ Equipment Builder is a browser tool for planning a character's equipment.
The player drags items onto a grid of equipment slots, picks up to three
classes, and edits the character's base stats. This project models the part
of it that holds the rules and the state, and proves properties about them:

- **Slots and items** (`slots.dfy`, module `ItemTypes`). The 23 slot flags of
  `SLOT_BITMASKS` are single bits 2^0 to 2^22. `PAIRED_SLOTS` holds the four
  slot families: ear, bracer, ring and weapon. The seven `SlotUtils` helpers
  are `canEquipInSlot`, `getValidSlots`, `canEquipInPairedSlot`,
  `getFirstAvailablePairedSlot`, `getSlotName`, `isPairedSlot` and
  `getPairedSlot`. The `Item` record is here too. Masks are `bv32`, because
  JavaScript's `&` works on 32-bit integers.
- **The item catalog** (`catalog.dfy`, module `Catalog`). The 22 records of
  `items`, each one transcribed, and the invariants every record keeps.
- **The builder component** (`builder.dfy`, module `EquipmentBuilder`). It covers:
  - the slot grid `EQUIPMENT_LAYOUT` and the class list `CHARACTER_CLASSES`;
  - the drag-end handler and the class toggle;
  - the four base-stat input handlers and the initial state.

  Each handler is a pure function of the previous state, as its `setState`
  updater is. The `Builder` class holds the state and its methods apply
  these functions in place.
- **Asset paths** (`paths.dfy`, module `AssetPaths`). This is `getAssetPath`,
  which puts the repository prefix in front of asset URLs on GitHub Pages.
- `options.dfy` holds the `Option` type. It stands wherever the source
  returns `null` or a lookup can miss.

Some proved facts show how the code behaves where that may not be what a
reader expects:
- `getSlotName` puts a space before every capital of the upper-case keys, so
  HEAD is shown as "H E A D" (`HeadName`).
- An item that carries only the EAR1 bit is never offered EAR2
  (`EarOneItemNeverGetsEarTwo`).
- `handleDragEnd` (components/equipment-builder.tsx:67-71) stores the dragged
  id under any slot id: it checks nothing about the item or the slot
  (`Dropped`, `SameItemTwoSlots`).
- The class selection can become empty (`SelectionCanBecomeEmpty`): nothing
  in `toggleClass` (components/equipment-builder.tsx:73-83) keeps it
  non-empty.

Three small definitions model single expressions of the source and carry
their meaning through the lemmas beside them: `ItemTypes.SpaceCapitals` is
the regex `replace` and `ItemTypes.Trim` the `trim` of src/types/Item.ts:89
(see `SpacedKey`), and `EquipmentBuilder.ButtonDisabled` is the `disabled`
expression of components/equipment-builder.tsx:122 (see
`DisabledPressIsNoOp`).

## Model

| member | source | states |
|---|---|---|
| `ItemTypes.SlotMaskIsPowerOfTwo` | src/types/Item.ts:1-25 | each slot's value is 2^i, where i is the slot's position in declaration order, and lies within the 23 slot bits |
| `ItemTypes.SlotMaskInjective` | src/types/Item.ts:1-25 | two different slots have different values whose bits do not overlap |
| `ItemTypes.SlotOrderAscending` | src/types/Item.ts:1-25 | `Object.values(SLOT_BITMASKS)` rises strictly, so it lists no value twice |
| `ItemTypes.KeyInjective` | src/types/Item.ts:1-25 | no two slots share a key |
| `ItemTypes.SlotOf` | src/types/Item.ts:70 | the key lookup by value gives the slot that has that value, or nothing when no slot has it |
| `ItemTypes.SlotOfMask` | src/types/Item.ts:70 | looking up a slot's own value finds that slot |
| `ItemTypes.CanEquipInSlot` | src/types/Item.ts:41-43 | for a target that is a slot value, true exactly when the item mask contains that slot's bit; always false for target 0 |
| `ItemTypes.ValidSlotsIn` | src/types/Item.ts:47-49 | the filter keeps exactly the values of the listed slots that the item covers, and no more values than slots |
| `ItemTypes.ValidSlotsInAscending` | src/types/Item.ts:47-49 | the filter keeps order: an ascending list of slot values stays ascending |
| `ItemTypes.GetValidSlots` | src/types/Item.ts:46-50 | a value is in the result exactly when it is a slot value that shares a bit with the item; the result is ascending (no duplicates) and has at most 23 entries |
| `ItemTypes.ValidSlotsEmpty` | src/types/Item.ts:46-50 | the result is empty exactly when the mask carries none of the 23 slot bits, so `getValidSlots(0)` is empty |
| `ItemTypes.CanEquipInPairedSlot` | src/types/Item.ts:53-55 | true exactly when some entry of the list fits the item; for a pair, exactly when either slot fits |
| `ItemTypes.FamilySlots` | src/types/Item.ts:31-36 | each family of `PAIRED_SLOTS` lists two different slots: those of the family and no others |
| `ItemTypes.PairMembers` | src/types/Item.ts:31-36 | a value is in a family's pair exactly when it is the value of a slot of that family |
| `ItemTypes.GetFirstAvailablePairedSlot` | src/types/Item.ts:58-83 | no result when no slot of the list fits. A result is the first or the second entry, fits the item, is a slot value and its key is free. The first entry is chosen whenever it qualifies. No result means neither entry qualifies |
| `ItemTypes.EarOneItemNeverGetsEarTwo` | src/types/Item.ts:58-83 | an EAR1-only item is never offered EAR2; it gets no slot exactly when EAR1 is occupied |
| `ItemTypes.IsPairedSlot` | src/types/Item.ts:93-96 | true exactly when the value belongs to one of the eight paired slots |
| `ItemTypes.FindFamily` | src/types/Item.ts:100-101 | the search returns a listed family whose pair holds the value, or nothing when no listed pair holds it |
| `ItemTypes.FindOwnFamily` | src/types/Item.ts:100-101 | no value lies in two pairs, so the search returns the value's own family |
| `ItemTypes.FamilyOfValue` | src/types/Item.ts:99-104 | searching `PAIRED_SLOTS` gives the family of the value's slot, or nothing for an unpaired value |
| `ItemTypes.PartnerInPair` | src/types/Item.ts:102-103 | within its pair a slot's partner is the other entry: a different value of the same family, whose own partner is the slot again |
| `ItemTypes.GetPairedSlot` | src/types/Item.ts:99-104 | no result exactly for values outside every pair; otherwise the value of the other slot of the family, never the value itself |
| `ItemTypes.PairedSlotInvolution` | src/types/Item.ts:99-104 | taking the paired slot twice returns to the starting value |
| `ItemTypes.GetSlotName` | src/types/Item.ts:86-90 | "Unknown Slot" for a value that is not a slot value. Otherwise the key with a space before each capital except the first; deleting the spaces gives the key back |
| `ItemTypes.SpacedKey` | src/types/Item.ts:89 | for a key of capitals and digits, `trim` removes exactly the space the regex put in front, and deleting spaces restores the key |
| `ItemTypes.SlotNamesDistinct` | src/types/Item.ts:86-90 | different slots get different display names |
| `ItemTypes.HeadName` | src/types/Item.ts:86-90 | HEAD is displayed as "H E A D" |
| `ItemTypes.EarOneName` | src/types/Item.ts:86-90 | EAR1 is displayed as "E A R1" |
| `ItemTypes.UnknownSlotName` | src/types/Item.ts:86-90 | the value 3 (two slot bits) is not a slot value, so its name is "Unknown Slot" |
| `Catalog.CatalogSlotsWellFormed` | src/types/Item.ts:163-709 | every catalog item's slot mask is nonzero and uses only slot bits |
| `Catalog.CatalogItemsEquippable` | src/types/Item.ts:163-709 | `getValidSlots` of every catalog item is non-empty |
| `Catalog.CatalogRarities` | src/types/Item.ts:154 | every catalog rarity is 1, 2 or 3 |
| `Catalog.CatalogIdList` | src/types/Item.ts:163-709 | the catalog's ids, in catalog order |
| `Catalog.CatalogIdsDistinct` | src/types/Item.ts:163-709 | no two catalog records share an id |
| `EquipmentBuilder.Cells` | components/equipment-builder.tsx:291-334 | a cell is rendered exactly when some row of the layout holds it |
| `EquipmentBuilder.LayoutRowsOrdered` | components/equipment-builder.tsx:7-47 | eight rows; in each row, columns are between 1 and 4 and rise left to right |
| `EquipmentBuilder.LayoutRendersIds` | components/equipment-builder.tsx:291-334 | rendering the rows in order gives the 23 slot ids from Ear1 to Ammo |
| `EquipmentBuilder.LayoutSlotIdsDistinct` | components/equipment-builder.tsx:7-47 | the grid has 23 droppable slots with pairwise different ids |
| `EquipmentBuilder.ClassesDistinct` | components/equipment-builder.tsx:49-57 | 16 distinct classes; the initial selection ["Magician"] is a valid selection of offered classes |
| `EquipmentBuilder.Without` | components/equipment-builder.tsx:76 | the filter keeps exactly the other classes and makes the list shorter when the class was there |
| `EquipmentBuilder.WithoutNoDuplicates` | components/equipment-builder.tsx:76 | filtering a duplicate-free selection keeps it duplicate-free |
| `EquipmentBuilder.WithoutAt` | components/equipment-builder.tsx:76 | in a duplicate-free selection the filter removes exactly the class's one position and keeps the order of the rest |
| `EquipmentBuilder.Toggled` | components/equipment-builder.tsx:73-83 | the class is selected afterwards exactly when it was not selected and fewer than three were; no other class changes membership |
| `EquipmentBuilder.ToggledSelectionOk` | components/equipment-builder.tsx:73-83 | a toggle keeps the selection free of duplicates and at most three long |
| `EquipmentBuilder.ToggledAppends` | components/equipment-builder.tsx:78-81 | a class that is not selected is appended at the end when fewer than three are selected |
| `EquipmentBuilder.ToggledRemovesInPlace` | components/equipment-builder.tsx:75-77 | toggling a selected class removes it from its position and keeps the others in order |
| `EquipmentBuilder.ToggleTwiceRestores` | components/equipment-builder.tsx:78-81 | adding a class and toggling it again gives back the earlier selection |
| `EquipmentBuilder.ToggleTwiceMovesLast` | components/equipment-builder.tsx:73-83 | removing a class and toggling it again moves it to the end |
| `EquipmentBuilder.SelectionCanBecomeEmpty` | components/equipment-builder.tsx:57-77 | toggling Magician off from the start leaves no class selected |
| `EquipmentBuilder.DisabledPressIsNoOp` | components/equipment-builder.tsx:114-122 | a toggle leaves a valid selection unchanged exactly when the picker shows that button disabled |
| `EquipmentBuilder.ReachableSelectionsOk` | components/equipment-builder.tsx:57-83 | every selection reachable by toggles of offered classes is valid and holds only offered classes |
| `EquipmentBuilder.InputValue` | components/equipment-builder.tsx:207 | a field `parseInt` cannot read stores 0; a number that was read is stored as it is |
| `EquipmentBuilder.WithBaseStat` | components/equipment-builder.tsx:205-208 | the edited key of the edited group gets the input's value; every other key and every other group is untouched |
| `EquipmentBuilder.EditKeepsShape` | components/equipment-builder.tsx:199-208 | editing a key the form shows keeps every group's set of keys |
| `EquipmentBuilder.LaterEditWins` | components/equipment-builder.tsx:205-208 | of two edits to the same input, only the later one remains |
| `EquipmentBuilder.EditsCommute` | components/equipment-builder.tsx:205-271 | edits to two different inputs give the same stats in either order |
| `EquipmentBuilder.Dropped` | components/equipment-builder.tsx:67-71 | with no slot under the pointer nothing changes. Otherwise that slot holds the dragged id and every other entry is unchanged; nothing checks compatibility |
| `EquipmentBuilder.LaterDropWins` | components/equipment-builder.tsx:67-71 | dropping twice on one slot keeps only the second id |
| `EquipmentBuilder.DropsCommute` | components/equipment-builder.tsx:67-71 | drops on different slots give the same record in either order |
| `EquipmentBuilder.SameItemTwoSlots` | components/equipment-builder.tsx:70 | the same id can occupy two slots at once |
| `EquipmentBuilder.Builder.constructor` | components/equipment-builder.tsx:56-65 | a new builder has nothing equipped, Magician selected, the default base stats, and is valid |
| `EquipmentBuilder.Builder.HandleDragEnd` | components/equipment-builder.tsx:67-71 | the equipped record becomes `Dropped` of the old one; nothing else changes |
| `EquipmentBuilder.Builder.ToggleClass` | components/equipment-builder.tsx:73-83 | the selection becomes `Toggled` of the old one and stays valid; nothing else changes |
| `EquipmentBuilder.Builder.SetBaseStat` | components/equipment-builder.tsx:205-271 | the stats become `WithBaseStat` of the old ones and keep their keys; nothing else changes |
| `AssetPaths.Includes` | lib/utils.ts:12 | true exactly when the fragment occurs at some position of the host name |
| `AssetPaths.CleanPath` | lib/utils.ts:14 | a path with a leading slash loses exactly that one character; any other path is kept |
| `AssetPaths.GetAssetPath` | lib/utils.ts:9-19 | without a browser the path is returned unchanged. In a browser it is the repository prefix (on a `github.io` host) or "/" (elsewhere), followed by the path without its leading slash |
| `AssetPaths.BrowserPathsAbsolute` | lib/utils.ts:11-16 | in a browser every result begins with "/" |
| `AssetPaths.LeadingSlashIgnored` | lib/utils.ts:13-15 | in a browser, "p" and "/p" give the same URL |
| `AssetPaths.PagesHostsRecognised` | lib/utils.ts:12-15 | every host ending in `github.io` gets the repository prefix |
| `AssetPaths.ShortHostsServeFromRoot` | lib/utils.ts:12-15 | a host name shorter than `github.io`, such as `localhost`, serves from the root |
| `AssetPaths.RootRewriteIdempotent` | lib/utils.ts:14-15 | off GitHub Pages, rewriting a result again changes nothing, unless the path began with two slashes |
| `AssetPaths.PagesRewriteNotIdempotent` | lib/utils.ts:14-15 | on GitHub Pages a second rewrite adds the prefix again |
| `AssetPaths.DoubleSlashKept` | lib/utils.ts:13-14 | only one leading slash is removed: off GitHub Pages "//x" stays "//x" |

## Left out

- The markup is not modelled: JSX, the `EquipmentSlot` component, drag-and-drop wiring, the open/closed flags of the class picker and the stats dialog, and styling (`cn`). They are presentation only. What is modelled is the order of the droppable ids in the grid (`Cells`, `LayoutRendersIds`): the markup renders rows 2 to 5 by index (`row2[0]`, `row2[1]`, components/equipment-builder.tsx:297-318), which agrees with reading every cell of those rows because each has exactly two cells.
- lib/equipment-icons.ts, app/layout.tsx, app/page.tsx and next.config.js are not part of this model.
- Stat totals, class-eligibility checks and the all-classes sentinel are not modelled: the core code does not implement them. The `classes` field is kept as catalog data.
- No mapping from grid ids ("Ear1") to slot keys ("EAR1") is modelled, because the source has none. The drop handler therefore has no slot rule to obey.
- `CanEquipInSlot`, `GetValidSlots` and the other mask helpers take 32-bit masks. JavaScript's conversion of fractional, negative or wider numbers to 32 bits is not modelled.
- `InputValue` takes the result of `parseInt` (`None` for `NaN`). The text grammar of `parseInt` and numbers beyond the safe-integer range are not modelled.
- `GetAssetPath` takes `None` for "no `window`" and the host name otherwise. Reading `window.location` is not modelled.
- Drag identifiers are strings. The drag-and-drop library also allows numeric ids, which are not modelled.
- `IsTrimmable` lists the white-space and line-terminator characters that `trim` removes. Only strings with no such character at either end, which is what the slot keys give, are proved to pass through `trim` unchanged.
- `Builder.SetBaseStat` requires the key to be one the form shows, as the inputs are generated from each group's own entries.
- The equipped record passed to `getFirstAvailablePairedSlot` is a map: an item record is always truthy, so "occupied" is key presence.
