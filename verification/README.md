# Railcraft core logic in Dafny

A model of the small pieces of self-contained logic inside Railcraft, a
content mod for a voxel-sandbox game:

- **Signal tiles** (`Signals`, `Facings`): a trackside signal remembers the
  direction it faces (horizontal after any rotation) and the light and
  blink states it last acted on. Rotating it refuses vertical axes and
  turns it around when rotated about its own facing. Every few ticks, on
  the client, it re-reads its aspect. It then requests a light
  recalculation when the light state changed, and a block update when the
  light or the blink state changed. Its facing is stored in NBT and in
  packets as the direction's ordinal byte.
- **Item-stack filters** (`StackFilters`, `Streams`, `JavaClasses`):
  predicates over item stacks, built from the host's inventory queries with
  Java stream operations (`anyMatch`, `allMatch`, `noneMatch`, `filter`).
- **Add-if-absent AI tasks** (`AIPlugin`): an AI task is added to an
  entity only when no registered task has exactly the same runtime class.
- **Fluid blocks** (`Fluids`): fire behaviour from two fields, fluent
  setters, and the rule that turns a 3x3 neighbourhood of fluid heights
  into the four corner levels of the rendered surface.

Host state and queries are inputs to the model:
- the signal aspect (lit or not, blinking or not) and the global blink phase;
- the tick clock and the light-check interval;
- which side is hosting the world;
- the fluid heights, the "is fluid" flags of the blocks above, the
  height-averaging rule and the side face shapes;
- the inventory helpers `isEmpty`, `isItemEqual`, `matchesFilter` and
  `getItem`, and an item's class.

Requests the tile makes of the world (`markBlockForUpdate`, the
block-light recalculation) are counted in ghost fields.

Assumptions about host code that is not part of this model:
- The direction enum is the host's, in its declaration order: DOWN, UP,
  NORTH, SOUTH, WEST, EAST.
- `getOrientation(n)` gives the direction with ordinal `n`.
- `getByte` on a missing key gives 0.
- `nonEmpty` is the negation of `isEmpty`.
- `byHorizontalIndex` orders the horizontal sides SOUTH, WEST, NORTH, EAST.
- `isItemEqual(stack, collection)` holds when the stack is item-equal to
  some member of the collection.
- An entity's AI-task list keeps its entries in insertion order.
- Adding a newly created task entry to that list always succeeds: a new entry is never already in it.

## Model

| member | source | states |
|---|---|---|
| `Facings.Facing.Opposite` | src/main/java/mods/railcraft/common/blocks/signals/TileSignalBase.java:44-45 | the opposite direction differs from the original, lies on the same axis, and is horizontal exactly when the original is |
| `Facings.FromOrdinal` | src/main/java/mods/railcraft/common/blocks/signals/TileSignalBase.java:145 | a direction is found exactly for ordinals 0..5, and it is the direction with that ordinal |
| `Facings.ToByte` | src/main/java/mods/railcraft/common/blocks/signals/TileSignalBase.java:139 | the ordinal byte lies in 0..5 and decodes back to the same facing |
| `Facings.ByteDecodeInjective` | src/main/java/mods/railcraft/common/blocks/signals/TileSignalBase.java:139-145 | a byte that decodes to a facing is that facing's byte, so encoding and decoding are inverse on 0..5 |
| `Signals.Rotation` | src/main/java/mods/railcraft/common/blocks/signals/TileSignalBase.java:40-51 | rotation succeeds exactly for horizontal axes; the new facing is the opposite of the axis when the signal already faces it and the axis otherwise, so it is horizontal and always differs from the old facing |
| `Signals.TileSignal.constructor` | src/main/java/mods/railcraft/common/blocks/signals/TileSignalBase.java:35-37 | a new tile faces NORTH, and both latched states are false |
| `Signals.TileSignal.RotateBlock` | src/main/java/mods/railcraft/common/blocks/signals/TileSignalBase.java:40-51 | returns false and changes nothing for UP and DOWN; otherwise returns true, sets the facing as `Rotation` says and requests one block update; the latched states are untouched |
| `Signals.RotateTwiceAboutFacing` | src/main/java/mods/railcraft/common/blocks/signals/TileSignalBase.java:44-48 | rotating twice about the axis a horizontal signal faces restores its facing |
| `Signals.LightValue` | src/main/java/mods/railcraft/common/blocks/signals/TileSignalBase.java:115-120 | the light value is 5 exactly when the aspect is lit and 0 exactly when it is not |
| `Signals.TileSignal.UpdateLighting` | src/main/java/mods/railcraft/common/blocks/signals/TileSignalBase.java:86-104 | off check ticks nothing changes; on a check tick the light state becomes the aspect's, the blink state takes the global phase only for a blinking aspect, a light update is requested iff the light state changed, and a block update iff either state changed |
| `Signals.TileSignal.UpdateEntity` | src/main/java/mods/railcraft/common/blocks/signals/TileSignalBase.java:79-84 | on the hosting side, and on client ticks that are not check ticks, nothing changes; on a client check tick the light state becomes the aspect's, the blink state takes the global phase only for a blinking aspect, a light update is requested iff the light state changed and a block update iff either state changed |
| `Signals.TileSignal.SetFacing` | src/main/java/mods/railcraft/common/blocks/signals/TileSignalBase.java:122-124 | sets the facing and nothing else |
| `Signals.TileSignal.OnBlockPlacedBy` | src/main/java/mods/railcraft/common/blocks/signals/TileSignalBase.java:131-134 | the placed signal faces the side the host chose, and nothing else changes |
| `Signals.TileSignal.FacingByte` | src/main/java/mods/railcraft/common/blocks/signals/TileSignalBase.java:139 | the persisted byte decodes to the current facing |
| `Signals.TileSignal.WriteToNBT` | src/main/java/mods/railcraft/common/blocks/signals/TileSignalBase.java:137-140 | the compound gains the facing byte under "Facing" and keeps every other key |
| `Signals.TileSignal.ReadFromNBT` | src/main/java/mods/railcraft/common/blocks/signals/TileSignalBase.java:143-146 | the facing becomes the direction named by the stored byte, or DOWN when the key is missing; only the facing can change |
| `Signals.NBTRoundTrip` | src/main/java/mods/railcraft/common/blocks/signals/TileSignalBase.java:137-146 | writing one tile's NBT and reading it into another gives the second tile the first one's facing |
| `Signals.TileSignal.WritePacketData` | src/main/java/mods/railcraft/common/blocks/signals/TileSignalBase.java:149-153 | the stream gains exactly one byte, which decodes to the facing |
| `Signals.TileSignal.ReadPacketData` | src/main/java/mods/railcraft/common/blocks/signals/TileSignalBase.java:156-162 | an empty stream changes nothing; otherwise one byte is consumed, the facing becomes the direction it names, and one block update is requested |
| `Signals.PacketRoundTrip` | src/main/java/mods/railcraft/common/blocks/signals/TileSignalBase.java:149-162 | a facing written to a packet is the facing of the tile that reads it |
| `Streams.AnyMatch` | src/main/java/mods/railcraft/common/util/inventory/filters/StackFilters.java:80 | the element-by-element `anyMatch` is true iff some element passes |
| `Streams.AllMatch` | src/main/java/mods/railcraft/common/util/inventory/filters/StackFilters.java:98 | the element-by-element `allMatch` is true iff every element passes |
| `Streams.NoneMatch` | src/main/java/mods/railcraft/common/util/inventory/filters/StackFilters.java:125 | the element-by-element `noneMatch` is true iff no element passes |
| `Streams.Filter` | src/main/java/mods/railcraft/common/util/inventory/filters/StackFilters.java:124 | `filter` keeps only elements that pass, and every element that passes is kept |
| `StackFilters.OfClass` | src/main/java/mods/railcraft/common/util/inventory/filters/StackFilters.java:44-46 | rejects empty stacks and accepts non-empty stacks whose item is of exactly the given class |
| `StackFilters.OfClassWidens` | src/main/java/mods/railcraft/common/util/inventory/filters/StackFilters.java:44-46 | a filter for a class accepts every stack a filter for any of its subclasses accepts |
| `StackFilters.OfItem` | src/main/java/mods/railcraft/common/util/inventory/filters/StackFilters.java:51-53 | accepts exactly the non-empty stacks of the given item |
| `StackFilters.OfRailcraftItem` | src/main/java/mods/railcraft/common/util/inventory/filters/StackFilters.java:58-60 | rejects empty stacks and otherwise defers to the registry entry's own test |
| `StackFilters.OfBlock` | src/main/java/mods/railcraft/common/util/inventory/filters/StackFilters.java:65-67 | is the item filter for the block's item form, so it also rejects empty stacks |
| `StackFilters.MatchesAny` | src/main/java/mods/railcraft/common/util/inventory/filters/StackFilters.java:79-81 | accepts a stack iff some inventory stack, used as a filter, matches it; an empty inventory accepts nothing |
| `StackFilters.AnyOf` | src/main/java/mods/railcraft/common/util/inventory/filters/StackFilters.java:93-99 | accepts everything when the list is empty or holds only empty stacks, and otherwise exactly the stacks item-equal to some listed stack |
| `StackFilters.AnyOfArray` | src/main/java/mods/railcraft/common/util/inventory/filters/StackFilters.java:88-90 | the varargs overload accepts exactly what the collection overload accepts on the same elements |
| `StackFilters.Nothing` | src/main/java/mods/railcraft/common/util/inventory/filters/StackFilters.java:101-103 | rejects every stack |
| `StackFilters.NoneOf` | src/main/java/mods/railcraft/common/util/inventory/filters/StackFilters.java:113-127 | rejects an empty stack whatever the list |
| `StackFilters.NoneOfArray` | src/main/java/mods/railcraft/common/util/inventory/filters/StackFilters.java:110-112 | the varargs overload accepts exactly what the collection overload accepts on the same elements |
| `StackFilters.NoneOfAccepts` | src/main/java/mods/railcraft/common/util/inventory/filters/StackFilters.java:119-127 | a non-empty stack passes iff no non-empty entry is item-equal to it |
| `StackFilters.NoneOfWithoutEntries` | src/main/java/mods/railcraft/common/util/inventory/filters/StackFilters.java:123-125 | with no non-empty entries, every non-empty stack passes |
| `JavaClasses.ProperSubclassDiffers` | src/main/java/mods/railcraft/common/plugins/forge/AIPlugin.java:23 | a proper subclass is never equal to the class it extends, and that class is not assignable to it |
| `AIPlugin.TaskList.AddTask` | src/main/java/mods/railcraft/common/plugins/forge/AIPlugin.java:26 | appends one fresh entry with the given priority and task and keeps the others |
| `AIPlugin.AddAITask` | src/main/java/mods/railcraft/common/plugins/forge/AIPlugin.java:21-28 | returns true iff no entry's task has exactly the new task's class; when it returns false the list is unchanged, and when true exactly one fresh `(priority, task)` entry is appended; existing entries are never removed or altered |
| `AIPlugin.AddSameClassTwice` | src/main/java/mods/railcraft/common/plugins/forge/AIPlugin.java:21-28 | a second task of the same class is always refused (idempotence) |
| `AIPlugin.SubclassTaskNotBlocked` | src/main/java/mods/railcraft/common/plugins/forge/AIPlugin.java:23 | a task whose class extends the class of every registered task is not blocked by them |
| `AIPlugin.AppendBlocksOnlyItsClass` | src/main/java/mods/railcraft/common/plugins/forge/AIPlugin.java:22-26 | an added entry blocks its own class and leaves whether any other class is blocked as it was |
| `Fluids.BlockRailcraftFluid.constructor` | src/main/java/mods/railcraft/common/fluids/BlockRailcraftFluid.java:35-39 | a new block is not flammable, has flammability 0 and zero particle colours |
| `Fluids.BlockRailcraftFluid.CanDrain` | src/main/java/mods/railcraft/common/fluids/BlockRailcraftFluid.java:47-49 | draining is always allowed |
| `Fluids.BlockRailcraftFluid.FilledPercentage` | src/main/java/mods/railcraft/common/fluids/BlockRailcraftFluid.java:52-54 | the block always counts as completely filled |
| `Fluids.BlockRailcraftFluid.IsFlammable` | src/main/java/mods/railcraft/common/fluids/BlockRailcraftFluid.java:86-88 | flammable exactly when the stored flag, which only `SetFlammable` changes, is set |
| `Fluids.BlockRailcraftFluid.Flammability` | src/main/java/mods/railcraft/common/fluids/BlockRailcraftFluid.java:81-83 | the stored flammability, which only `SetFlammability` changes |
| `Fluids.BlockRailcraftFluid.FireSpreadSpeed` | src/main/java/mods/railcraft/common/fluids/BlockRailcraftFluid.java:76-78 | the speed is 0 or 300, and positive exactly when the fluid is flammable |
| `Fluids.BlockRailcraftFluid.IsFireSource` | src/main/java/mods/railcraft/common/fluids/BlockRailcraftFluid.java:91-93 | a fire source exactly when flammable with flammability 0, and then fire spreads at 300 |
| `Fluids.BlockRailcraftFluid.SetFlammable` | src/main/java/mods/railcraft/common/fluids/BlockRailcraftFluid.java:65-68 | returns the same block and changes only `flammable` |
| `Fluids.BlockRailcraftFluid.SetFlammability` | src/main/java/mods/railcraft/common/fluids/BlockRailcraftFluid.java:70-73 | returns the same block and changes only `flammability` |
| `Fluids.BlockRailcraftFluid.SetParticleColor` | src/main/java/mods/railcraft/common/fluids/BlockRailcraftFluid.java:95-100 | returns the same block and changes only the three colour channels |
| `Fluids.AtMostOne` | src/main/java/mods/railcraft/common/fluids/BlockRailcraftFluid.java:175-178 | the clamp is at most 1, is its input or 1, and leaves inputs up to 1 alone |
| `Fluids.FluidAboveCorners` | src/main/java/mods/railcraft/common/fluids/BlockRailcraftFluid.java:145-164 | the three named neighbours each corner tests are exactly the non-centre cells of its 2x2 block |
| `Fluids.LevelCorners` | src/main/java/mods/railcraft/common/fluids/BlockRailcraftFluid.java:124-178 | four levels, each at most 1, all 1 when the centre is full |
| `Fluids.CornerUnderFluidIsFull` | src/main/java/mods/railcraft/common/fluids/BlockRailcraftFluid.java:145-164 | for each of the four corners, when its diagonal neighbour or either edge neighbour beside it is fluid, the corner is at full height |
| `Fluids.CornerOtherwiseAveraged` | src/main/java/mods/railcraft/common/fluids/BlockRailcraftFluid.java:139-164 | with the centre not full and no fluid beside it, a corner is the average of its 2x2 block |
| `Fluids.FillFull` | src/main/java/mods/railcraft/common/fluids/BlockRailcraftFluid.java:124-129 | every corner is set to 1 |
| `Fluids.GatherHeights` | src/main/java/mods/railcraft/common/fluids/BlockRailcraftFluid.java:131-138 | every grid cell holds the host's height for that cell |
| `Fluids.AverageCells` | src/main/java/mods/railcraft/common/fluids/BlockRailcraftFluid.java:139-143 | every corner holds the average of the four cells of its 2x2 block |
| `Fluids.RaiseCornersUnderFluid` | src/main/java/mods/railcraft/common/fluids/BlockRailcraftFluid.java:145-164 | exactly the corners with fluid above them are raised to 1; the others keep their value |
| `Fluids.BlockRailcraftFluid.ExtendedState` | src/main/java/mods/railcraft/common/fluids/BlockRailcraftFluid.java:116-180 | keeps the flow direction, records the four side overlays in horizontal-index order, and emits the corner levels `LevelCorners` defines, in the order (0,0), (0,1), (1,1), (1,0) |

## Left out

- Host world effects are not modelled:
  - the Nether explosion and block removal on a neighbour change (BlockRailcraftFluid.java:57-62);
  - drip particles;
  - the world calls behind `markBlockForUpdate` and the light recalculation, which are only counted.
- Host-computed values are inputs: fluid heights, flow direction, the averaging rule and face shapes. Float rounding is not modelled; heights are reals.
- `Math.min` on a NaN corner is not modelled, since reals have no NaN.
- Java class identity is a name with an optional superclass. Interfaces are not modelled, so `of(Class)` on an interface is not covered.
- `ofOreType`, `containedIn`, `of(ItemStack)` and `matches` only delegate to the host (`isOreType`, `containsItem`, `isItemEqual`, `matchesFilter`), so nothing about them is proved.
- Signal bounding boxes are float constants and are not modelled.
- The parts of NBT and stream I/O handled by the superclass are not modelled.
- `getValidRotations` returns UP and DOWN, while `rotateBlock` refuses exactly those axes (TileSignalBase.java:54-56 against 41-43). The model states no relation between the two.
- `getTriggerAspect` only forwards the aspect, which is an input here.
- The value of `LIGHT_CHECK_INTERVAL` is not part of this model: it is a positive parameter. The lighting test on tick `clock` is a divisibility test, which Java's truncating `%` and Dafny's Euclidean `%` decide alike.
- Signals.TileSignal.ReadFromNBT: the host's result for a byte outside 0..5 is not part of this model. The model leaves the facing unchanged in that case and reports that nothing was decoded.
- Signals.TileSignal.ReadPacketData: same treatment of a byte outside 0..5 as `ReadFromNBT`.
- StackFilters.AnyOfArray and StackFilters.NoneOfArray: `Arrays.asList` is a live view of the varargs array. The model reads the array once, when the filter is built.
- StackFilters.OfClass: the contract states acceptance only for stacks whose item has exactly the filter's class. Subclasses are covered by `OfClassWidens`.
- BlockMachineSignal.java, BlockStrengthGlass.java, MachineProxyDelta.java and ITileCharge.java hold block-state plumbing, registration and one-line delegations. They are not part of this model.
