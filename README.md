# Tree generation and chunk promotion, modelled in Dafny

This project models two pieces of sequential logic and proves properties of each.

**The Lindenmayer-system tree generator** (`ObjectGeneratorLSystemTree.generate`).

- *Rewriting* (module `LSystem`, file `lsystem.dfy`). The axiom `F` is rewritten five times. The rules are `F → GG[+F][**+F][//+F]` and `G → GG`, and every other character is copied. The nested rewriting loops (`Rewrite`, `RewriteStep`) are proved to compute `Derive(5)`. Lemmas prove:
  - the alphabet stays within {F, G, [, ], +, *, /};
  - the number of `F`s after n steps is 3^n;
  - every derived string is bracket-balanced.
- *Turtle* (module `Turtle`, file `turtle.dfy`). The derived string is read as a turtle program.
  - `F` and `G` place a trunk block at the turtle's cell. Inside a branch they also fill the air cells of the 3×3×3 cube around it, corners excluded.
  - `[` pushes the position and the orientation onto two stacks, and `]` pops both.
  - The six turn characters rotate the turtle.
  - The position is a vector of reals that each F and G moves by the heading's direction. A block is written at the cell the position truncates to, coordinate by coordinate toward zero, as Java's `(int)` cast does. Two steps can therefore write into the same cell.
  - The world is a map from integer cells to block ids, held by a `WorldProvider` object that `TreeGenerator.Draw` updates in place. `Draw` is proved equal to the functional reading `Run`, and the lemmas about `Run` state the drawing rules.

**The chunk-promotion step of `LocalChunkProvider.completeUpdate`** (module `ChunkProvider`, file `chunk_provider.dfy`), as the provider's unit test pins it down. A `LocalChunkProvider` object keeps an append-only effect log. `CompleteUpdate` polls the finalizer once and, when the poll hands over a ready chunk, appends `Promotion` of that chunk, in this order:
1. the chunk store's `restoreEntities()`, for a restored chunk;
2. for each stored entity in order, its creation (from its prefab, when it has one) and then its components;
3. for each entry of the block-position mapping, `OnAddedBlocks` and then `OnActivatedBlocks` to that block type's entity;
4. `OnChunkGenerated`, for a new chunk only, and then `OnChunkLoaded` to the world entity.

Block positions are carried as flat int lists read in x, y, z triples (`Positions`, with its inverse `Flatten`). Lemmas state the unit tests' assertions about the log, one lemma per test except that `SendsBlockEvents` covers both block-event tests (`LocalChunkProviderTest.java` lines 143-167 and 170-194): six tests, five lemmas.

The provider's own source (`LocalChunkProvider.java`) is not part of this model; its test is the only text about it. Each test fixes part of the log: the order of OnChunkGenerated and OnChunkLoaded, the creations and their components, the single restoreEntities() call, and the first two events of a block entity. The rest of the order is this model's own choice, and "## Left out" lists it. That covers the order across the four phases, the entity stores of a restored chunk, and the interleaving of several block types. The test stubs the finalizer to hand over a chunk on every poll and still expects one `create()` and a call that returns. The model therefore polls the finalizer exactly once per `completeUpdate`.

## Model

| member | source | states |
|---|---|---|
| LSystem.FRuleText | src/com/github/begla/blockmania/generators/ObjectGeneratorLSystemTree.java:63 | the F rule, built from the trunk and its three branches, is the replacement string GG[+F][\*\*+F][//+F] character for character |
| LSystem.Expand | src/com/github/begla/blockmania/generators/ObjectGeneratorLSystemTree.java:61-70 | what one character becomes: F the F rule, G the string GG, any other character itself (a definition; ExpandCounts and ExpandBalanced state its properties) |
| LSystem.Step | src/com/github/begla/blockmania/generators/ObjectGeneratorLSystemTree.java:56-73 | one pass of the rewriting loop: the expansions of the characters, concatenated in order (a definition; its properties are the Step lemmas below) |
| LSystem.Derive | src/com/github/begla/blockmania/generators/ObjectGeneratorLSystemTree.java:49-74 | the axiom F rewritten n times (a definition; DeriveClosed, DeriveCountF and DeriveBalanced state its properties) |
| LSystem.RewriteStep | src/com/github/begla/blockmania/generators/ObjectGeneratorLSystemTree.java:56-71 | the inner loop builds `Step(axiom)`: F becomes GG[+F][\*\*+F][//+F], G becomes GG, every other character is copied, in order |
| LSystem.Rewrite | src/com/github/begla/blockmania/generators/ObjectGeneratorLSystemTree.java:49-74 | starting from "F", the outer loop yields the string after exactly `Iterations` (5) rewriting steps |
| LSystem.StepConcat | src/com/github/begla/blockmania/generators/ObjectGeneratorLSystemTree.java:58-71 | rewriting works character by character: the step of a concatenation is the concatenation of the steps |
| LSystem.StepCopiesConstants | src/com/github/begla/blockmania/generators/ObjectGeneratorLSystemTree.java:70 | a string without F and G is copied unchanged by a step |
| LSystem.StepClosed | src/com/github/begla/blockmania/generators/ObjectGeneratorLSystemTree.java:58-71 | a step maps strings over {F, G, [, ], +, \*, /} to strings over the same alphabet |
| LSystem.DeriveClosed | src/com/github/begla/blockmania/generators/ObjectGeneratorLSystemTree.java:49-74 | every string derived from the axiom uses only F, G, [, ], +, \* and / |
| LSystem.FRuleCountF | src/com/github/begla/blockmania/generators/ObjectGeneratorLSystemTree.java:63 | the F rule holds three Fs |
| LSystem.FRuleCountG | src/com/github/begla/blockmania/generators/ObjectGeneratorLSystemTree.java:63 | the F rule holds two Gs |
| LSystem.ExpandCounts | src/com/github/begla/blockmania/generators/ObjectGeneratorLSystemTree.java:61-70 | an F expands to three Fs and two Gs, a G to two Gs and no F, any other character to neither |
| LSystem.StepCountF | src/com/github/begla/blockmania/generators/ObjectGeneratorLSystemTree.java:62-67 | a step triples the number of Fs (each F yields three, G yields none) |
| LSystem.StepCountG | src/com/github/begla/blockmania/generators/ObjectGeneratorLSystemTree.java:62-67 | after a step the number of Gs is twice the Gs plus twice the Fs before it |
| LSystem.DeriveCountF | src/com/github/begla/blockmania/generators/ObjectGeneratorLSystemTree.java:54-74 | after n steps the string holds 3^n Fs |
| LSystem.GeneratedCountF | src/com/github/begla/blockmania/generators/ObjectGeneratorLSystemTree.java:54-74 | the generated string holds 243 Fs |
| LSystem.UnderflowConcat | src/com/github/begla/blockmania/generators/ObjectGeneratorLSystemTree.java:121-123 | reading a concatenation never pops an empty stack iff neither part does, the second starting at the depth the first leaves |
| LSystem.FRuleBalanced | src/com/github/begla/blockmania/generators/ObjectGeneratorLSystemTree.java:63 | the F rule's brackets match and never close an empty stack, from any depth |
| LSystem.ExpandBalanced | src/com/github/begla/blockmania/generators/ObjectGeneratorLSystemTree.java:61-70 | a character's expansion changes the depth as the character does and underflows exactly when the character does |
| LSystem.StepKeepsNet | src/com/github/begla/blockmania/generators/ObjectGeneratorLSystemTree.java:58-71 | a step keeps the net bracket depth of a string |
| LSystem.StepKeepsUnderflow | src/com/github/begla/blockmania/generators/ObjectGeneratorLSystemTree.java:58-71 | a step neither creates nor removes a ] that closes an empty stack (both directions) |
| LSystem.DeriveBalanced | src/com/github/begla/blockmania/generators/ObjectGeneratorLSystemTree.java:54-74 | every derived string is balanced, so no ] of the turtle loop pops an empty stack |
| Turtle.CubePrefixStep | src/com/github/begla/blockmania/generators/ObjectGeneratorLSystemTree.java:96-100 | taking the offsets in the order of the three loops, each non-corner offset adds one new cell to the cells visited so far and each corner adds none |
| Turtle.LeafCubeMembers | src/com/github/begla/blockmania/generators/ObjectGeneratorLSystemTree.java:94-100 | the cells the three loops visit are exactly those at most one step away on each axis, corners excluded |
| Turtle.LeafCubeSize | src/com/github/begla/blockmania/generators/ObjectGeneratorLSystemTree.java:94-100 | the leaf cube has 19 cells: 27 less the 8 corners |
| Turtle.FillLeaves | src/com/github/begla/blockmania/generators/ObjectGeneratorLSystemTree.java:102-103 | a cell of the cube that holds air becomes a leaf; every other cell keeps its block |
| Turtle.RowStageAt | src/com/github/begla/blockmania/generators/ObjectGeneratorLSystemTree.java:98-105 | after the z passes up to z, a visited non-corner air cell holds the leaf, every other cell is unchanged, and only visited cells are added |
| Turtle.PlaneStageAt | src/com/github/begla/blockmania/generators/ObjectGeneratorLSystemTree.java:97-106 | the same cell-by-cell statement for the rows of one plane |
| Turtle.CubeStageAt | src/com/github/begla/blockmania/generators/ObjectGeneratorLSystemTree.java:96-107 | the same cell-by-cell statement for the planes of the cube |
| Turtle.LeafLoopsFill | src/com/github/begla/blockmania/generators/ObjectGeneratorLSystemTree.java:93-108 | running the three nested loops to the end gives exactly the world in which every air cell of the leaf cube holds a leaf and nothing else changed |
| Turtle.FillCell | src/com/github/begla/blockmania/generators/ObjectGeneratorLSystemTree.java:99-103 | one pass of the innermost loop: a corner offset is skipped, and any other cell gets the leaf only if it holds air (a definition) |
| Turtle.RowStage | src/com/github/begla/blockmania/generators/ObjectGeneratorLSystemTree.java:98-105 | the world after the z passes from -1 up to a bound (a definition; RowStageAt states its meaning) |
| Turtle.PlaneStage | src/com/github/begla/blockmania/generators/ObjectGeneratorLSystemTree.java:97-106 | the world after the rows from -1 up to a bound (a definition; PlaneStageAt states its meaning) |
| Turtle.CubeStage | src/com/github/begla/blockmania/generators/ObjectGeneratorLSystemTree.java:96-107 | the world after the planes from -1 up to a bound (a definition; CubeStageAt and LeafLoopsFill state its meaning) |
| Turtle.Trunc | src/com/github/begla/blockmania/generators/ObjectGeneratorLSystemTree.java:89-103 | the (int) cast of a coordinate: for a non-negative value the largest integer not above it, for a negative value the smallest integer not below it |
| Turtle.CellOf | src/com/github/begla/blockmania/generators/ObjectGeneratorLSystemTree.java:89-103 | the cell a position is written at, truncated coordinate by coordinate (a definition over Trunc) |
| Turtle.Move | src/com/github/begla/blockmania/generators/ObjectGeneratorLSystemTree.java:110-115 | one step: the position plus the transformed direction, coordinate by coordinate (a definition) |
| Turtle.Exec | src/com/github/begla/blockmania/generators/ObjectGeneratorLSystemTree.java:83-143 | one pass of the turtle loop over a character: F and G draw, [ pushes both stacks, ] pops both or fails on an empty stack, the six turns rotate, anything else is ignored (a definition; the lemmas below state its properties) |
| Turtle.DrawBlock | src/com/github/begla/blockmania/generators/ObjectGeneratorLSystemTree.java:84-116 | F and G: the trunk at the cell of the position, the leaf cube filled when the orientation stack is non-empty, then one step (a definition; DrawBlockEffect states its properties) |
| Turtle.Run | src/com/github/begla/blockmania/generators/ObjectGeneratorLSystemTree.java:76-144 | the whole loop from the start pen over the string, left to right (a definition; RunStacks, RunAfterFailure and RunLeavesOnlyAir state its properties) |
| Turtle.SubCellSteps | src/com/github/begla/blockmania/generators/ObjectGeneratorLSystemTree.java:84-115 | with steps of half a cell along x, GG writes the trunk twice into the origin's cell and leaves the turtle one cell further on |
| Turtle.ExecIgnores | src/com/github/begla/blockmania/generators/ObjectGeneratorLSystemTree.java:83-143 | a character outside F, G, [, ], +, -, &, ^, \*, / leaves the drawing unchanged |
| Turtle.DrawBlockEffect | src/com/github/begla/blockmania/generators/ObjectGeneratorLSystemTree.java:84-115 | F and G put the trunk block at the turtle's cell and move the turtle one step. With the orientation stack empty nothing else changes. Any other changed cell lies in the cube around the turtle's cell, was air and is now a leaf. Every air cell of that cube gets a leaf |
| Turtle.RunStacks | src/com/github/begla/blockmania/generators/ObjectGeneratorLSystemTree.java:117-124 | the two stacks always have equal size; while no ] has failed that size is the net bracket depth read so far; the loop fails exactly when a ] meets an empty stack |
| Turtle.RunAfterFailure | src/com/github/begla/blockmania/generators/ObjectGeneratorLSystemTree.java:121-123 | once a ] has met an empty stack the rest of the string changes nothing, and earlier writes stay |
| Turtle.RunLeavesOnlyAir | src/com/github/begla/blockmania/generators/ObjectGeneratorLSystemTree.java:89-103 | after any run every cell keeps its block, holds the trunk block, or holds a leaf where there was air: leaves never overwrite a non-air block |
| Turtle.GeneratedTreeDraws | src/com/github/begla/blockmania/generators/ObjectGeneratorLSystemTree.java:54-144 | drawing the generated string never pops an empty stack and ends with both stacks empty |
| Turtle.WorldProvider.SetBlock | src/com/github/begla/blockmania/generators/ObjectGeneratorLSystemTree.java:89 | the block at the cell is replaced and no other cell changes |
| Turtle.WorldProvider.GetBlock | src/com/github/begla/blockmania/generators/ObjectGeneratorLSystemTree.java:102 | the block at a cell, air for a cell never written (a definition) |
| Turtle.TreeGenerator.Generate | src/com/github/begla/blockmania/generators/ObjectGeneratorLSystemTree.java:47-145 | generation succeeds, and the world is the one the turtle program for `Derive(5)` draws from the old world |
| Turtle.TreeGenerator.Draw | src/com/github/begla/blockmania/generators/ObjectGeneratorLSystemTree.java:76-144 | the turtle loop with its two stacks updates the world exactly as `Run` says, and reports failure exactly when `Run` fails |
| Turtle.TreeGenerator.PlaceLeafCube | src/com/github/begla/blockmania/generators/ObjectGeneratorLSystemTree.java:93-108 | the three nested loops fill the air cells of the cube around the cell with leaves, corners skipped, and change nothing else |
| Turtle.TreeGenerator.PlaceLeafPlane | src/com/github/begla/blockmania/generators/ObjectGeneratorLSystemTree.java:97-107 | the loop over y for one x runs every row of that plane, in order from -1 to 1 |
| Turtle.TreeGenerator.PlaceLeafRow | src/com/github/begla/blockmania/generators/ObjectGeneratorLSystemTree.java:98-105 | the loop over z for one x and y skips the corner offsets and puts the leaf only into cells holding air, one cell at a time, in order from -1 to 1 |
| ChunkProvider.Positions | engine-tests/src/test/java/org/terasology/world/chunks/localChunkProvider/LocalChunkProviderTest.java:151-156 | a flat int list yields one position per whole x, y, z triple; position i is (flat[3i], flat[3i+1], flat[3i+2]) |
| ChunkProvider.Flatten | engine-tests/src/test/java/org/terasology/world/chunks/localChunkProvider/LocalChunkProviderTest.java:151-156 | positions written out as x, y, z, one position after the other, as lines 153-155 add them (a definition; the inverse of Positions, by the two lemmas below) |
| ChunkProvider.PositionsOfFlatten | engine-tests/src/test/java/org/terasology/world/chunks/localChunkProvider/LocalChunkProviderTest.java:151-156 | reading back the list built by adding x, y, z of each position returns the positions |
| ChunkProvider.FlattenOfPositions | engine-tests/src/test/java/org/terasology/world/chunks/localChunkProvider/LocalChunkProviderTest.java:151-156 | a list whose length is a multiple of three is the flattening of its positions |
| ChunkProvider.SinglePosition | engine-tests/src/test/java/org/terasology/world/chunks/localChunkProvider/LocalChunkProviderTest.java:151-166 | the list 1, 2, 3 is the single position (1, 2, 3), both ways |
| ChunkProvider.WorldEntityEvents | engine-tests/src/test/java/org/terasology/world/chunks/localChunkProvider/LocalChunkProviderTest.java:80-90 | the world entity is sent OnChunkGenerated and then OnChunkLoaded for a new chunk, and only OnChunkLoaded for a restored chunk |
| ChunkProvider.Attach | engine-tests/src/test/java/org/terasology/world/chunks/localChunkProvider/LocalChunkProviderTest.java:102-107 | the components added to one entity, in order (a definition) |
| ChunkProvider.Instantiate | engine-tests/src/test/java/org/terasology/world/chunks/localChunkProvider/LocalChunkProviderTest.java:102-107 | one store: its creation, from its prefab when it has one, followed by its components (a definition) |
| ChunkProvider.Materialize | engine-tests/src/test/java/org/terasology/world/chunks/localChunkProvider/LocalChunkProviderTest.java:93-127 | the stores instantiated in order, store k into the k-th new entity (a definition; EntitiesCreated, MaterializeAddedTo and ComponentsOf state its properties) |
| ChunkProvider.BlockEventPair | engine-tests/src/test/java/org/terasology/world/chunks/localChunkProvider/LocalChunkProviderTest.java:143-194 | one mapping entry: OnAddedBlocks and then OnActivatedBlocks with the decoded positions, both to the block type's entity (a definition) |
| ChunkProvider.BlockEvents | engine-tests/src/test/java/org/terasology/world/chunks/localChunkProvider/LocalChunkProviderTest.java:143-194 | the pairs of all mapping entries, in the mapping's order (a definition; BlockEntityEvents states its property) |
| ChunkProvider.Restoration | engine-tests/src/test/java/org/terasology/world/chunks/localChunkProvider/LocalChunkProviderTest.java:131-140 | restoreEntities() on the chunk store for a restored chunk, nothing for a new one (a definition; RestoredOnce states its property) |
| ChunkProvider.ChunkEvents | engine-tests/src/test/java/org/terasology/world/chunks/localChunkProvider/LocalChunkProviderTest.java:80-90 | OnChunkGenerated for a new chunk only, then OnChunkLoaded, to the world entity (a definition; WorldEntityEvents states its property) |
| ChunkProvider.Promotion | engine-tests/src/test/java/org/terasology/world/chunks/localChunkProvider/LocalChunkProviderTest.java:80-194 | the whole log of one ready chunk: restoration, entities, block events, chunk events (a definition; the order across the four phases is the model's choice, see Left out) |
| ChunkProvider.PromotionFrame | engine-tests/src/test/java/org/terasology/world/chunks/localChunkProvider/LocalChunkProviderTest.java:80-140 | OnChunkLoaded is the last effect and, for a new chunk, OnChunkGenerated the one before it; a restored chunk's entities are restored first |
| ChunkProvider.RestoredOnce | engine-tests/src/test/java/org/terasology/world/chunks/localChunkProvider/LocalChunkProviderTest.java:131-140 | restoreEntities() is called exactly once, on the chunk's own store, for a restored chunk, and never for a new one |
| ChunkProvider.EntitiesCreated | engine-tests/src/test/java/org/terasology/world/chunks/localChunkProvider/LocalChunkProviderTest.java:93-127 | exactly one creation per entity store, in order, from the store's prefab when it has one and plain otherwise |
| ChunkProvider.MaterializeAddedTo | engine-tests/src/test/java/org/terasology/world/chunks/localChunkProvider/LocalChunkProviderTest.java:93-127 | instantiating the stores, each entity receives exactly its own store's components, and an entity outside the created range receives none |
| ChunkProvider.ComponentsAfterCreation | engine-tests/src/test/java/org/terasology/world/chunks/localChunkProvider/LocalChunkProviderTest.java:93-127 | the promotion splits around the creation of store k's entity and its components, and neither the part before nor the part after adds a component to that entity |
| ChunkProvider.PromotionAddedTo | engine-tests/src/test/java/org/terasology/world/chunks/localChunkProvider/LocalChunkProviderTest.java:93-127 | an entity receives in the whole promotion exactly the components it receives while the stores are instantiated: restoration, block events and chunk events add none |
| ChunkProvider.ComponentsOf | engine-tests/src/test/java/org/terasology/world/chunks/localChunkProvider/LocalChunkProviderTest.java:93-127 | the entity created for a store receives exactly that store's components, in order |
| ChunkProvider.BlockEntityEvents | engine-tests/src/test/java/org/terasology/world/chunks/localChunkProvider/LocalChunkProviderTest.java:143-194 | a block type's entity (not shared with another entry or the world) is sent exactly OnAddedBlocks and then OnActivatedBlocks, both with that type's decoded positions |
| ChunkProvider.HandlesFinalizedChunk | engine-tests/src/test/java/org/terasology/world/chunks/localChunkProvider/LocalChunkProviderTest.java:80-90 | a new empty chunk at (0, 0, 0): the world entity gets OnChunkGenerated, then OnChunkLoaded |
| ChunkProvider.GeneratesStoredEntities | engine-tests/src/test/java/org/terasology/world/chunks/localChunkProvider/LocalChunkProviderTest.java:93-108 | one store without prefab: one plain creation, and its component is added to the created entity |
| ChunkProvider.GeneratesStoredEntitiesFromPrefab | engine-tests/src/test/java/org/terasology/world/chunks/localChunkProvider/LocalChunkProviderTest.java:111-127 | one store with a prefab: one creation from that prefab, and its component is added to the created entity |
| ChunkProvider.RestoresEntitiesForRestoredChunks | engine-tests/src/test/java/org/terasology/world/chunks/localChunkProvider/LocalChunkProviderTest.java:131-140 | a restored chunk: its chunk store's entities are restored |
| ChunkProvider.SendsBlockEvents | engine-tests/src/test/java/org/terasology/world/chunks/localChunkProvider/LocalChunkProviderTest.java:143-194 | block 42 at (1, 2, 3) in a restored chunk: its entity's first event is OnAddedBlocks and its second OnActivatedBlocks, both holding (1, 2, 3) |
| ChunkProvider.LocalChunkProvider.CompleteUpdate | engine-tests/src/test/java/org/terasology/world/chunks/localChunkProvider/LocalChunkProviderTest.java:80-194 | the finalizer is polled exactly once; an empty poll changes nothing, and a ready chunk appends exactly its promotion to the log and advances the entity counter by the number of stores |
| ChunkProvider.ChunkFinalizer.CompleteFinalization | engine-tests/src/test/java/org/terasology/world/chunks/localChunkProvider/LocalChunkProviderTest.java:83 | a poll hands over the chunk stubbed for that poll and counts one more poll |
| ChunkProvider.LocalChunkProvider.SetWorldEntity | engine-tests/src/test/java/org/terasology/world/chunks/localChunkProvider/LocalChunkProviderTest.java:76 | the world entity is replaced, and the log and the entity counter are unchanged |
| ChunkProvider.LocalChunkProvider.Promote | engine-tests/src/test/java/org/terasology/world/chunks/localChunkProvider/LocalChunkProviderTest.java:80-194 | one ready chunk appends restoration, entity generation, block events and chunk events, in that order, and the counter advances by the number of stores |
| ChunkProvider.LocalChunkProvider.RestoreChunkEntities | engine-tests/src/test/java/org/terasology/world/chunks/localChunkProvider/LocalChunkProviderTest.java:131-140 | a restored chunk logs restoreEntities() on its chunk store; a new chunk logs nothing |
| ChunkProvider.LocalChunkProvider.AnnounceChunk | engine-tests/src/test/java/org/terasology/world/chunks/localChunkProvider/LocalChunkProviderTest.java:80-90 | the world entity is sent OnChunkGenerated (new chunk only) and then OnChunkLoaded |
| ChunkProvider.LocalChunkProvider.CreateEntity | engine-tests/src/test/java/org/terasology/world/chunks/localChunkProvider/LocalChunkProviderTest.java:102-125 | a creation, with or without prefab, returns the next fresh entity and logs itself |
| ChunkProvider.LocalChunkProvider.GenerateEntities | engine-tests/src/test/java/org/terasology/world/chunks/localChunkProvider/LocalChunkProviderTest.java:93-127 | the stores are instantiated in order, each creation followed by its components |
| ChunkProvider.LocalChunkProvider.AddComponents | engine-tests/src/test/java/org/terasology/world/chunks/localChunkProvider/LocalChunkProviderTest.java:93-127 | each component is added to the given entity, in order, and nothing else is logged |
| ChunkProvider.LocalChunkProvider.SendBlockEvents | engine-tests/src/test/java/org/terasology/world/chunks/localChunkProvider/LocalChunkProviderTest.java:143-194 | each mapping entry in order sends OnAddedBlocks and then OnActivatedBlocks to its block type's entity |

## Left out

- Floating-point turtle geometry is not modelled exactly. The position is a vector of reals, so the rounding of the float additions at lines 113-115 is not modelled. The rotations by π/2 and π/3 (`Matrix4f.rotate`) and the direction transform at line 111 are not modelled either. A heading is the list of turns applied so far, and its direction is the parameter `Env.direction`, so the contracts hold for every direction function. The truncation of the position to a cell is modelled (`Trunc`, `CellOf`).
- The block-name lookups (`"Tree trunk"`, `"Dark leaf"`) are not modelled. The two block ids are parameters in `Env`. `DrawBlockEffect` and `RunLeavesOnlyAir` require the trunk id to be non-air, as the real trunk block is; with an air trunk the leaf loop would also fill the trunk's own cell.
- Cell coordinates are unbounded integers (`Turtle.Cell`, `CellOf`, `Plus`). The source adds the origin, the truncated position and the leaf offset as 32-bit Java `int`s, which can wrap around, and its `(int)` cast of a float saturates at the `int` range. Neither is modelled.
- `LocalWorldProvider` is not part of this model. `WorldProvider.SetBlock` is taken to replace the block at the cell unconditionally. Both flags that lines 89 and 103 pass to `setBlock` (`update` and `false`) are ignored; what they do is not modelled.
- An empty-stack `]` would throw in the generator. The model records it as a failed drawing that stops the loop, keeping the blocks already written. For the string the generator derives, this case is proved never to happen.
- The ready-chunk finalizer runs on background threads with a concurrent queue. This is not modelled. One poll is `ChunkFinalizer.CompleteFinalization`, which returns `results(polls)`, the result stubbed for that poll, and counts the poll.
- Mockito mechanics and the entity system's internals are not modelled. Each collaborator call is an uninterpreted, logged `Effect`. The k-th entity the entity manager creates is `EntityRef(k)`.
- The block registry is not modelled: `BlockManager.getBlock(id).getEntity()` is the function `blockEntityOf`. Also left out, because no test asserts them:
  - unknown block ids;
  - block mappings of new chunks, which are treated like those of restored chunks;
  - entity-creation failures;
  - how the promoted chunk becomes visible in the provider's chunk registry.
- The block-position mapping is a hash map in the source. The model takes its entries as a sequence in the map's iteration order, so block types are served in that order.
- ChunkProvider.Positions: a trailing partial triple is dropped; no test covers a list whose length is not a multiple of three.
- Promotion: the order across the four phases is this model's choice. No test assertion relates restoration, entity creation, block events and chunk events to one another. So PromotionFrame's "restoration first, OnChunkLoaded last" and the order stated by Promote and CompleteUpdate rest on that choice.
- Promotion: the entity stores of a restored chunk are created like those of a new chunk. Every restored-chunk test passes an empty list of stores.
- BlockEvents: with several block types, the events go type by type, each OnAddedBlocks directly followed by its OnActivatedBlocks. The tests have one block type, so this interleaving is the model's choice.
