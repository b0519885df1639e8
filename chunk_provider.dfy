/** The main-thread promotion of one finalized chunk by the local chunk
    provider's `completeUpdate`: the chunk store's entities are restored (for a
    restored chunk), stored entities are created and given their components,
    each block type's entity is told of its added and activated blocks, and the
    world entity is told that the chunk was generated (new chunks only) and
    loaded. Every collaborator call is recorded in an append-only effect log. */
module ChunkProvider {

  datatype Option<T> = None | Some(value: T)

  /** Block-type ids are Java shorts. */
  newtype BlockTypeId = x: int | -32768 <= x < 32768

  datatype Vector3i = Vector3i(x: int, y: int, z: int)
  datatype Chunk = Chunk(position: Vector3i)
  datatype Prefab = Prefab(name: string)
  datatype Component = Component(name: string)
  datatype EntityRef = EntityRef(id: nat)
  datatype ChunkStore = ChunkStore(id: nat)

  /** An entity to create: an optional prefab and the components to add to it, in order. */
  datatype EntityStore = EntityStore(prefab: Option<Prefab>, components: seq<Component>)

  /** One entry of a chunk's block-position mapping: a block type and the
      positions of its blocks as a flat list of x, y, z triples. */
  datatype BlockPositions = BlockPositions(blockId: BlockTypeId, positions: seq<int>)

  /** A finalized chunk, either freshly generated or restored from storage.
      `mappings` lists the mapping's entries in its iteration order. */
  datatype ReadyChunkInfo =
    | NewChunk(chunk: Chunk, mappings: seq<BlockPositions>, entityStores: seq<EntityStore>)
    | RestoredChunk(chunk: Chunk, mappings: seq<BlockPositions>, chunkStore: ChunkStore, entityStores: seq<EntityStore>)

  datatype Event =
    | OnChunkGenerated(chunk: Chunk)
    | OnChunkLoaded(chunk: Chunk)
    | OnAddedBlocks(blockId: BlockTypeId, blockPositions: seq<Vector3i>)
    | OnActivatedBlocks(blockId: BlockTypeId, blockPositions: seq<Vector3i>)

  /** A call into a collaborator, as it appears in the effect log. `Create`
      with no prefab is the plain `create()`. */
  datatype Effect =
    | RestoreEntities(store: ChunkStore)
    | Create(prefab: Option<Prefab>, entity: EntityRef)
    | AddComponent(entity: EntityRef, component: Component)
    | Send(target: EntityRef, event: Event)

  // ---------------------------------------------------------------------
  // Block positions: flat int lists read as x, y, z triples

  function Positions(flat: seq<int>): (ps: seq<Vector3i>)
    ensures |ps| == |flat| / 3
    ensures forall i :: 0 <= i < |ps| ==> ps[i] == Vector3i(flat[3 * i], flat[3 * i + 1], flat[3 * i + 2])
  {
    if |flat| < 3 then [] else [Vector3i(flat[0], flat[1], flat[2])] + Positions(flat[3..])
  }

  /** The flat list that adding x, y and z of each position in turn produces. */
  function Flatten(ps: seq<Vector3i>): (flat: seq<int>)
  {
    if ps == [] then [] else [ps[0].x, ps[0].y, ps[0].z] + Flatten(ps[1..])
  }

  lemma {:induction false} PositionsOfFlatten(ps: seq<Vector3i>)
    ensures Positions(Flatten(ps)) == ps
  {
    if ps != [] {
      PositionsOfFlatten(ps[1..]);
      var flat := Flatten(ps);
      assert flat[3..] == Flatten(ps[1..]);
    }
  }

  lemma {:induction false} FlattenOfPositions(flat: seq<int>)
    requires |flat| % 3 == 0
    ensures Flatten(Positions(flat)) == flat
  {
    if flat != [] {
      FlattenOfPositions(flat[3..]);
      assert flat == flat[..3] + flat[3..];
    }
  }

  /** The list 1, 2, 3 is the single position (1, 2, 3). */
  lemma {:induction false} SinglePosition()
    ensures Flatten([Vector3i(1, 2, 3)]) == [1, 2, 3]
    ensures Positions([1, 2, 3]) == [Vector3i(1, 2, 3)]
  {
    PositionsOfFlatten([Vector3i(1, 2, 3)]);
  }

  // ---------------------------------------------------------------------
  // The effects of promoting one chunk

  /** The components of a store, added one by one to `e`. */
  function Attach(e: EntityRef, components: seq<Component>): seq<Effect>
  {
    if components == [] then []
    else Attach(e, components[..|components| - 1]) + [AddComponent(e, components[|components| - 1])]
  }

  function Instantiate(store: EntityStore, e: EntityRef): seq<Effect>
  {
    [Create(store.prefab, e)] + Attach(e, store.components)
  }

  /** The stores instantiated in order; the entity manager's k-th creation is EntityRef(k). */
  function Materialize(stores: seq<EntityStore>, first: nat): seq<Effect>
  {
    if stores == [] then []
    else Instantiate(stores[0], EntityRef(first)) + Materialize(stores[1..], first + 1)
  }

  /** The two events for one block type, both addressed to its block entity. */
  function BlockEventPair(m: BlockPositions, blockEntity: BlockTypeId -> EntityRef): seq<Effect>
  {
    var target := blockEntity(m.blockId);
    var ps := Positions(m.positions);
    [Send(target, OnAddedBlocks(m.blockId, ps)), Send(target, OnActivatedBlocks(m.blockId, ps))]
  }

  function BlockEvents(mappings: seq<BlockPositions>, blockEntity: BlockTypeId -> EntityRef): seq<Effect>
  {
    if mappings == [] then []
    else BlockEventPair(mappings[0], blockEntity) + BlockEvents(mappings[1..], blockEntity)
  }

  function Restoration(info: ReadyChunkInfo): seq<Effect>
  {
    if info.RestoredChunk? then [RestoreEntities(info.chunkStore)] else []
  }

  function ChunkEvents(info: ReadyChunkInfo, world: EntityRef): seq<Effect>
  {
    (if info.NewChunk? then [Send(world, OnChunkGenerated(info.chunk))] else [])
      + [Send(world, OnChunkLoaded(info.chunk))]
  }

  /** Everything `completeUpdate` does with one ready chunk, in order. */
  function Promotion(info: ReadyChunkInfo, first: nat, world: EntityRef, blockEntity: BlockTypeId -> EntityRef): seq<Effect>
  {
    Restoration(info) + Materialize(info.entityStores, first) + BlockEvents(info.mappings, blockEntity)
      + ChunkEvents(info, world)
  }

  // ---------------------------------------------------------------------
  // Views of an effect log

  /** The events sent to `target`, in order. */
  function SentTo(log: seq<Effect>, target: EntityRef): seq<Event>
  {
    if log == [] then []
    else (if log[0].Send? && log[0].target == target then [log[0].event] else []) + SentTo(log[1..], target)
  }

  /** The components added to `e`, in order. */
  function AddedTo(log: seq<Effect>, e: EntityRef): seq<Component>
  {
    if log == [] then []
    else (if log[0].AddComponent? && log[0].entity == e then [log[0].component] else []) + AddedTo(log[1..], e)
  }

  /** The entity creations, in order. */
  function Creations(log: seq<Effect>): seq<Effect>
  {
    if log == [] then []
    else (if log[0].Create? then [log[0]] else []) + Creations(log[1..])
  }

  /** The chunk stores whose entities were restored, in order. */
  function Restorations(log: seq<Effect>): seq<ChunkStore>
  {
    if log == [] then []
    else (if log[0].RestoreEntities? then [log[0].store] else []) + Restorations(log[1..])
  }

  lemma {:induction false} SentToConcat(a: seq<Effect>, b: seq<Effect>, t: EntityRef)
    ensures SentTo(a + b, t) == SentTo(a, t) + SentTo(b, t)
  {
    if a == [] {
      assert a + b == b;
    } else {
      var head := if a[0].Send? && a[0].target == t then [a[0].event] else [];
      assert (a + b)[0] == a[0] && (a + b)[1..] == a[1..] + b;
      assert SentTo(a + b, t) == head + SentTo(a[1..] + b, t);
      SentToConcat(a[1..], b, t);
      assert SentTo(a, t) == head + SentTo(a[1..], t);
      assert head + (SentTo(a[1..], t) + SentTo(b, t)) == head + SentTo(a[1..], t) + SentTo(b, t);
    }
  }


  lemma {:induction false} AddedToConcat(a: seq<Effect>, b: seq<Effect>, e: EntityRef)
    ensures AddedTo(a + b, e) == AddedTo(a, e) + AddedTo(b, e)
  {
    if a == [] {
      assert a + b == b;
    } else {
      var head := if a[0].AddComponent? && a[0].entity == e then [a[0].component] else [];
      assert (a + b)[0] == a[0] && (a + b)[1..] == a[1..] + b;
      assert AddedTo(a + b, e) == head + AddedTo(a[1..] + b, e);
      AddedToConcat(a[1..], b, e);
      assert AddedTo(a, e) == head + AddedTo(a[1..], e);
      assert head + (AddedTo(a[1..], e) + AddedTo(b, e)) == head + AddedTo(a[1..], e) + AddedTo(b, e);
    }
  }


  lemma {:induction false} CreationsConcat(a: seq<Effect>, b: seq<Effect>)
    ensures Creations(a + b) == Creations(a) + Creations(b)
  {
    if a == [] {
      assert a + b == b;
    } else {
      var head := if a[0].Create? then [a[0]] else [];
      assert (a + b)[0] == a[0] && (a + b)[1..] == a[1..] + b;
      assert Creations(a + b) == head + Creations(a[1..] + b);
      CreationsConcat(a[1..], b);
      assert Creations(a) == head + Creations(a[1..]);
      assert head + (Creations(a[1..]) + Creations(b)) == head + Creations(a[1..]) + Creations(b);
    }
  }


  lemma {:induction false} RestorationsConcat(a: seq<Effect>, b: seq<Effect>)
    ensures Restorations(a + b) == Restorations(a) + Restorations(b)
  {
    if a == [] {
      assert a + b == b;
    } else {
      var head := if a[0].RestoreEntities? then [a[0].store] else [];
      assert (a + b)[0] == a[0] && (a + b)[1..] == a[1..] + b;
      assert Restorations(a + b) == head + Restorations(a[1..] + b);
      RestorationsConcat(a[1..], b);
      assert Restorations(a) == head + Restorations(a[1..]);
      assert head + (Restorations(a[1..]) + Restorations(b)) == head + Restorations(a[1..]) + Restorations(b);
    }
  }


  /** A log with no event for `t` sends nothing to `t`. */
  lemma {:induction false} SentToNone(log: seq<Effect>, t: EntityRef)
    requires forall i :: 0 <= i < |log| ==> !(log[i].Send? && log[i].target == t)
    ensures SentTo(log, t) == []
  {
    if log != [] {
      SentToNone(log[1..], t);
    }
  }

  lemma {:induction false} AddedToNone(log: seq<Effect>, e: EntityRef)
    requires forall i :: 0 <= i < |log| ==> !(log[i].AddComponent? && log[i].entity == e)
    ensures AddedTo(log, e) == []
  {
    if log != [] {
      AddedToNone(log[1..], e);
    }
  }

  lemma {:induction false} CreationsNone(log: seq<Effect>)
    requires forall i :: 0 <= i < |log| ==> !log[i].Create?
    ensures Creations(log) == []
  {
    if log != [] {
      CreationsNone(log[1..]);
    }
  }

  lemma {:induction false} RestorationsNone(log: seq<Effect>)
    requires forall i :: 0 <= i < |log| ==> !log[i].RestoreEntities?
    ensures Restorations(log) == []
  {
    if log != [] {
      RestorationsNone(log[1..]);
    }
  }

  /** Attaching components adds exactly them, in order, to `e` and does nothing else. */
  lemma {:induction false} AttachShape(e: EntityRef, components: seq<Component>)
    ensures |Attach(e, components)| == |components|
    ensures forall i :: 0 <= i < |components| ==> Attach(e, components)[i] == AddComponent(e, components[i])
  {
    if components != [] {
      AttachShape(e, components[..|components| - 1]);
    }
  }

  lemma {:induction false} AttachAddedTo(e: EntityRef, components: seq<Component>, e': EntityRef)
    ensures AddedTo(Attach(e, components), e') == if e' == e then components else []
  {
    if components != [] {
      var n := |components|;
      var x := AddComponent(e, components[n - 1]);
      AttachAddedTo(e, components[..n - 1], e');
      AddedToConcat(Attach(e, components[..n - 1]), [x], e');
      assert [x][1..] == [];
      assert components[..n - 1] + [components[n - 1]] == components;
    }
  }

  /** Every effect of materializing stores creates, or adds a component to, one
      of the entities first .. first + |stores| - 1. */
  lemma {:induction false} MaterializeShape(stores: seq<EntityStore>, first: nat)
    ensures forall i :: 0 <= i < |Materialize(stores, first)| ==>
      var x := Materialize(stores, first)[i];
      (x.Create? || x.AddComponent?) && first <= x.entity.id < first + |stores|
  {
    if stores != [] {
      MaterializeShape(stores[1..], first + 1);
      AttachShape(EntityRef(first), stores[0].components);
    }
  }

  lemma {:induction false} MaterializeConcat(a: seq<EntityStore>, b: seq<EntityStore>, first: nat)
    ensures Materialize(a + b, first) == Materialize(a, first) + Materialize(b, first + |a|)
  {
    if a == [] {
      assert a + b == b;
    } else {
      assert (a + b)[0] == a[0] && (a + b)[1..] == a[1..] + b;
      MaterializeConcat(a[1..], b, first + 1);
      assert Instantiate(a[0], EntityRef(first)) + (Materialize(a[1..], first + 1) + Materialize(b, first + |a|)) == Instantiate(a[0], EntityRef(first)) + Materialize(a[1..], first + 1) + Materialize(b, first + |a|);
    }
  }

  lemma {:induction false} MaterializeSnoc(stores: seq<EntityStore>, store: EntityStore, first: nat)
    ensures Materialize(stores + [store], first)
      == Materialize(stores, first) + Instantiate(store, EntityRef(first + |stores|))
  {
    MaterializeConcat(stores, [store], first);
    assert [store][1..] == [];
  }

  /** Materializing creates one entity per store, with that store's prefab, in order. */
  lemma {:induction false} MaterializeCreations(stores: seq<EntityStore>, first: nat)
    ensures |Creations(Materialize(stores, first))| == |stores|
    ensures forall i :: 0 <= i < |stores| ==>
      Creations(Materialize(stores, first))[i] == Create(stores[i].prefab, EntityRef(first + i))
  {
    if stores != [] {
      var e := EntityRef(first);
      var created := Create(stores[0].prefab, e);
      var attached := Attach(e, stores[0].components);
      var cs := Creations(Materialize(stores[1..], first + 1));
      assert Creations(Instantiate(stores[0], e)) == [created] by {
        CreationsConcat([created], attached);
        AttachShape(e, stores[0].components);
        CreationsNone(attached);
        assert [created][1..] == [];
        assert (Creations([created]) == [] ==> Creations([created]) + Creations(attached) == Creations(attached)) && (Creations(attached) == [] ==> Creations([created]) + Creations(attached) == Creations([created]));
      }
      CreationsConcat(Instantiate(stores[0], e), Materialize(stores[1..], first + 1));
      assert Creations(Materialize(stores, first)) == [created] + cs;
      MaterializeCreations(stores[1..], first + 1);
      forall i | 1 <= i < |stores|
        ensures ([created] + cs)[i] == Create(stores[i].prefab, EntityRef(first + i))
      {
        assert ([created] + cs)[i] == cs[i - 1];
        assert stores[1..][i - 1] == stores[i];
      }
    }
  }

  /** Every block event is a send to the block entity of one of the mapping's entries. */
  lemma {:induction false} BlockEventsShape(mappings: seq<BlockPositions>, blockEntity: BlockTypeId -> EntityRef, t: EntityRef)
    ensures forall i :: 0 <= i < |BlockEvents(mappings, blockEntity)| ==> BlockEvents(mappings, blockEntity)[i].Send?
    ensures (forall j :: 0 <= j < |mappings| ==> blockEntity(mappings[j].blockId) != t) ==>
      forall i :: 0 <= i < |BlockEvents(mappings, blockEntity)| ==> BlockEvents(mappings, blockEntity)[i].target != t
  {
    if mappings != [] {
      BlockEventsShape(mappings[1..], blockEntity, t);
    }
  }

  lemma {:induction false} BlockEventsConcat(a: seq<BlockPositions>, b: seq<BlockPositions>, blockEntity: BlockTypeId -> EntityRef)
    ensures BlockEvents(a + b, blockEntity) == BlockEvents(a, blockEntity) + BlockEvents(b, blockEntity)
  {
    if a == [] {
      assert a + b == b;
    } else {
      assert (a + b)[0] == a[0] && (a + b)[1..] == a[1..] + b;
      BlockEventsConcat(a[1..], b, blockEntity);
      assert BlockEventPair(a[0], blockEntity) + (BlockEvents(a[1..], blockEntity) + BlockEvents(b, blockEntity)) == BlockEventPair(a[0], blockEntity) + BlockEvents(a[1..], blockEntity) + BlockEvents(b, blockEntity);
    }
  }

  lemma {:induction false} BlockEventsSnoc(mappings: seq<BlockPositions>, m: BlockPositions, blockEntity: BlockTypeId -> EntityRef)
    ensures BlockEvents(mappings + [m], blockEntity) == BlockEvents(mappings, blockEntity) + BlockEventPair(m, blockEntity)
  {
    BlockEventsConcat(mappings, [m], blockEntity);
    assert [m][1..] == [];
  }

  /** Block events are sends only, and none reaches an entity that no entry's block type has. */
  lemma {:induction false} BlockEventsSendOnly(mappings: seq<BlockPositions>, blockEntity: BlockTypeId -> EntityRef, t: EntityRef)
    requires forall j :: 0 <= j < |mappings| ==> blockEntity(mappings[j].blockId) != t
    ensures SentTo(BlockEvents(mappings, blockEntity), t) == []
    ensures forall e :: AddedTo(BlockEvents(mappings, blockEntity), e) == []
    ensures Creations(BlockEvents(mappings, blockEntity)) == []
    ensures Restorations(BlockEvents(mappings, blockEntity)) == []
  {
    var log := BlockEvents(mappings, blockEntity);
    BlockEventsShape(mappings, blockEntity, t);
    SentToNone(log, t);
    forall e {
      AddedToNone(log, e);
    }
    CreationsNone(log);
    RestorationsNone(log);
  }

  /** The restoration step only restores: it sends, creates and attaches nothing. */
  lemma {:induction false} RestorationQuiet(info: ReadyChunkInfo, t: EntityRef, e: EntityRef)
    ensures var r := Restoration(info);
      && SentTo(r, t) == [] && AddedTo(r, e) == [] && Creations(r) == []
      && Restorations(r) == if info.RestoredChunk? then [info.chunkStore] else []
  {
    if info.RestoredChunk? {
      assert [RestoreEntities(info.chunkStore)][1..] == [];
    }
  }

  /** The chunk events are sends to the world entity only. */
  lemma {:induction false} ChunkEventsQuiet(info: ReadyChunkInfo, world: EntityRef, t: EntityRef, e: EntityRef)
    ensures var c := ChunkEvents(info, world);
      && AddedTo(c, e) == [] && Creations(c) == [] && Restorations(c) == []
      && (t != world ==> SentTo(c, t) == [])
  {
    var c := ChunkEvents(info, world);
    assert forall i :: 0 <= i < |c| ==> c[i].Send? && c[i].target == world;
    AddedToNone(c, e);
    CreationsNone(c);
    RestorationsNone(c);
    if t != world {
      SentToNone(c, t);
    }
  }

  /** Block events send only: they create, attach and restore nothing. */
  lemma {:induction false} BlockEventsQuiet(mappings: seq<BlockPositions>, blockEntity: BlockTypeId -> EntityRef, e: EntityRef)
    ensures var b := BlockEvents(mappings, blockEntity);
      AddedTo(b, e) == [] && Creations(b) == [] && Restorations(b) == []
  {
    var b := BlockEvents(mappings, blockEntity);
    BlockEventsShape(mappings, blockEntity, e);
    AddedToNone(b, e);
    CreationsNone(b);
    RestorationsNone(b);
  }

  /** Materializing entities sends and restores nothing. */
  lemma {:induction false} MaterializeQuiet(stores: seq<EntityStore>, first: nat, t: EntityRef)
    ensures var m := Materialize(stores, first);
      SentTo(m, t) == [] && Restorations(m) == []
  {
    var m := Materialize(stores, first);
    MaterializeShape(stores, first);
    SentToNone(m, t);
    RestorationsNone(m);
  }

  // ---------------------------------------------------------------------
  // What the promotion of one chunk promises

  /** The world entity receives OnChunkGenerated and then OnChunkLoaded for a
      new chunk, and only OnChunkLoaded for a restored one (when no block
      type's entity is the world entity). */
  lemma {:induction false} WorldEntityEvents(info: ReadyChunkInfo, first: nat, world: EntityRef, blockEntity: BlockTypeId -> EntityRef)
    requires forall j :: 0 <= j < |info.mappings| ==> blockEntity(info.mappings[j].blockId) != world
    ensures SentTo(Promotion(info, first, world, blockEntity), world)
      == if info.NewChunk? then [OnChunkGenerated(info.chunk), OnChunkLoaded(info.chunk)] else [OnChunkLoaded(info.chunk)]
  {
    var r, m, b, c := Restoration(info), Materialize(info.entityStores, first),
                      BlockEvents(info.mappings, blockEntity), ChunkEvents(info, world);
    assert SentTo(r, world) == [] by { RestorationQuiet(info, world, world); }
    assert SentTo(m, world) == [] by { MaterializeQuiet(info.entityStores, first, world); }
    assert SentTo(b, world) == [] by { BlockEventsSendOnly(info.mappings, blockEntity, world); }
    ChunkEventsSentTo(info, world);
    SentToConcat(r, m, world);
    SentToConcat(r + m, b, world);
    SentToConcat(r + m + b, c, world);
    assert SentTo(r, world) + SentTo(m, world) + SentTo(b, world) + SentTo(c, world) == SentTo(c, world);
  }

  lemma {:induction false} ChunkEventsSentTo(info: ReadyChunkInfo, world: EntityRef)
    ensures SentTo(ChunkEvents(info, world), world)
      == if info.NewChunk? then [OnChunkGenerated(info.chunk), OnChunkLoaded(info.chunk)] else [OnChunkLoaded(info.chunk)]
  {
    var c := ChunkEvents(info, world);
    if info.NewChunk? {
      assert c[1..] == [c[1]] && c[1..][1..] == [];
      assert SentTo(c[1..], world) == [OnChunkLoaded(info.chunk)] + SentTo(c[1..][1..], world);
    } else {
      assert c[1..] == [];
    }
  }

  /** The last effect is OnChunkLoaded to the world entity, preceded for a new
      chunk by OnChunkGenerated; a restored chunk's entities are restored first. */
  lemma {:induction false} PromotionFrame(info: ReadyChunkInfo, first: nat, world: EntityRef, blockEntity: BlockTypeId -> EntityRef)
    ensures var trace := Promotion(info, first, world, blockEntity);
      && |trace| >= 1
      && trace[|trace| - 1] == Send(world, OnChunkLoaded(info.chunk))
      && (info.NewChunk? ==> |trace| >= 2 && trace[|trace| - 2] == Send(world, OnChunkGenerated(info.chunk)))
      && (info.RestoredChunk? ==> trace[0] == RestoreEntities(info.chunkStore))
  {
  }

  /** The chunk store's entities are restored exactly once for a restored
      chunk and never for a new one. */
  lemma {:induction false} RestoredOnce(info: ReadyChunkInfo, first: nat, world: EntityRef, blockEntity: BlockTypeId -> EntityRef)
    ensures Restorations(Promotion(info, first, world, blockEntity))
      == if info.RestoredChunk? then [info.chunkStore] else []
  {
    var r, m, b, c := Restoration(info), Materialize(info.entityStores, first),
                      BlockEvents(info.mappings, blockEntity), ChunkEvents(info, world);
    RestorationsConcat(r, m);
    RestorationsConcat(r + m, b);
    RestorationsConcat(r + m + b, c);
    RestorationQuiet(info, world, world);
    MaterializeQuiet(info.entityStores, first, world);
    BlockEventsQuiet(info.mappings, blockEntity, world);
    ChunkEventsQuiet(info, world, world, world);
  }

  /** One entity is created per entity store, in order: with the store's
      prefab when it has one, by plain creation otherwise. */
  lemma {:induction false} EntitiesCreated(info: ReadyChunkInfo, first: nat, world: EntityRef, blockEntity: BlockTypeId -> EntityRef)
    ensures var creations := Creations(Promotion(info, first, world, blockEntity));
      && |creations| == |info.entityStores|
      && forall i :: 0 <= i < |info.entityStores| ==>
           creations[i] == Create(info.entityStores[i].prefab, EntityRef(first + i))
  {
    PromotionCreations(info, first, world, blockEntity);
    MaterializeCreations(info.entityStores, first);
  }

  /** Only the materialized stores create entities. */
  lemma {:induction false} PromotionCreations(info: ReadyChunkInfo, first: nat, world: EntityRef, blockEntity: BlockTypeId -> EntityRef)
    ensures Creations(Promotion(info, first, world, blockEntity)) == Creations(Materialize(info.entityStores, first))
  {
    var r, m, b, c := Restoration(info), Materialize(info.entityStores, first),
                      BlockEvents(info.mappings, blockEntity), ChunkEvents(info, world);
    CreationsConcat(r, m);
    CreationsConcat(r + m, b);
    CreationsConcat(r + m + b, c);
    RestorationQuiet(info, world, world);
    BlockEventsQuiet(info.mappings, blockEntity, world);
    ChunkEventsQuiet(info, world, world, world);
  }

  /** Each entity the stores are materialized into receives exactly its store's components. */
  lemma {:induction false} MaterializeAddedTo(stores: seq<EntityStore>, first: nat, e: EntityRef)
    ensures AddedTo(Materialize(stores, first), e)
      == if first <= e.id < first + |stores| then stores[e.id - first].components else []
  {
    if stores != [] {
      var created := Create(stores[0].prefab, EntityRef(first));
      var attached := Attach(EntityRef(first), stores[0].components);
      var rest := Materialize(stores[1..], first + 1);
      MaterializeAddedTo(stores[1..], first + 1, e);
      AttachAddedTo(EntityRef(first), stores[0].components, e);
      AddedToConcat([created] + attached, rest, e);
      AddedToConcat([created], attached, e);
      assert [created][1..] == [];
      if first + 1 <= e.id < first + |stores| {
        assert stores[1..][e.id - (first + 1)] == stores[e.id - first];
      }
    }
  }

  /** Materializing splits around any one store. */
  lemma {:induction false} MaterializeAround(stores: seq<EntityStore>, first: nat, k: nat)
    requires k < |stores|
    ensures Materialize(stores, first)
      == Materialize(stores[..k], first)
         + (Instantiate(stores[k], EntityRef(first + k)) + Materialize(stores[k + 1..], first + k + 1))
  {
    var prefix, store, suffix := stores[..k], stores[k], stores[k + 1..];
    assert stores == prefix + ([store] + suffix);
    MaterializeConcat(prefix, [store] + suffix, first);
    MaterializeConcat([store], suffix, first + k);
    assert [store][1..] == [];
  }

  /** Nothing before the creation of the entity for store k adds a component to it. */
  lemma {:induction false} QuietBefore(info: ReadyChunkInfo, first: nat, world: EntityRef, k: nat)
    requires k < |info.entityStores|
    ensures AddedTo(Restoration(info) + Materialize(info.entityStores[..k], first), EntityRef(first + k)) == []
  {
    var e := EntityRef(first + k);
    RestorationQuiet(info, world, e);
    MaterializeAddedTo(info.entityStores[..k], first, e);
    AddedToConcat(Restoration(info), Materialize(info.entityStores[..k], first), e);
  }

  /** Nothing after the components of the entity for store k adds a component to it. */
  lemma {:induction false} QuietAfter(info: ReadyChunkInfo, first: nat, world: EntityRef, blockEntity: BlockTypeId -> EntityRef, k: nat)
    requires k < |info.entityStores|
    ensures AddedTo(Materialize(info.entityStores[k + 1..], first + k + 1)
                    + (BlockEvents(info.mappings, blockEntity) + ChunkEvents(info, world)), EntityRef(first + k)) == []
  {
    var e := EntityRef(first + k);
    var ms, b, c := Materialize(info.entityStores[k + 1..], first + k + 1),
                    BlockEvents(info.mappings, blockEntity), ChunkEvents(info, world);
    assert AddedTo(ms, e) == [] by {
      MaterializeAddedTo(info.entityStores[k + 1..], first + k + 1, e);
    }
    assert AddedTo(b + c, e) == [] by {
      BlockEventsQuiet(info.mappings, blockEntity, e);
      ChunkEventsQuiet(info, world, world, e);
      AddedToConcat(b, c, e);
      assert (AddedTo(b, e) == [] ==> AddedTo(b, e) + AddedTo(c, e) == AddedTo(c, e)) && (AddedTo(c, e) == [] ==> AddedTo(b, e) + AddedTo(c, e) == AddedTo(b, e));
    }
    AddedToConcat(ms, b + c, e);
    assert (AddedTo(ms, e) == [] ==> AddedTo(ms, e) + AddedTo(b + c, e) == AddedTo(b + c, e)) && (AddedTo(b + c, e) == [] ==> AddedTo(ms, e) + AddedTo(b + c, e) == AddedTo(ms, e));
  }

  /** Regrouping six sequences, proved apart from the promotion's own terms:
      with those in scope the solver unfolds them instead. */
  lemma Regroup<T>(r: seq<T>, mp: seq<T>, inst: seq<T>, ms: seq<T>, b: seq<T>, c: seq<T>)
    ensures r + (mp + (inst + ms)) + b + c == r + mp + inst + (ms + (b + c))
  {
  }

  /** Appending the four phases one by one is appending their concatenation. */
  lemma AppendAssoc4<T>(log: seq<T>, r: seq<T>, m: seq<T>, b: seq<T>, c: seq<T>)
    ensures log + (r + m + b + c) == log + r + m + b + c
  {
  }

  /** The entity for store k is created, then receives that store's components, and
      nothing before its creation or after its components adds a component to it. */
  lemma {:induction false} ComponentsAfterCreation(info: ReadyChunkInfo, first: nat, world: EntityRef, blockEntity: BlockTypeId -> EntityRef, k: nat)
    returns (before: seq<Effect>, after: seq<Effect>)
    requires k < |info.entityStores|
    ensures Promotion(info, first, world, blockEntity)
      == before + Instantiate(info.entityStores[k], EntityRef(first + k)) + after
    ensures AddedTo(before, EntityRef(first + k)) == []
    ensures AddedTo(after, EntityRef(first + k)) == []
  {
    var stores := info.entityStores;
    var r, b, c := Restoration(info), BlockEvents(info.mappings, blockEntity), ChunkEvents(info, world);
    var mp, ms := Materialize(stores[..k], first), Materialize(stores[k + 1..], first + k + 1);
    before := r + mp;
    after := ms + (b + c);
    QuietBefore(info, first, world, k);
    QuietAfter(info, first, world, blockEntity, k);
    MaterializeAround(stores, first, k);
    Regroup(r, mp, Instantiate(stores[k], EntityRef(first + k)), ms, b, c);
  }

  /** The entity created for store k receives exactly that store's components, in order. */
  lemma {:induction false} ComponentsOf(info: ReadyChunkInfo, first: nat, world: EntityRef, blockEntity: BlockTypeId -> EntityRef, k: nat)
    requires k < |info.entityStores|
    ensures AddedTo(Promotion(info, first, world, blockEntity), EntityRef(first + k)) == info.entityStores[k].components
  {
    var e := EntityRef(first + k);
    PromotionAddedTo(info, first, world, blockEntity, e);
    MaterializeAddedTo(info.entityStores, first, e);
  }

  /** Components are added only while the entities are generated: restoration,
      block events and chunk events add none. */
  lemma {:induction false} PromotionAddedTo(info: ReadyChunkInfo, first: nat, world: EntityRef, blockEntity: BlockTypeId -> EntityRef, e: EntityRef)
    ensures AddedTo(Promotion(info, first, world, blockEntity), e) == AddedTo(Materialize(info.entityStores, first), e)
  {
    var r, m, b, c := Restoration(info), Materialize(info.entityStores, first),
                      BlockEvents(info.mappings, blockEntity), ChunkEvents(info, world);
    assert AddedTo(r + m + b + c, e) == AddedTo(r, e) + AddedTo(m, e) + AddedTo(b, e) + AddedTo(c, e) by {
      AddedToConcat(r, m, e);
      AddedToConcat(r + m, b, e);
      AddedToConcat(r + m + b, c, e);
    }
    assert AddedTo(r, e) == [] by { RestorationQuiet(info, world, e); }
    assert AddedTo(b, e) == [] by { BlockEventsQuiet(info.mappings, blockEntity, e); }
    assert AddedTo(c, e) == [] by { ChunkEventsQuiet(info, world, world, e); }
    assert AddedTo(r, e) + AddedTo(m, e) + AddedTo(b, e) + AddedTo(c, e) == AddedTo(m, e);
  }

  /** Within the block events, a block entity that no other entry shares
      receives its entry's two events and nothing else. */
  lemma {:induction false} PairSentTo(m: BlockPositions, blockEntity: BlockTypeId -> EntityRef, t: EntityRef)
    ensures SentTo(BlockEventPair(m, blockEntity), t)
      == if blockEntity(m.blockId) == t
         then [OnAddedBlocks(m.blockId, Positions(m.positions)), OnActivatedBlocks(m.blockId, Positions(m.positions))]
         else []
  {
    var pair := BlockEventPair(m, blockEntity);
    var hit := blockEntity(m.blockId) == t;
    var first: seq<Event> := if hit then [pair[0].event] else [];
    var second: seq<Event> := if hit then [pair[1].event] else [];
    assert pair[1..] == [pair[1]] && pair[1..][1..] == [];
    assert SentTo(pair[1..], t) == second + SentTo(pair[1..][1..], t);
    assert (second == [] ==> second + SentTo(pair[1..][1..], t) == SentTo(pair[1..][1..], t)) && (SentTo(pair[1..][1..], t) == [] ==> second + SentTo(pair[1..][1..], t) == second);
    assert SentTo(pair, t) == first + second;
  }

  lemma {:induction false} BlockEventsAt(mappings: seq<BlockPositions>, blockEntity: BlockTypeId -> EntityRef, k: nat)
    requires k < |mappings|
    requires forall j :: 0 <= j < |mappings| && j != k ==>
      blockEntity(mappings[j].blockId) != blockEntity(mappings[k].blockId)
    ensures var m := mappings[k]; var ps := Positions(m.positions);
      SentTo(BlockEvents(mappings, blockEntity), blockEntity(m.blockId))
        == [OnAddedBlocks(m.blockId, ps), OnActivatedBlocks(m.blockId, ps)]
  {
    var t := blockEntity(mappings[k].blockId);
    var rest := mappings[1..];
    var head, tail := SentTo(BlockEventPair(mappings[0], blockEntity), t), SentTo(BlockEvents(rest, blockEntity), t);
    assert SentTo(BlockEvents(mappings, blockEntity), t) == head + tail by {
      SentToConcat(BlockEventPair(mappings[0], blockEntity), BlockEvents(rest, blockEntity), t);
    }
    PairSentTo(mappings[0], blockEntity, t);
    if k == 0 {
      assert tail == [] by {
        RestAvoids(mappings, blockEntity);
        BlockEventsSendOnly(rest, blockEntity, t);
      }
      assert head + tail == head;
    } else {
      assert rest[k - 1] == mappings[k];
      assert tail == [OnAddedBlocks(mappings[k].blockId, Positions(mappings[k].positions)),
                      OnActivatedBlocks(mappings[k].blockId, Positions(mappings[k].positions))] by {
        RestDistinct(mappings, blockEntity, k);
        BlockEventsAt(rest, blockEntity, k - 1);
      }
      assert head == [] by { assert blockEntity(mappings[0].blockId) != t; }
      assert head + tail == tail;
    }
  }

  /** With entry 0 the one whose entity is unique, no later entry shares it. */
  lemma RestAvoids(mappings: seq<BlockPositions>, blockEntity: BlockTypeId -> EntityRef)
    requires 0 < |mappings|
    requires forall j :: 0 <= j < |mappings| && j != 0 ==>
      blockEntity(mappings[j].blockId) != blockEntity(mappings[0].blockId)
    ensures forall j :: 0 <= j < |mappings[1..]| ==>
      blockEntity(mappings[1..][j].blockId) != blockEntity(mappings[0].blockId)
  {
    forall j | 0 <= j < |mappings[1..]|
      ensures blockEntity(mappings[1..][j].blockId) != blockEntity(mappings[0].blockId)
    {
      assert mappings[1..][j] == mappings[j + 1];
    }
  }

  /** An entry whose entity is unique keeps that property once the first entry is dropped. */
  lemma RestDistinct(mappings: seq<BlockPositions>, blockEntity: BlockTypeId -> EntityRef, k: nat)
    requires 0 < k < |mappings|
    requires forall j :: 0 <= j < |mappings| && j != k ==>
      blockEntity(mappings[j].blockId) != blockEntity(mappings[k].blockId)
    ensures forall j :: 0 <= j < |mappings[1..]| && j != k - 1 ==>
      blockEntity(mappings[1..][j].blockId) != blockEntity(mappings[1..][k - 1].blockId)
  {
    forall j | 0 <= j < |mappings[1..]| && j != k - 1
      ensures blockEntity(mappings[1..][j].blockId) != blockEntity(mappings[1..][k - 1].blockId)
    {
      assert mappings[1..][j] == mappings[j + 1];
    }
  }

  /** A block type whose entity is shared with no other entry and is not the
      world entity receives exactly two events: OnAddedBlocks and then
      OnActivatedBlocks, both carrying that type's positions. */
  lemma {:induction false} BlockEntityEvents(info: ReadyChunkInfo, first: nat, world: EntityRef, blockEntity: BlockTypeId -> EntityRef, k: nat)
    requires k < |info.mappings|
    requires blockEntity(info.mappings[k].blockId) != world
    requires forall j :: 0 <= j < |info.mappings| && j != k ==>
      blockEntity(info.mappings[j].blockId) != blockEntity(info.mappings[k].blockId)
    ensures var m := info.mappings[k]; var ps := Positions(m.positions);
      SentTo(Promotion(info, first, world, blockEntity), blockEntity(m.blockId))
        == [OnAddedBlocks(m.blockId, ps), OnActivatedBlocks(m.blockId, ps)]
  {
    var t := blockEntity(info.mappings[k].blockId);
    var r, m, b, c := Restoration(info), Materialize(info.entityStores, first),
                      BlockEvents(info.mappings, blockEntity), ChunkEvents(info, world);
    SentToConcat(r, m, t);
    SentToConcat(r + m, b, t);
    SentToConcat(r + m + b, c, t);
    RestorationQuiet(info, t, t);
    MaterializeQuiet(info.entityStores, first, t);
    ChunkEventsQuiet(info, world, t, t);
    BlockEventsAt(info.mappings, blockEntity, k);
  }

  // ---------------------------------------------------------------------
  // The scenarios of the provider's unit tests

  const Origin := Chunk(Vector3i(0, 0, 0))

  /** A new chunk with no blocks or entities: OnChunkGenerated, then OnChunkLoaded. */
  lemma {:induction false} HandlesFinalizedChunk(first: nat, world: EntityRef, blockEntity: BlockTypeId -> EntityRef)
    ensures SentTo(Promotion(NewChunk(Origin, [], []), first, world, blockEntity), world)
      == [OnChunkGenerated(Origin), OnChunkLoaded(Origin)]
  {
    WorldEntityEvents(NewChunk(Origin, [], []), first, world, blockEntity);
  }

  /** One stored entity without a prefab: one plain creation, and its component added to it. */
  lemma {:induction false} GeneratesStoredEntities(component: Component, first: nat, world: EntityRef, blockEntity: BlockTypeId -> EntityRef)
    ensures var info := NewChunk(Origin, [], [EntityStore(None, [component])]);
      && Creations(Promotion(info, first, world, blockEntity)) == [Create(None, EntityRef(first))]
      && AddedTo(Promotion(info, first, world, blockEntity), EntityRef(first)) == [component]
  {
    var info := NewChunk(Origin, [], [EntityStore(None, [component])]);
    EntitiesCreated(info, first, world, blockEntity);
    ComponentsOf(info, first, world, blockEntity, 0);
  }

  /** One stored entity with a prefab: one creation from that prefab, and its component added to it. */
  lemma {:induction false} GeneratesStoredEntitiesFromPrefab(prefab: Prefab, component: Component, first: nat, world: EntityRef, blockEntity: BlockTypeId -> EntityRef)
    ensures var info := NewChunk(Origin, [], [EntityStore(Some(prefab), [component])]);
      && Creations(Promotion(info, first, world, blockEntity)) == [Create(Some(prefab), EntityRef(first))]
      && AddedTo(Promotion(info, first, world, blockEntity), EntityRef(first)) == [component]
  {
    var info := NewChunk(Origin, [], [EntityStore(Some(prefab), [component])]);
    EntitiesCreated(info, first, world, blockEntity);
    ComponentsOf(info, first, world, blockEntity, 0);
  }

  /** A restored chunk: its chunk store's entities are restored. */
  lemma {:induction false} RestoresEntitiesForRestoredChunks(store: ChunkStore, first: nat, world: EntityRef, blockEntity: BlockTypeId -> EntityRef)
    ensures Restorations(Promotion(RestoredChunk(Origin, [], store, []), first, world, blockEntity)) == [store]
  {
    RestoredOnce(RestoredChunk(Origin, [], store, []), first, world, blockEntity);
  }

  /** Block type 42 at position (1, 2, 3) in a restored chunk: its block entity
      is first sent OnAddedBlocks and then OnActivatedBlocks, both holding (1, 2, 3). */
  lemma {:induction false} SendsBlockEvents(store: ChunkStore, first: nat, world: EntityRef, blockEntity: BlockTypeId -> EntityRef)
    requires blockEntity(42) != world
    ensures var info := RestoredChunk(Origin, [BlockPositions(42, [1, 2, 3])], store, []);
      var events := SentTo(Promotion(info, first, world, blockEntity), blockEntity(42));
      && |events| == 2
      && events[0].OnAddedBlocks? && Vector3i(1, 2, 3) in events[0].blockPositions
      && events[1].OnActivatedBlocks? && Vector3i(1, 2, 3) in events[1].blockPositions
  {
    var info := RestoredChunk(Origin, [BlockPositions(42, [1, 2, 3])], store, []);
    BlockEntityEvents(info, first, world, blockEntity, 0);
    SinglePosition();
  }

  // ---------------------------------------------------------------------
  // The provider

  /** The chunk finalizer as the provider sees it: `completeFinalization()`
      hands over the chunk finalized for the k-th poll, if any. */
  class ChunkFinalizer {
    const results: nat -> Option<ReadyChunkInfo>
    /** How many times the provider has polled. */
    var polls: nat

    constructor (results: nat -> Option<ReadyChunkInfo>)
      ensures this.results == results && polls == 0
    {
      this.results := results;
      polls := 0;
    }

    method CompleteFinalization() returns (ready: Option<ReadyChunkInfo>)
      modifies this
      ensures ready == results(old(polls)) && polls == old(polls) + 1
    {
      ready := results(polls);
      polls := polls + 1;
    }
  }

  class LocalChunkProvider {
    const finalizer: ChunkFinalizer
    /** The entity of each block type's definition (BlockManager.getBlock(id).getEntity()). */
    const blockEntityOf: BlockTypeId -> EntityRef
    var worldEntity: EntityRef
    /** How many entities the entity manager has created, so that its next creation is EntityRef(created). */
    var created: nat
    var log: seq<Effect>

    constructor (finalizer: ChunkFinalizer, blockEntityOf: BlockTypeId -> EntityRef, worldEntity: EntityRef)
      ensures this.finalizer == finalizer
      ensures this.blockEntityOf == blockEntityOf && this.worldEntity == worldEntity
      ensures created == 0 && log == []
    {
      this.finalizer := finalizer;
      this.blockEntityOf := blockEntityOf;
      this.worldEntity := worldEntity;
      created := 0;
      log := [];
    }

    method SetWorldEntity(e: EntityRef)
      modifies this
      ensures worldEntity == e && created == old(created) && log == old(log)
    {
      worldEntity := e;
    }

    /** Polls the finalizer once and promotes the chunk it hands over, if any. */
    method CompleteUpdate()
      modifies this, finalizer
      ensures finalizer.polls == old(finalizer.polls) + 1
      ensures worldEntity == old(worldEntity)
      ensures var ready := finalizer.results(old(finalizer.polls));
        && (ready.None? ==> log == old(log) && created == old(created))
        && (ready.Some? ==>
              && log == old(log) + Promotion(ready.value, old(created), worldEntity, blockEntityOf)
              && created == old(created) + |ready.value.entityStores|)
    {
      var ready := finalizer.CompleteFinalization();
      if ready.Some? {
        Promote(ready.value);
      }
    }

    /** Makes one ready chunk part of the world: its restored entities, its new entities,
        its block events and finally the chunk events. */
    method Promote(info: ReadyChunkInfo)
      modifies this
      ensures log == old(log) + Promotion(info, old(created), worldEntity, blockEntityOf)
      ensures created == old(created) + |info.entityStores| && worldEntity == old(worldEntity)
    {
      ghost var first := created;
      RestoreChunkEntities(info);
      GenerateEntities(info.entityStores);
      SendBlockEvents(info.mappings);
      AnnounceChunk(info);
      AppendAssoc4(old(log), Restoration(info), Materialize(info.entityStores, first),
        BlockEvents(info.mappings, blockEntityOf), ChunkEvents(info, worldEntity));
    }

    /** A restored chunk's stored entities come back before anything else happens. */
    method RestoreChunkEntities(info: ReadyChunkInfo)
      modifies this
      ensures log == old(log) + Restoration(info)
      ensures created == old(created) && worldEntity == old(worldEntity)
    {
      if info.RestoredChunk? {
        log := log + [RestoreEntities(info.chunkStore)];
      }
    }

    /** The world entity hears that the chunk was generated (new chunks only), then loaded. */
    method AnnounceChunk(info: ReadyChunkInfo)
      modifies this
      ensures log == old(log) + ChunkEvents(info, worldEntity)
      ensures created == old(created) && worldEntity == old(worldEntity)
    {
      if info.NewChunk? {
        log := log + [Send(worldEntity, OnChunkGenerated(info.chunk))];
      }
      log := log + [Send(worldEntity, OnChunkLoaded(info.chunk))];
    }

    /** The entity manager's create(), or create(prefab) when a prefab is given. */
    method CreateEntity(prefab: Option<Prefab>) returns (e: EntityRef)
      modifies this
      ensures e == EntityRef(old(created)) && created == old(created) + 1
      ensures log == old(log) + [Create(prefab, e)] && worldEntity == old(worldEntity)
    {
      e := EntityRef(created);
      created := created + 1;
      log := log + [Create(prefab, e)];
    }

    method GenerateEntities(stores: seq<EntityStore>)
      modifies this
      ensures log == old(log) + Materialize(stores, old(created))
      ensures created == old(created) + |stores| && worldEntity == old(worldEntity)
    {
      for i := 0 to |stores|
        invariant log == old(log) + Materialize(stores[..i], old(created))
        invariant created == old(created) + i && worldEntity == old(worldEntity)
      {
        var store := stores[i];
        ghost var before := log;
        var entity := CreateEntity(store.prefab);
        AddComponents(entity, store.components);
        assert log == before + Instantiate(store, entity);
        assert stores[..i + 1] == stores[..i] + [store];
        MaterializeSnoc(stores[..i], store, old(created));
      }
      assert stores[..|stores|] == stores;
    }

    /** Adds each component to the entity, in order. */
    method AddComponents(entity: EntityRef, components: seq<Component>)
      modifies this
      ensures log == old(log) + Attach(entity, components)
      ensures created == old(created) && worldEntity == old(worldEntity)
    {
      for j := 0 to |components|
        invariant log == old(log) + Attach(entity, components[..j])
        invariant created == old(created) && worldEntity == old(worldEntity)
      {
        log := log + [AddComponent(entity, components[j])];
        assert components[..j + 1][..j] == components[..j];
      }
      assert components[..|components|] == components;
    }

    method SendBlockEvents(mappings: seq<BlockPositions>)
      modifies this
      ensures log == old(log) + BlockEvents(mappings, blockEntityOf)
      ensures created == old(created) && worldEntity == old(worldEntity)
    {
      for i := 0 to |mappings|
        invariant log == old(log) + BlockEvents(mappings[..i], blockEntityOf)
        invariant created == old(created) && worldEntity == old(worldEntity)
      {
        var m := mappings[i];
        var blockEntity := blockEntityOf(m.blockId);
        var positions := Positions(m.positions);
        log := log + [Send(blockEntity, OnAddedBlocks(m.blockId, positions))];
        log := log + [Send(blockEntity, OnActivatedBlocks(m.blockId, positions))];
        assert mappings[..i + 1] == mappings[..i] + [m];
        BlockEventsSnoc(mappings[..i], m, blockEntityOf);
      }
      assert mappings[..|mappings|] == mappings;
    }
  }
}
