/** The event listener: which spawns and chunk loads lead to a scaleMob call. */
module Events {
  import opened Text
  import opened Distributions
  import opened Randomness
  import opened Plugin

  /** A creature spawning: the living entity, the name of its world and the reason the
      server gives for the spawn. */
  datatype CreatureSpawnEvent = CreatureSpawnEvent(entity: Entity, worldName: string, spawnReason: SpawnReason)

  /** A chunk being loaded, with the entities it holds in the order the server lists them. */
  datatype ChunkLoadEvent = ChunkLoadEvent(entities: seq<Entity>)

  /** The living entities of `es`, in their order: the ones the chunk-load loop passes
      to scaleMob. */
  function LivingEntities(es: seq<Entity>): seq<Entity> {
    if es == [] then []
    else LivingEntities(es[..|es| - 1]) + (if es[|es| - 1].IsLiving() then [es[|es| - 1]] else [])
  }

  /** The creatures of `es`, in their order: the ones scaleMob writes a scale for. */
  function Creatures(es: seq<Entity>): seq<Entity> {
    if es == [] then []
    else Creatures(es[..|es| - 1]) + (if es[|es| - 1].kind == Creature then [es[|es| - 1]] else [])
  }

  /** The entity of every write, in order. */
  function EntitiesOf(writes: seq<ScaleWrite>): seq<Entity> {
    seq(|writes|, i requires 0 <= i < |writes| => writes[i].entity)
  }

  class SpawnEvent {
    const plugin: MobSizeRandomizer

    constructor (plugin: MobSizeRandomizer)
      ensures this.plugin == plugin
    {
      this.plugin := plugin;
    }

    /** canSpawnReasonBeScaled: with the blocklist enabled, a reason is allowed when it
        is not blocked; with it disabled, every reason is. */
    predicate CanSpawnReasonBeScaled(event: CreatureSpawnEvent)
      reads plugin
    {
      if plugin.spawnReasonBlocklistEnabled then event.spawnReason !in plugin.blockedSpawnReasons
      else true
    }

    /** Both gates of a creature spawn pass: the world is not excluded and the reason is
        allowed. */
    predicate Admits(event: CreatureSpawnEvent)
      reads plugin
    {
      !InWorldList(plugin.excludedWorlds, event.worldName) && CanSpawnReasonBeScaled(event)
    }

    /** onCreatureSpawnEvent: scale the creature once when both gates pass, and otherwise
        leave everything as it was. */
    method OnCreatureSpawnEvent(event: CreatureSpawnEvent)
      requires event.entity.IsLiving()
      requires Admits(event) ==> plugin.PlanHalts(PlanFor(plugin.mobConfigs, event.entity), plugin.random.calls)
      modifies plugin`scaleWrites, plugin`scaleCalls, plugin.random`calls
      ensures Admits(event) ==>
                plugin.scaleCalls == old(plugin.scaleCalls) + [event.entity] &&
                plugin.Performed(event.entity, old(plugin.scaleWrites), old(plugin.random.calls))
      ensures var plan := PlanFor(plugin.mobConfigs, event.entity);
              Admits(event) && plugin.Valid() && plan.Sample? && FromString(plan.distribution) == LeftExponential ==>
                plugin.scaleWrites == old(plugin.scaleWrites) + [ScaleWrite(event.entity, plan.max)]
      ensures !Admits(event) ==>
                plugin.scaleCalls == old(plugin.scaleCalls) &&
                plugin.scaleWrites == old(plugin.scaleWrites) &&
                plugin.random.calls == old(plugin.random.calls)
    {
      var excluded := plugin.IsExcludedWorld(event.worldName);
      if !excluded && CanSpawnReasonBeScaled(event) {
        plugin.ScaleMob(event.entity);
      }
    }

    /** Every living entity of the chunk has a plan that can be carried out from any
        draw on: the loop draws an unknown number of times before each entity. */
    ghost predicate ChunkPlansHalt(event: ChunkLoadEvent)
      reads plugin
    {
      forall e, s: nat :: e in event.entities && e.IsLiving() ==> plugin.PlanHalts(PlanFor(plugin.mobConfigs, e), s)
    }

    /** onChunkLoadEvent: when chunk loading is scaled, call scaleMob on every living
        entity of the chunk in order, and otherwise do nothing. Neither the excluded
        worlds nor the blocklist are consulted. */
    method OnChunkLoadEvent(event: ChunkLoadEvent)
      requires plugin.chunkloadeffected ==> ChunkPlansHalt(event)
      modifies plugin`scaleWrites, plugin`scaleCalls, plugin.random`calls
      ensures !plugin.chunkloadeffected ==>
                plugin.scaleCalls == old(plugin.scaleCalls) &&
                plugin.scaleWrites == old(plugin.scaleWrites) &&
                plugin.random.calls == old(plugin.random.calls)
      ensures plugin.chunkloadeffected ==>
                plugin.scaleCalls == old(plugin.scaleCalls) + LivingEntities(event.entities)
      ensures |old(plugin.scaleWrites)| <= |plugin.scaleWrites|
      ensures plugin.scaleWrites[..|old(plugin.scaleWrites)|] == old(plugin.scaleWrites)
      ensures plugin.chunkloadeffected ==>
                EntitiesOf(plugin.scaleWrites[|old(plugin.scaleWrites)|..]) == Creatures(event.entities)
      ensures plugin.Valid() ==>
                forall w :: w in plugin.scaleWrites[|old(plugin.scaleWrites)|..] ==>
                  WriteAgreesWithPlan(plugin.mobConfigs, w)
    {
      var entitiesarray := event.entities;
      if !plugin.chunkloadeffected {
        return;
      }
      ghost var writes0 := plugin.scaleWrites;
      ghost var calls0 := plugin.scaleCalls;
      for i := 0 to |entitiesarray|
        invariant plugin.scaleCalls == calls0 + LivingEntities(entitiesarray[..i])
        invariant |writes0| <= |plugin.scaleWrites| && plugin.scaleWrites[..|writes0|] == writes0
        invariant EntitiesOf(plugin.scaleWrites[|writes0|..]) == Creatures(entitiesarray[..i])
        invariant plugin.Valid() ==>
                    forall w :: w in plugin.scaleWrites[|writes0|..] ==> WriteAgreesWithPlan(plugin.mobConfigs, w)
      {
        var entity := entitiesarray[i];
        assert entitiesarray[..i + 1] == entitiesarray[..i] + [entity];
        if entity.IsLiving() {
          ghost var writes1 := plugin.scaleWrites;
          ghost var draws1 := plugin.random.calls;
          assert entity in event.entities;
          plugin.ScaleMob(entity);
          PerformedWrite(plugin, entity, writes1, draws1);
          WritesAppended(writes0, writes1, plugin.scaleWrites, entity);
        }
      }
      assert entitiesarray[..|entitiesarray|] == entitiesarray;
    }
  }

  /** After one more scaleMob call, the writes since `writes0` grow by the call's write,
      if it made one. */
  lemma WritesAppended(writes0: seq<ScaleWrite>, writes1: seq<ScaleWrite>, writes2: seq<ScaleWrite>, entity: Entity)
    requires |writes0| <= |writes1| && writes1[..|writes0|] == writes0
    requires entity.kind == Player ==> writes2 == writes1
    requires entity.kind != Player ==>
               |writes2| == |writes1| + 1 && writes2[..|writes1|] == writes1 && writes2[|writes1|].entity == entity
    ensures |writes0| <= |writes2| && writes2[..|writes0|] == writes0
    ensures entity.kind == Player ==> EntitiesOf(writes2[|writes0|..]) == EntitiesOf(writes1[|writes0|..])
    ensures entity.kind != Player ==>
              EntitiesOf(writes2[|writes0|..]) == EntitiesOf(writes1[|writes0|..]) + [entity]
    ensures entity.kind != Player ==> writes2[|writes0|..] == writes1[|writes0|..] + [writes2[|writes1|]]
  {
    if entity.kind != Player {
      assert writes2 == writes1 + [writes2[|writes1|]];
      assert writes2[|writes0|..] == writes1[|writes0|..] + [writes2[|writes1|]];
    }
  }

  /** The chunk-load loop passes on exactly the living entities of the chunk, each as
      often as it occurs. */
  lemma {:induction false} LivingEntitiesMembers(es: seq<Entity>)
    ensures forall x :: x in LivingEntities(es) <==> x in es && x.IsLiving()
    ensures |LivingEntities(es)| <= |es|
    ensures multiset(LivingEntities(es)) <= multiset(es)
  {
    if es != [] {
      var front := es[..|es| - 1];
      LivingEntitiesMembers(front);
      assert es == front + [es[|es| - 1]];
    }
  }

  /** The writes of a chunk load go to exactly its creatures: the living entities that
      are not players. */
  lemma {:induction false} CreaturesAreLivingNonPlayers(es: seq<Entity>)
    ensures forall x :: x in Creatures(es) <==> x in es && x.IsLiving() && x.kind != Player
    ensures Creatures(LivingEntities(es)) == Creatures(es)
  {
    if es != [] {
      var front := es[..|es| - 1];
      var last := es[|es| - 1];
      CreaturesAreLivingNonPlayers(front);
      assert es == front + [last];
      var tail := if last.IsLiving() then [last] else [];
      var living := LivingEntities(front) + tail;
      assert LivingEntities(es) == living;
      if last.IsLiving() {
        assert living[..|living| - 1] == LivingEntities(front);
      } else {
        assert living == LivingEntities(front);
      }
    }
  }

  /** A chunk without a living entity leads to no scaleMob call at all. */
  lemma {:induction false} NoLivingNoCalls(es: seq<Entity>)
    requires forall i :: 0 <= i < |es| ==> !es[i].IsLiving()
    ensures LivingEntities(es) == [] && Creatures(es) == []
  {
    if es != [] {
      NoLivingNoCalls(es[..|es| - 1]);
    }
  }

  /** A spawn in a listed world, matched ignoring case, is never scaled, whatever its
      reason; with the blocklist disabled and no excluded world, every spawn is. */
  lemma SpawnGates(s: SpawnEvent, event: CreatureSpawnEvent)
    ensures (exists i :: 0 <= i < |s.plugin.excludedWorlds| &&
               Lower(s.plugin.excludedWorlds[i]) == Lower(event.worldName)) ==> !s.Admits(event)
    ensures s.plugin.excludedWorlds == [] && !s.plugin.spawnReasonBlocklistEnabled ==> s.Admits(event)
  {
    InWorldListIffLower(s.plugin.excludedWorlds, event.worldName);
  }
}
