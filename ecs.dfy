/**
  The ECS container and its system list (`Ecs`, `SystemsManager`). A
  system's `run` closure borrows the world and the resource store; here it
  is a function on the state `S` standing for that pair.
 */
module Ecs {
  import EcsResources
  import opened EntityWorld

  /** `SystemRunType`. */
  datatype SystemRunType = Frame | Fixed

  /** `ecs::System`. */
  datatype EcsSystem<!S> = EcsSystem(name: string, run: S -> S, runType: SystemRunType)

  /** Running `systems` once each, first to last, starting from `st`. */
  function RunAll<S>(systems: seq<EcsSystem<S>>, st: S): S
    decreases |systems|
  {
    if systems == [] then st else RunAll(systems[1..], systems[0].run(st))
  }

  /** Running one more system at the end runs it after all the others. */
  lemma {:induction false} RunAllSnoc<S>(systems: seq<EcsSystem<S>>, last: EcsSystem<S>, st: S)
    ensures RunAll(systems + [last], st) == last.run(RunAll(systems, st))
    decreases |systems|
  {
    if systems != [] {
      assert (systems + [last])[1..] == systems[1..] + [last];
      RunAllSnoc(systems[1..], last, systems[0].run(st));
    }
  }

  /** Registration order is run order: a list registered in two parts runs part by part. */
  lemma {:induction false} RunAllAppend<S>(first: seq<EcsSystem<S>>, second: seq<EcsSystem<S>>, st: S)
    ensures RunAll(first + second, st) == RunAll(second, RunAll(first, st))
    decreases |first|
  {
    if first != [] {
      assert (first + second)[0] == first[0];
      assert (first + second)[1..] == first[1..] + second;
      RunAllAppend(first[1..], second, first[0].run(st));
    } else {
      assert first + second == second;
    }
  }

  /** `SystemsManager`. */
  class SystemsManager<!S> {
    var systems: seq<EcsSystem<S>>

    /** `SystemsManager::new`. */
    constructor ()
      ensures systems == []
    {
      systems := [];
    }

    /** `register_system`: appends at the end, keeping earlier systems in order. */
    method RegisterSystem(system: EcsSystem<S>)
      modifies this
      ensures systems == old(systems) + [system]
    {
      systems := systems + [system];
    }

    /**
      `run_systems`: calls every registered system exactly once, in
      registration order, and leaves the list itself alone.
     */
    method RunSystems(st: S) returns (st': S)
      ensures st' == RunAll(systems, st)
    {
      st' := st;
      var i := 0;
      while i < |systems|
        invariant 0 <= i <= |systems|
        invariant st' == RunAll(systems[..i], st)
      {
        assert systems[..i + 1] == systems[..i] + [systems[i]];
        RunAllSnoc(systems[..i], systems[i], st);
        st' := systems[i].run(st');
        i := i + 1;
      }
      assert systems[..i] == systems;
    }
  }

  /** `Ecs`: a world, an id-keyed resource store and a system list. */
  class Ecs<!S, P> {
    var world: World
    var resources: EcsResources.ResourceManager<P>
    var systems: SystemsManager<S>

    /** `Ecs::new`: empty world, empty resource store, no systems. */
    constructor ()
      ensures world == EmptyWorld
      ensures fresh(resources) && resources.hashmap == map[] && resources.currentId == 0
      ensures fresh(systems) && systems.systems == []
    {
      world := EmptyWorld;
      resources := new EcsResources.ResourceManager<P>();
      systems := new SystemsManager<S>();
    }
  }
}
