/**
  The entity world (`hecs::World`) is an external collaborator. It is seen
  here only through the entities spawned into it, so that "a fresh, empty
  world" and "the world was replaced, not merged" can be stated.
 */
module EntityWorld {

  type EntityId = nat

  datatype World = World(entities: seq<EntityId>)

  /** `hecs::World::new()`. */
  const EmptyWorld: World := World([])
}
