/**
  The id-keyed resource store of the ECS (`ecs::resources::ResourceManager`).
  Every value gets a fresh id from one counter; a `Res<T>` handle is the id
  together with the static type `T` it was created at.
 */
module EcsResources {
  import opened Wrappers
  import opened Erased

  /** `Res<T>`: the id and, for the `PhantomData<T>`, the key of `T`. */
  datatype Res = Res(id: nat, tag: TypeKey)

  /** `ERR_RESOURCE_NOT_FOUND`. */
  const ErrResourceNotFound: string := "Resource not found"

  class ResourceManager<P> {
    var hashmap: map<nat, Boxed<P>>
    var currentId: nat

    /** Every stored id was handed out already. */
    ghost predicate Valid()
      reads this
    {
      forall id :: id in hashmap ==> id < currentId
    }

    /** `ResourceManager::new`. */
    constructor ()
      ensures Valid() && hashmap == map[] && currentId == 0
    {
      hashmap := map[];
      currentId := 0;
    }

    /** `get(res)`: the value under `res.id`, if it is a `T`. */
    function Get(res: Res): (r: Option<P>)
      reads this
      ensures r.Some? <==> res.id in hashmap && hashmap[res.id].tag == res.tag
      ensures r.Some? ==> r.value == hashmap[res.id].payload
    {
      if res.id !in hashmap then None else Downcast(hashmap[res.id], res.tag)
    }

    /**
      `create(item)`: the handle's id is the counter before the call, not
      in use before; the counter moves on by one; `get` of the handle then
      yields `item`.
     */
    method Create(tag: TypeKey, item: P) returns (res: Res)
      requires Valid()
      modifies this
      ensures Valid()
      ensures res == Res(old(currentId), tag) && currentId == old(currentId) + 1
      ensures res.id !in old(hashmap)
      ensures hashmap == old(hashmap)[res.id := Boxed(tag, item)]
      ensures Get(res) == Some(item)
    {
      var id := currentId;
      currentId := currentId + 1;
      hashmap := hashmap[id := Boxed(tag, item)];
      res := Res(id, tag);
    }

    /** `create_from_box(item)`: allocates from the same counter in the same way. */
    method CreateFromBox(item: Boxed<P>) returns (res: Res)
      requires Valid()
      modifies this
      ensures Valid()
      ensures res == Res(old(currentId), item.tag) && currentId == old(currentId) + 1
      ensures res.id !in old(hashmap)
      ensures hashmap == old(hashmap)[res.id := item]
      ensures Get(res) == Some(item.payload)
    {
      var id := currentId;
      currentId := currentId + 1;
      hashmap := hashmap[id := item];
      res := Res(id, item.tag);
    }

    /** `get_mut(res)` followed by the caller's write `update` through the reference. */
    method GetMut(res: Res, update: P -> P) returns (found: bool)
      modifies this
      ensures found <==> old(Get(res)).Some?
      ensures found ==> hashmap == old(hashmap)[res.id := Boxed(res.tag, update(old(hashmap)[res.id].payload))]
      ensures found ==> Get(res) == Some(update(old(Get(res)).value))
      ensures !found ==> hashmap == old(hashmap)
      ensures currentId == old(currentId)
    {
      var current := Get(res);
      found := current.Some?;
      if found {
        hashmap := hashmap[res.id := Boxed(res.tag, update(current.value))];
      }
    }

    /**
      `remove(res)`: removes whatever is stored under `res.id` and answers
      `Ok`; with nothing stored there it answers `Err("Resource not found")`
      and changes nothing. Afterwards no handle with that id finds a value.
     */
    method Remove(res: Res) returns (r: Result<Unit, string>)
      requires Valid()
      modifies this
      ensures Valid()
      ensures r.Ok? <==> res.id in old(hashmap)
      ensures r.Ok? ==> hashmap == old(hashmap) - {res.id}
      ensures r.Err? ==> r.error == ErrResourceNotFound && hashmap == old(hashmap)
      ensures forall other: Res :: other.id == res.id ==> Get(other) == None
      ensures currentId == old(currentId)
    {
      if res.id !in hashmap {
        return Err(ErrResourceNotFound);
      }
      hashmap := hashmap - {res.id};
      r := Ok(Unit);
    }
  }
}
