/**
  The per-type, id-keyed resource store (`resources::ResourceManager` of
  the resources module): one inner map from id to value per `TypeId`, and
  one id counter shared by all types.
 */
module TypedResources {
  import opened Wrappers
  import opened Erased

  /** `Res<T>`: the id and, for the `PhantomData<T>`, the key of `T`. */
  datatype Res = Res(id: nat, tag: TypeKey)

  type Inner<P> = map<nat, Boxed<P>>

  /** The inner map of type `t`, or the empty map `entry(..).or_insert` would create. */
  function InnerOf<P>(m: map<TypeKey, Inner<P>>, t: TypeKey): (r: Inner<P>)
    ensures t in m ==> r == m[t]
    ensures t !in m ==> r == map[]
  {
    if t in m then m[t] else map[]
  }

  class ResourceManager<P> {
    var hashmaps: map<TypeKey, Inner<P>>
    var currentId: nat

    /** Values sit in the map of their own type, under ids already handed out. */
    ghost predicate Valid()
      reads this
    {
      forall t, id :: t in hashmaps && id in hashmaps[t] ==> id < currentId && hashmaps[t][id].tag == t
    }

    /** `ResourceManager::new`. */
    constructor ()
      ensures Valid() && hashmaps == map[] && currentId == 0
    {
      hashmaps := map[];
      currentId := 0;
    }

    /** `get::<T>(res)`: `None` when `T` has no map or the id is missing, else the item. */
    function Get(res: Res): (r: Option<P>)
      reads this
      ensures r.Some? <==> res.tag in hashmaps && res.id in hashmaps[res.tag] && hashmaps[res.tag][res.id].tag == res.tag
      ensures r.Some? ==> r.value == hashmaps[res.tag][res.id].payload
    {
      if res.tag !in hashmaps || res.id !in hashmaps[res.tag] then None
      else Downcast(hashmaps[res.tag][res.id], res.tag)
    }

    /**
      `add::<T>(item)`: creates `T`'s map if missing and stores the item
      under the shared counter, which moves on by one; every other type's
      map is unchanged.
     */
    method Add(t: TypeKey, item: P) returns (res: Res)
      requires Valid()
      modifies this
      ensures Valid()
      ensures res == Res(old(currentId), t) && currentId == old(currentId) + 1
      ensures res.id !in InnerOf(old(hashmaps), t)
      ensures hashmaps == old(hashmaps)[t := InnerOf(old(hashmaps), t)[res.id := Boxed(t, item)]]
      ensures forall u :: u != t ==> InnerOf(hashmaps, u) == InnerOf(old(hashmaps), u)
      ensures Get(res) == Some(item)
    {
      var inner := InnerOf(hashmaps, t);
      var id := currentId;
      currentId := currentId + 1;
      hashmaps := hashmaps[t := inner[id := Boxed(t, item)]];
      res := Res(id, t);
    }

    /** `get_mut::<T>(res)` followed by the caller's write `update` through the reference. */
    method GetMut(res: Res, update: P -> P) returns (found: bool)
      requires Valid()
      modifies this
      ensures Valid()
      ensures found <==> old(Get(res)).Some?
      ensures found ==> Get(res) == Some(update(old(Get(res)).value))
      ensures found ==> hashmaps == old(hashmaps)[res.tag := InnerOf(old(hashmaps), res.tag)[res.id := Boxed(res.tag, update(old(Get(res)).value))]]
      ensures !found ==> hashmaps == old(hashmaps)
      ensures currentId == old(currentId)
    {
      var current := Get(res);
      found := current.Some?;
      if found {
        var inner := InnerOf(hashmaps, res.tag);
        hashmaps := hashmaps[res.tag := inner[res.id := Boxed(res.tag, update(current.value))]];
      }
    }

    /**
      `remove::<T>(id)`: when `T`'s map holds `id`, deletes it and returns
      the item; otherwise returns `None` and changes nothing.
     */
    method Remove(t: TypeKey, id: nat) returns (r: Option<P>)
      requires Valid()
      modifies this
      ensures Valid()
      ensures r.Some? <==> id in InnerOf(old(hashmaps), t)
      ensures r.Some? ==> r.value == old(hashmaps)[t][id].payload
      ensures r.Some? ==> hashmaps == old(hashmaps)[t := old(hashmaps)[t] - {id}]
      ensures r.None? ==> hashmaps == old(hashmaps)
      ensures Get(Res(id, t)) == None
      ensures currentId == old(currentId)
    {
      if t !in hashmaps || id !in hashmaps[t] {
        return None;
      }
      var item := hashmaps[t][id];
      hashmaps := hashmaps[t := hashmaps[t] - {id}];
      r := Downcast(item, t);
    }
  }
}
