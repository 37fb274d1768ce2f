/**
  The one-resource-per-type store (`ResourceManager` of the top-level
  resources file). Each slot is keyed by the `TypeId` of `T` and holds a
  boxed `Res<T>`, recovered by a checked downcast.
 */
module Resources {
  import opened Wrappers
  import opened Erased

  /** The error of `create_resource` when a `T` already exists. */
  datatype CreateError = AlreadyExists(typeKey: TypeKey)

  class ResourceManager<P> {
    var resources: map<TypeKey, Boxed<P>>

    /** Every slot holds a value of the type it is keyed by. */
    ghost predicate Valid()
      reads this
    {
      forall t :: t in resources ==> resources[t].tag == t
    }

    /** `ResourceManager::new`. */
    constructor ()
      ensures Valid() && resources == map[]
    {
      resources := map[];
    }

    /** `get_resource::<T>()`: the slot of `T`, downcast to `T`. */
    function GetResource(t: TypeKey): (r: Option<P>)
      reads this
      ensures r.Some? <==> t in resources && resources[t].tag == t
      ensures r.Some? ==> r.value == resources[t].payload
    {
      if t in resources then Downcast(resources[t], t) else None
    }

    /**
      `create_resource::<T>(value)`: fails and changes nothing when a `T`
      is present; otherwise stores it, after which `get_resource::<T>`
      yields it, and no other type's resource changes.
     */
    method CreateResource(t: TypeKey, value: P) returns (r: Result<Unit, CreateError>)
      requires Valid()
      modifies this
      ensures Valid()
      ensures r.Err? <==> old(GetResource(t)).Some?
      ensures r.Err? ==> r.error == AlreadyExists(t) && resources == old(resources)
      ensures r.Ok? ==> resources == old(resources)[t := Boxed(t, value)]
      ensures r.Ok? ==> GetResource(t) == Some(value)
      ensures forall u :: u != t ==> GetResource(u) == old(GetResource(u))
    {
      if GetResource(t).Some? {
        return Err(AlreadyExists(t));
      }
      resources := resources[t := Boxed(t, value)];
      r := Ok(Unit);
    }

    /**
      `get_resource_mut::<T>()` followed by the caller's write `update`
      through the returned reference: a later `get_resource::<T>` sees the
      write; nothing happens when no `T` is stored.
     */
    method GetResourceMut(t: TypeKey, update: P -> P) returns (found: bool)
      requires Valid()
      modifies this
      ensures Valid()
      ensures found <==> old(GetResource(t)).Some?
      ensures found ==> GetResource(t) == Some(update(old(GetResource(t)).value))
      ensures found ==> resources == old(resources)[t := Boxed(t, update(old(resources)[t].payload))]
      ensures !found ==> resources == old(resources)
    {
      var current := GetResource(t);
      found := current.Some?;
      if found {
        resources := resources[t := Boxed(t, update(current.value))];
      }
    }
  }

  /**
    Creating a second `T` without removing the first fails and keeps the
    first value.
   */
  method CreateTwiceKeepsFirst<P>(t: TypeKey, first: P, second: P) returns (r: Result<Unit, CreateError>, kept: Option<P>)
    ensures r == Err(AlreadyExists(t))
    ensures kept == Some(first)
  {
    var store := new ResourceManager<P>();
    var r1 := store.CreateResource(t, first);
    r := store.CreateResource(t, second);
    kept := store.GetResource(t);
  }
}
