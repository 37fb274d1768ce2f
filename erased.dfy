/**
  Type-erased storage. A `Box<dyn Any>` is a payload together with the tag
  of its dynamic type; `downcast_ref::<T>` / `downcast_mut::<T>` succeed
  exactly when the tag is the one of `T`.
 */
module Erased {
  import opened Wrappers

  /** Stands for `std::any::TypeId`: one key per static type. */
  type TypeKey = nat

  /** A `Box<dyn Any>`: the tag of the boxed value's type and the value. */
  datatype Boxed<P> = Boxed(tag: TypeKey, payload: P)

  /** `downcast_ref::<T>()` with `t` the key of `T`: a tag check. */
  function Downcast<P>(b: Boxed<P>, t: TypeKey): (r: Option<P>)
    ensures r.Some? <==> b.tag == t
    ensures r.Some? ==> r.value == b.payload
  {
    if b.tag == t then Some(b.payload) else None
  }
}
