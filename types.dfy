/**
 Runtime type identity and type erasure.

 Rust's `TypeId::of::<T>()` and `std::any::type_name::<T>()` become one
 explicit tag, `TypeId`, whose `name` is the type's path. A
 `Box<dyn Any>` becomes an `AnyBox`: the tag of the boxed value's type
 together with the value itself, and `downcast::<T>()` becomes a
 comparison of the tag with `T`.
 */
module Types {

  /** The identity of a Rust type; `name` is what `type_name` reports. */
  datatype TypeId = TypeId(name: string)

  /** The payload of a boxed value, independent of its nominal type. */
  datatype Value =
    | Unit
    | Text(s: string)
    | Struct(fields: seq<Value>)

  /** `Box<dyn Any>` / `Arc<dyn Any>`: a value together with the tag of its type. */
  datatype AnyBox = AnyBox(tag: TypeId, value: Value)

  datatype Option<T> = None | Some(value: T)

  /** A 32-bit signed integer (`i32`). */
  newtype i32 = x: int | -0x8000_0000 <= x < 0x8000_0000

  /**
   `b.downcast::<T>()`: succeeds exactly when the box holds a `T`, and
   then yields the very value that was boxed.
   */
  function Downcast(b: AnyBox, t: TypeId): (r: Option<Value>)
    ensures r.Some? <==> b.tag == t
    ensures r.Some? ==> r.value == b.value
  {
    if b.tag == t then Some(b.value) else None
  }
}
