/**
 * The store behind both `Context` types: a map from a Rust `TypeId` to a
 * boxed `dyn Any`. A stored value remembers its own type, which is what
 * `downcast_ref` checks.
 */
module TypeMap {
  import opened Wrappers

  type TypeId = string

  /** A boxed value: its type and its contents, kept as an uninterpreted rendering. */
  datatype Value = Value(ty: TypeId, payload: string)

  type Store = map<TypeId, Value>

  /** Every slot holds a value of the slot's type, as `insert(data.type_id(), ..)` arranges. */
  ghost predicate Typed(s: Store) {
    forall t :: t in s ==> s[t].ty == t
  }

  /** `set`: the value goes into the slot of its own type, replacing what was there. */
  function Insert(s: Store, v: Value): (r: Store)
    ensures Typed(s) ==> Typed(r)
    ensures v.ty in r && r[v.ty] == v
    ensures forall t :: t != v.ty ==> (t in r <==> t in s) && (t in s ==> r[t] == s[t])
  {
    s[v.ty := v]
  }

  /** `get(..).map(downcast_ref).flatten()`: the slot's value, if there is one of the asked type. */
  function Lookup(s: Store, ty: TypeId): (r: Option<Value>)
    ensures r.Some? ==> r.value.ty == ty && ty in s && s[ty] == r.value
    ensures Typed(s) ==> (r.Some? <==> ty in s)
  {
    if ty in s && s[ty].ty == ty then Some(s[ty]) else None
  }

  /** `set(x)` then a lookup: `x` for its own type, the previous answer for every other type. */
  lemma LookupAfterInsert(s: Store, v: Value, ty: TypeId)
    ensures Lookup(Insert(s, v), ty) == if ty == v.ty then Some(v) else Lookup(s, ty)
  {
  }

  /** Nothing can be found in a fresh, empty context. */
  lemma LookupEmpty(ty: TypeId)
    ensures Lookup(map[], ty) == None
  {
  }
}
