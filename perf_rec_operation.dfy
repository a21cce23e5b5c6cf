/** `src/django_perf_rec/operation.py`: the value object every recorded database or
    cache operation is. `Operation(alias, query)` stores both arguments as they are; the
    two subclasses are `DBOp` (in `db.py`) and `CacheOp` (in `cache.py`), which also
    carries the name of the cache method called. */
module PerfRecOperation {

  /** The Python class of an operation object. */
  datatype OpClass = OperationClass | DBOpClass | CacheOpClass(operation: string)

  /** `op.query`: the SQL fingerprint of a database operation, or the cleaned key (a
      string) or keys (a sorted list) of a cache operation. */
  datatype Query = Text(text: string) | Keys(keys: seq<string>)

  datatype Operation = Operation(cls: OpClass, alias: string, query: Query)

  /** `isinstance(x, cls)`: `x`'s class is `cls` or a subclass of it. */
  predicate IsInstance(x: Operation, cls: OpClass)
  {
    match cls
    case OperationClass => true
    case DBOpClass => x.cls.DBOpClass?
    case CacheOpClass(_) => x.cls.CacheOpClass?
  }

  /** `Operation.__eq__(self, other)`: `other` is an instance of `self`'s own class, and
      alias and query are equal. */
  function Equals(self: Operation, other: Operation): (b: bool)
    ensures b ==> self.alias == other.alias && self.query == other.query
    ensures b ==> (self.cls.DBOpClass? ==> other.cls.DBOpClass?)
    ensures b ==> (self.cls.CacheOpClass? ==> other.cls.CacheOpClass?)
  {
    IsInstance(other, self.cls) && self.alias == other.alias && self.query == other.query
  }

  /** Between two operations of the same class, equality is equality of alias and
      query, in both directions. */
  lemma EqualsSameClass(a: Operation, b: Operation)
    requires a.cls == b.cls
    ensures Equals(a, b) <==> a.alias == b.alias && a.query == b.query
    ensures Equals(a, b) <==> Equals(b, a)
  {
  }

  /** Every operation equals itself. */
  lemma EqualsReflexive(a: Operation)
    ensures Equals(a, a)
  {
  }

  /** Changing the alias alone makes an operation unequal to the original. */
  lemma AliasChangeBreaksEquality(a: Operation, alias: string)
    requires alias != a.alias
    ensures !Equals(a, a.(alias := alias))
    ensures !Equals(a.(alias := alias), a)
  {
  }

  /** `isinstance(other, type(self))` accepts subclasses, so a plain `Operation` equals a
      `DBOp` with the same alias and query while the `DBOp` does not equal it. */
  lemma EqualsAcceptsSubclass(alias: string, query: Query)
    ensures Equals(Operation(OperationClass, alias, query), Operation(DBOpClass, alias, query))
    ensures !Equals(Operation(DBOpClass, alias, query), Operation(OperationClass, alias, query))
  {
  }
}
