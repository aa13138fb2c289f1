/** Receivers: object identities, their liveness and their owning
    execution context (thread).  A `QPointer` is a `Ref` read against the
    set of live objects. */
module Objects {

  type ObjId = nat
  type ContextId = nat

  /** A raw object pointer, possibly null. */
  datatype Ref = Null | Ptr(id: ObjId)

  /** `QPointer::data()`: the stored pointer while its object is alive,
      null once the object has been destroyed (or when it was null). */
  function Data(r: Ref, alive: set<ObjId>): (d: Ref)
    ensures d.Ptr? <==> r.Ptr? && r.id in alive
    ensures d.Ptr? ==> d == r
  {
    if r.Ptr? && r.id in alive then r else Null
  }

  /** `QPointer::isNull()`. */
  predicate IsNull(r: Ref, alive: set<ObjId>): (b: bool)
    ensures b <==> r.Null? || r.id !in alive
  {
    Data(r, alive) == Null
  }

  /** The objects of the process: which are alive and which context owns
      each.  Identities are never reused. */
  class ObjectTable {
    var alive: set<ObjId>
    var affinity: map<ObjId, ContextId>
    var next: ObjId

    ghost predicate Valid()
      reads this
    {
      alive <= affinity.Keys && forall id :: id in affinity ==> id < next
    }

    constructor ()
      ensures Valid() && alive == {} && affinity == map[]
    {
      alive, affinity, next := {}, map[], 0;
    }

    /** Creates a live object owned by context `ctx`. */
    method New(ctx: ContextId) returns (id: ObjId)
      requires Valid()
      modifies this
      ensures Valid()
      ensures id !in old(affinity)
      ensures alive == old(alive) + {id}
      ensures affinity == old(affinity)[id := ctx]
    {
      id := next;
      alive := alive + {id};
      affinity := affinity[id := ctx];
      next := next + 1;
    }

    /** Destroys an object.  Its registrations stay behind, now dead. */
    method Delete(id: ObjId)
      requires Valid()
      modifies this
      ensures Valid()
      ensures alive == old(alive) - {id} && affinity == old(affinity)
    {
      alive := alive - {id};
    }
  }
}
