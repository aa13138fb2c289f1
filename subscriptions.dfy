/** The subscription record and, for every operation on the registry, the
    list it produces, stated as a filter of the list it is given.  The
    class `Messaging.Messenger` is proved against these functions. */
module Subscriptions {
  import opened Tokens
  import opened Objects
  import opened Filters

  /** `typeid(TMsg).hash_code()`, an opaque key.  Keys of distinct types
      are not assumed to differ. */
  type TypeKey = nat

  /** The stored `std::function`: a lambda, or the wrapper that calls a
      member function `slot` on `target`. */
  datatype Callback = Closure(id: nat) | BoundMethod(target: Ref, slot: nat)

  /** One entry of the registry; never mutated after it is appended. */
  datatype Subscription = Subscription(typeKey: TypeKey, token: MessageToken, receiver: Ref, callback: Callback)

  // ---------------------------------------------------------------------
  // The per-entry conditions of the erase loops and of the send filter.
  // ---------------------------------------------------------------------

  /** `it->receiver.data() == receiver`. */
  predicate OwnedBy(e: Subscription, r: Ref, alive: set<ObjId>)
  {
    Data(e.receiver, alive) == r
  }

  /** The erase condition of `Unregister<TMsg>(receiver, token)`. */
  predicate ErasedByType(e: Subscription, r: Ref, key: TypeKey, token: MessageToken, alive: set<ObjId>)
  {
    OwnedBy(e, r, alive) && e.typeKey == key && (token.IsEmpty() || e.token.Equals(token))
  }

  /** `!sub.receiver.isNull()`. */
  predicate Live(e: Subscription, alive: set<ObjId>)
  {
    !IsNull(e.receiver, alive)
  }

  /** The three tests of the send loop. */
  predicate Delivers(e: Subscription, key: TypeKey, token: MessageToken, alive: set<ObjId>)
  {
    e.typeKey == key && TokenMatch(e.token, token) && Live(e, alive)
  }

  // The same conditions as values, so that every statement about a filter
  // names one and the same predicate.

  function NotOwnedBy(r: Ref, alive: set<ObjId>): (p: Subscription -> bool)
  {
    (e: Subscription) => !OwnedBy(e, r, alive)
  }

  function NotErasedByType(r: Ref, key: TypeKey, token: MessageToken, alive: set<ObjId>): (p: Subscription -> bool)
  {
    (e: Subscription) => !ErasedByType(e, r, key, token, alive)
  }

  function LiveIn(alive: set<ObjId>): (p: Subscription -> bool)
  {
    (e: Subscription) => Live(e, alive)
  }

  function DeliversFor(key: TypeKey, token: MessageToken, alive: set<ObjId>): (p: Subscription -> bool)
  {
    (e: Subscription) => Delivers(e, key, token, alive)
  }

  /** Entries of another receiver, or of another type. */
  function OtherReceiverOrType(r: Ref, key: TypeKey, alive: set<ObjId>): (p: Subscription -> bool)
  {
    (e: Subscription) => !OwnedBy(e, r, alive) || e.typeKey != key
  }

  function ReceiverIs(r: Ref): (p: Subscription -> bool)
  {
    (e: Subscription) => e.receiver == r
  }

  // ---------------------------------------------------------------------
  // The registry operations on values.
  // ---------------------------------------------------------------------

  /** `Unregister(receiver)`: a null receiver changes nothing; otherwise
      every entry whose live receiver is `r` is erased. */
  function AfterUnregister(subs: seq<Subscription>, r: Ref, alive: set<ObjId>): (rest: seq<Subscription>)
    ensures |rest| <= |subs|
    ensures forall i :: 0 <= i < |rest| ==>
              rest[i] in subs && (r.Null? || Data(rest[i].receiver, alive) != r)
  {
    if r.Null? then subs else Filter(subs, NotOwnedBy(r, alive))
  }

  /** `Unregister<TMsg>(receiver, token)`. */
  function AfterUnregisterType(subs: seq<Subscription>, r: Ref, key: TypeKey, token: MessageToken, alive: set<ObjId>): (rest: seq<Subscription>)
    ensures |rest| <= |subs|
    ensures forall i :: 0 <= i < |rest| ==>
              rest[i] in subs &&
              !(Data(rest[i].receiver, alive) == r && rest[i].typeKey == key &&
                (token == NoToken() || rest[i].token == token))
  {
    Filter(subs, NotErasedByType(r, key, token, alive))
  }

  /** `Cleanup()`. */
  function AfterCleanup(subs: seq<Subscription>, alive: set<ObjId>): (rest: seq<Subscription>)
    ensures |rest| <= |subs|
    ensures forall i :: 0 <= i < |rest| ==>
              rest[i] in subs && rest[i].receiver.Ptr? && rest[i].receiver.id in alive
  {
    Filter(subs, LiveIn(alive))
  }

  /** The entries `internalSend` hands to `invokeMethod`, in list order. */
  function Dispatched(subs: seq<Subscription>, key: TypeKey, token: MessageToken, alive: set<ObjId>): (ds: seq<Subscription>)
    ensures |ds| <= |subs|
    ensures forall i :: 0 <= i < |ds| ==>
              ds[i] in subs && ds[i].typeKey == key && TokenMatch(ds[i].token, token) &&
              ds[i].receiver.Ptr? && ds[i].receiver.id in alive
  {
    Filter(subs, DeliversFor(key, token, alive))
  }

  /** How many entries of `ds` are registered for receiver `r`: the number
      of times one send reaches `r`. */
  function DeliveryCount(ds: seq<Subscription>, r: Ref): (n: nat)
    ensures n <= |ds|
  {
    |Filter(ds, ReceiverIs(r))|
  }

  /** A receiver that no entry names is reached no time; one that every
      entry names is reached once per entry; one that exactly one entry
      names is reached once. */
  lemma DeliveryCountCases(ds: seq<Subscription>, r: Ref)
    ensures (forall i :: 0 <= i < |ds| ==> ds[i].receiver != r) ==> DeliveryCount(ds, r) == 0
    ensures (forall i :: 0 <= i < |ds| ==> ds[i].receiver == r) ==> DeliveryCount(ds, r) == |ds|
    ensures forall k :: 0 <= k < |ds| && ds[k].receiver == r &&
                        (forall j :: 0 <= j < |ds| && j != k ==> ds[j].receiver != r) ==>
              DeliveryCount(ds, r) == 1
  {
    if forall i :: 0 <= i < |ds| ==> ds[i].receiver != r {
      FilterKeepsNone(ds, ReceiverIs(r));
    }
    if forall i :: 0 <= i < |ds| ==> ds[i].receiver == r {
      FilterKeepsAll(ds, ReceiverIs(r));
    }
    forall k | 0 <= k < |ds| && ds[k].receiver == r &&
               (forall j :: 0 <= j < |ds| && j != k ==> ds[j].receiver != r)
      ensures DeliveryCount(ds, r) == 1
    {
      FilterSingle(ds, ReceiverIs(r), k);
    }
  }

  // ---------------------------------------------------------------------
  // internalRegister and Send
  // ---------------------------------------------------------------------

  /** Appending one entry adds it, once, at the end of what a send
      dispatches if it matches, and adds nothing otherwise. */
  lemma RegisterThenSend(subs: seq<Subscription>, e: Subscription, key: TypeKey, token: MessageToken, alive: set<ObjId>)
    ensures Dispatched(subs + [e], key, token, alive) ==
            Dispatched(subs, key, token, alive) + (if Delivers(e, key, token, alive) then [e] else [])
  {
    FilterSnoc(subs, e, DeliversFor(key, token, alive));
  }

  /** Registrations are not deduplicated: registering the same entry twice
      gives two more deliveries per matching send. */
  lemma DuplicateRegistration(subs: seq<Subscription>, e: Subscription, key: TypeKey, token: MessageToken, alive: set<ObjId>)
    requires Delivers(e, key, token, alive)
    ensures DeliveryCount(Dispatched(subs + [e] + [e], key, token, alive), e.receiver) ==
            DeliveryCount(Dispatched(subs, key, token, alive), e.receiver) + 2
  {
    var ds := Dispatched(subs, key, token, alive);
    RegisterThenSend(subs, e, key, token, alive);
    RegisterThenSend(subs + [e], e, key, token, alive);
    assert Dispatched(subs + [e] + [e], key, token, alive) == ds + [e] + [e];
    FilterSnoc(ds, e, ReceiverIs(e.receiver));
    FilterSnoc(ds + [e], e, ReceiverIs(e.receiver));
  }

  /** An entry is dispatched exactly when it has the sent type key, its
      token matches, and its receiver is alive. */
  lemma DispatchedMembership(subs: seq<Subscription>, key: TypeKey, token: MessageToken, alive: set<ObjId>, e: Subscription)
    ensures e in Dispatched(subs, key, token, alive) <==>
            e in subs && e.typeKey == key && TokenMatch(e.token, token) && !IsNull(e.receiver, alive)
  {
    FilterMembership(subs, DeliversFor(key, token, alive), e);
  }

  /** One dispatch per matching entry: a matching entry stored `k` times is
      dispatched `k` times, any other not at all. */
  lemma DispatchedCount(subs: seq<Subscription>, key: TypeKey, token: MessageToken, alive: set<ObjId>, e: Subscription)
    ensures multiset(Dispatched(subs, key, token, alive))[e] ==
            if Delivers(e, key, token, alive) then multiset(subs)[e] else 0
  {
    FilterCount(subs, DeliversFor(key, token, alive), e);
  }

  /** Dispatches follow registration order. */
  lemma DispatchedInOrder(subs: seq<Subscription>, key: TypeKey, token: MessageToken, alive: set<ObjId>)
    ensures IsSubsequence(Dispatched(subs, key, token, alive), subs)
  {
    FilterIsSubsequence(subs, DeliversFor(key, token, alive));
  }

  /** A send of a type no entry carries reaches nobody (type isolation). */
  lemma SendUnknownType(subs: seq<Subscription>, key: TypeKey, token: MessageToken, alive: set<ObjId>)
    requires forall i :: 0 <= i < |subs| ==> subs[i].typeKey != key
    ensures Dispatched(subs, key, token, alive) == []
  {
    FilterKeepsNone(subs, DeliversFor(key, token, alive));
  }

  /** A specific token that no entry of the type carries, while no entry of
      the type is a wildcard, reaches nobody. */
  lemma SendUnmatchedToken(subs: seq<Subscription>, key: TypeKey, token: MessageToken, alive: set<ObjId>)
    requires !token.IsEmpty()
    requires forall i :: 0 <= i < |subs| && subs[i].typeKey == key ==>
               !subs[i].token.IsEmpty() && subs[i].token != token
    ensures Dispatched(subs, key, token, alive) == []
  {
    FilterKeepsNone(subs, DeliversFor(key, token, alive));
  }

  /** Broadcast: when every entry is a live wildcard subscription of the
      sent type, the send dispatches every entry, and when the receivers
      are pairwise distinct each of them is reached exactly once. */
  lemma Broadcast(subs: seq<Subscription>, key: TypeKey, token: MessageToken, alive: set<ObjId>)
    requires forall i :: 0 <= i < |subs| ==>
               subs[i].typeKey == key && subs[i].token.IsEmpty() && Live(subs[i], alive)
    ensures Dispatched(subs, key, token, alive) == subs
    ensures (forall i, j :: 0 <= i < j < |subs| ==> subs[i].receiver != subs[j].receiver) ==>
              forall i :: 0 <= i < |subs| ==> DeliveryCount(Dispatched(subs, key, token, alive), subs[i].receiver) == 1
  {
    FilterKeepsAll(subs, DeliversFor(key, token, alive));
    if forall i, j :: 0 <= i < j < |subs| ==> subs[i].receiver != subs[j].receiver {
      forall i | 0 <= i < |subs|
        ensures DeliveryCount(subs, subs[i].receiver) == 1
      {
        forall j | 0 <= j < |subs| && j != i
          ensures subs[j].receiver != subs[i].receiver
        {
          if j < i {
            assert subs[j].receiver != subs[i].receiver;
          }
        }
        FilterSingle(subs, ReceiverIs(subs[i].receiver), i);
      }
    }
  }

  // ---------------------------------------------------------------------
  // Unregister(receiver)
  // ---------------------------------------------------------------------

  /** Exactly the entries whose live receiver is `r` are erased, whatever
      their type or token; a null `r` erases nothing. */
  lemma UnregisterMembership(subs: seq<Subscription>, r: Ref, alive: set<ObjId>, e: Subscription)
    ensures e in AfterUnregister(subs, r, alive) <==>
            e in subs && (r.Null? || Data(e.receiver, alive) != r)
  {
    if r.Ptr? {
      FilterMembership(subs, NotOwnedBy(r, alive), e);
    }
  }

  /** Every surviving entry survives with all its copies. */
  lemma UnregisterCount(subs: seq<Subscription>, r: Ref, alive: set<ObjId>, e: Subscription)
    requires r.Ptr?
    ensures multiset(AfterUnregister(subs, r, alive))[e] ==
            if OwnedBy(e, r, alive) then 0 else multiset(subs)[e]
  {
    FilterCount(subs, NotOwnedBy(r, alive), e);
  }

  lemma UnregisterNullIsNoop(subs: seq<Subscription>, alive: set<ObjId>)
    ensures AfterUnregister(subs, Null, alive) == subs
  {
  }

  lemma UnregisterIdempotent(subs: seq<Subscription>, r: Ref, alive: set<ObjId>)
    ensures AfterUnregister(AfterUnregister(subs, r, alive), r, alive) == AfterUnregister(subs, r, alive)
  {
    if r.Ptr? {
      FilterIdempotent(subs, NotOwnedBy(r, alive));
    }
  }

  /** The other entries keep their relative order. */
  lemma UnregisterKeepsOrder(subs: seq<Subscription>, r: Ref, alive: set<ObjId>)
    ensures IsSubsequence(AfterUnregister(subs, r, alive), subs)
  {
    if r.Ptr? {
      FilterIsSubsequence(subs, NotOwnedBy(r, alive));
    } else {
      IsSubsequenceReflexive(subs);
    }
  }

  /** After `Unregister(r)`, no send of any type or token reaches `r`. */
  lemma UnregisterStopsDelivery(subs: seq<Subscription>, r: Ref, key: TypeKey, token: MessageToken, alive: set<ObjId>)
    requires r.Ptr?
    ensures DeliveryCount(Dispatched(AfterUnregister(subs, r, alive), key, token, alive), r) == 0
  {
    var ds := Dispatched(AfterUnregister(subs, r, alive), key, token, alive);
    forall i | 0 <= i < |ds| ensures ds[i].receiver != r {
      DispatchedMembership(AfterUnregister(subs, r, alive), key, token, alive, ds[i]);
      UnregisterMembership(subs, r, alive, ds[i]);
    }
    FilterKeepsNone(ds, ReceiverIs(r));
  }

  // ---------------------------------------------------------------------
  // Unregister<TMsg>(receiver, token)
  // ---------------------------------------------------------------------

  lemma UnregisterTypeMembership(subs: seq<Subscription>, r: Ref, key: TypeKey, token: MessageToken, alive: set<ObjId>, e: Subscription)
    ensures e in AfterUnregisterType(subs, r, key, token, alive) <==>
            e in subs && !(Data(e.receiver, alive) == r && e.typeKey == key && (token.IsEmpty() || e.token == token))
  {
    FilterMembership(subs, NotErasedByType(r, key, token, alive), e);
  }

  /** With the wildcard token every entry of `(r, key)` is erased, whatever
      its stored token, and no later send of that type reaches `r`,
      whatever token it carries. */
  lemma UnregisterTypeWildcard(subs: seq<Subscription>, r: Ref, key: TypeKey, sent: MessageToken, alive: set<ObjId>)
    requires r.Ptr?
    ensures forall e :: e in AfterUnregisterType(subs, r, key, NoToken(), alive) ==>
              !(OwnedBy(e, r, alive) && e.typeKey == key)
    ensures DeliveryCount(Dispatched(AfterUnregisterType(subs, r, key, NoToken(), alive), key, sent, alive), r) == 0
  {
    var rest := AfterUnregisterType(subs, r, key, NoToken(), alive);
    forall e | e in rest ensures !(OwnedBy(e, r, alive) && e.typeKey == key) {
      UnregisterTypeMembership(subs, r, key, NoToken(), alive, e);
    }
    var ds := Dispatched(rest, key, sent, alive);
    forall i | 0 <= i < |ds| ensures ds[i].receiver != r {
      DispatchedMembership(rest, key, sent, alive, ds[i]);
    }
    FilterKeepsNone(ds, ReceiverIs(r));
  }

  /** With a specific token, a same-receiver same-type entry whose token
      differs survives, and a send carrying its token still reaches it. */
  lemma UnregisterTypeExactToken(subs: seq<Subscription>, r: Ref, key: TypeKey, token: MessageToken, alive: set<ObjId>, e: Subscription)
    requires !token.IsEmpty()
    requires e in subs && OwnedBy(e, r, alive) && e.typeKey == key && e.token != token
    ensures e in AfterUnregisterType(subs, r, key, token, alive)
    ensures multiset(AfterUnregisterType(subs, r, key, token, alive))[e] == multiset(subs)[e]
    ensures r.Ptr? ==> e in Dispatched(AfterUnregisterType(subs, r, key, token, alive), key, e.token, alive)
  {
    var rest := AfterUnregisterType(subs, r, key, token, alive);
    UnregisterTypeMembership(subs, r, key, token, alive, e);
    FilterCount(subs, NotErasedByType(r, key, token, alive), e);
    DispatchedMembership(rest, key, e.token, alive, e);
  }

  /** Entries of another receiver or another type are kept, and among
      themselves they keep exactly their original sequence. */
  lemma UnregisterTypeKeepsOthers(subs: seq<Subscription>, r: Ref, key: TypeKey, token: MessageToken, alive: set<ObjId>)
    ensures Filter(AfterUnregisterType(subs, r, key, token, alive), OtherReceiverOrType(r, key, alive)) ==
            Filter(subs, OtherReceiverOrType(r, key, alive))
    ensures IsSubsequence(AfterUnregisterType(subs, r, key, token, alive), subs)
  {
    FilterOfFilter(subs, NotErasedByType(r, key, token, alive), OtherReceiverOrType(r, key, alive));
    FilterIsSubsequence(subs, NotErasedByType(r, key, token, alive));
  }

  lemma UnregisterTypeIdempotent(subs: seq<Subscription>, r: Ref, key: TypeKey, token: MessageToken, alive: set<ObjId>)
    ensures AfterUnregisterType(AfterUnregisterType(subs, r, key, token, alive), r, key, token, alive) ==
            AfterUnregisterType(subs, r, key, token, alive)
  {
    FilterIdempotent(subs, NotErasedByType(r, key, token, alive));
  }

  /** The template has no null guard: with a null receiver and the wildcard
      token it erases every dead entry of the type (a dead receiver reads
      as null), unlike `Unregister(nullptr)`, which erases nothing. */
  lemma UnregisterTypeNullErasesDead(subs: seq<Subscription>, key: TypeKey, alive: set<ObjId>, e: Subscription)
    requires e in subs && e.typeKey == key && IsNull(e.receiver, alive)
    ensures e !in AfterUnregisterType(subs, Null, key, NoToken(), alive)
    ensures e in AfterUnregister(subs, Null, alive)
  {
  }

  // ---------------------------------------------------------------------
  // Cleanup()
  // ---------------------------------------------------------------------

  /** Exactly the entries whose receiver is dead are erased. */
  lemma CleanupMembership(subs: seq<Subscription>, alive: set<ObjId>, e: Subscription)
    ensures e in AfterCleanup(subs, alive) <==> e in subs && !IsNull(e.receiver, alive)
    ensures multiset(AfterCleanup(subs, alive))[e] == if Live(e, alive) then multiset(subs)[e] else 0
  {
    FilterMembership(subs, LiveIn(alive), e);
    FilterCount(subs, LiveIn(alive), e);
  }

  /** With no dead entry, `Cleanup` changes nothing. */
  lemma CleanupNoDeadIsNoop(subs: seq<Subscription>, alive: set<ObjId>)
    requires forall i :: 0 <= i < |subs| ==> !IsNull(subs[i].receiver, alive)
    ensures AfterCleanup(subs, alive) == subs
  {
    FilterKeepsAll(subs, LiveIn(alive));
  }

  lemma CleanupIdempotentAndOrdered(subs: seq<Subscription>, alive: set<ObjId>)
    ensures AfterCleanup(AfterCleanup(subs, alive), alive) == AfterCleanup(subs, alive)
    ensures IsSubsequence(AfterCleanup(subs, alive), subs)
  {
    FilterIdempotent(subs, LiveIn(alive));
    FilterIsSubsequence(subs, LiveIn(alive));
  }

  /** A send already skips dead entries, so pruning them beforehand changes
      no send's dispatches. */
  lemma CleanupInvisibleToSend(subs: seq<Subscription>, key: TypeKey, token: MessageToken, alive: set<ObjId>)
    ensures Dispatched(AfterCleanup(subs, alive), key, token, alive) == Dispatched(subs, key, token, alive)
  {
    FilterOfFilter(subs, LiveIn(alive), DeliversFor(key, token, alive));
  }
}
