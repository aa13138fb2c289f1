/** The bus: an insertion-ordered list of subscriptions that registration
    appends to, three unregistration loops erase from in place, and the send
    loop walks to hand each matching entry to the receiver's context. */
module Messaging {
  import opened Tokens
  import opened Objects
  import opened Filters
  import opened Subscriptions
  import opened Dispatch

  class Messenger {
    var subscriptions: seq<Subscription>

    /** An explicit instance; the process-wide `Default()` is not modelled. */
    constructor ()
      ensures subscriptions == []
    {
      subscriptions := [];
    }

    /** `internalRegister`: appends one entry, never deduplicating. */
    method InternalRegister(key: TypeKey, token: MessageToken, receiver: Ref, callback: Callback)
      modifies this
      ensures subscriptions == old(subscriptions) + [Subscription(key, token, receiver, callback)]
    {
      subscriptions := subscriptions + [Subscription(key, token, receiver, callback)];
    }

    /** `Register<TMsg>(receiver, callback, token)`: `key` is the type key of
        `TMsg`; the token defaults to the wildcard. */
    method Register(key: TypeKey, receiver: Ref, callback: Callback, token: MessageToken := NoToken())
      modifies this
      ensures subscriptions == old(subscriptions) + [Subscription(key, token, receiver, callback)]
    {
      InternalRegister(key, token, receiver, callback);
    }

    /** `Register<TMsg>(receiver, &TReceiver::method, token)`: the callback
        calls member function `slot` on the receiver. */
    method RegisterMember(key: TypeKey, receiver: Ref, slot: nat, token: MessageToken := NoToken())
      modifies this
      ensures subscriptions == old(subscriptions) + [Subscription(key, token, receiver, BoundMethod(receiver, slot))]
    {
      Register(key, receiver, BoundMethod(receiver, slot), token);
    }

    /** `Unregister(receiver)`. */
    method Unregister(receiver: Ref, objects: ObjectTable)
      modifies this
      ensures subscriptions == AfterUnregister(old(subscriptions), receiver, objects.alive)
    {
      if receiver.Null? {
        return;
      }
      ghost var keep := NotOwnedBy(receiver, objects.alive);
      var i := 0;
      while i < |subscriptions|
        invariant i <= |subscriptions|
        invariant Filter(subscriptions, keep) == Filter(old(subscriptions), keep)
        invariant forall j :: 0 <= j < i ==> keep(subscriptions[j])
        decreases |subscriptions| - i
      {
        if Data(subscriptions[i].receiver, objects.alive) == receiver {
          FilterErase(subscriptions, i, keep);
          subscriptions := subscriptions[..i] + subscriptions[i + 1..];
        } else {
          i := i + 1;
        }
      }
      FilterKeepsAll(subscriptions, keep);
    }

    /** `Unregister<TMsg>(receiver, token)`; no null guard. */
    method UnregisterType(key: TypeKey, receiver: Ref, objects: ObjectTable, token: MessageToken := NoToken())
      modifies this
      ensures subscriptions == AfterUnregisterType(old(subscriptions), receiver, key, token, objects.alive)
    {
      ghost var keep := NotErasedByType(receiver, key, token, objects.alive);
      var i := 0;
      while i < |subscriptions|
        invariant i <= |subscriptions|
        invariant Filter(subscriptions, keep) == Filter(old(subscriptions), keep)
        invariant forall j :: 0 <= j < i ==> keep(subscriptions[j])
        decreases |subscriptions| - i
      {
        var sub := subscriptions[i];
        if Data(sub.receiver, objects.alive) == receiver && sub.typeKey == key &&
           (token.IsEmpty() || sub.token.Equals(token)) {
          FilterErase(subscriptions, i, keep);
          subscriptions := subscriptions[..i] + subscriptions[i + 1..];
        } else {
          i := i + 1;
        }
      }
      FilterKeepsAll(subscriptions, keep);
    }

    /** `Cleanup()`: erases the entries whose receiver has been destroyed. */
    method Cleanup(objects: ObjectTable)
      modifies this
      ensures subscriptions == AfterCleanup(old(subscriptions), objects.alive)
    {
      ghost var keep := LiveIn(objects.alive);
      var i := 0;
      while i < |subscriptions|
        invariant i <= |subscriptions|
        invariant Filter(subscriptions, keep) == Filter(old(subscriptions), keep)
        invariant forall j :: 0 <= j < i ==> keep(subscriptions[j])
        decreases |subscriptions| - i
      {
        if IsNull(subscriptions[i].receiver, objects.alive) {
          FilterErase(subscriptions, i, keep);
          subscriptions := subscriptions[..i] + subscriptions[i + 1..];
        } else {
          i := i + 1;
        }
      }
      FilterKeepsAll(subscriptions, keep);
    }

    /** `internalSend`, called from context `current`: every dispatched
        entry owned by `current` has run, in list order; every other one is
        appended, in list order, to its own context's queue.  The list itself
        is not changed (the method may modify only `loop`). */
    method InternalSend<P>(key: TypeKey, token: MessageToken, payload: P,
                           objects: ObjectTable, loop: EventLoop<P>, current: ContextId)
      requires objects.Valid()
      modifies loop
      ensures Placed(Dispatched(subscriptions, key, token, objects.alive), objects.affinity)
      ensures loop.State() ==
                PostAll(old(loop.State()), Dispatched(subscriptions, key, token, objects.alive), payload, current, objects.affinity)
      ensures loop.delivered == old(loop.delivered) +
                Tasks(Routed(Dispatched(subscriptions, key, token, objects.alive), current, objects.affinity), payload)
      ensures loop.Queue(current) == old(loop.Queue(current))
      ensures forall c :: c != current ==>
                loop.Queue(c) == old(loop.Queue(c)) +
                  Tasks(Routed(Dispatched(subscriptions, key, token, objects.alive), c, objects.affinity), payload)
    {
      var i := 0;
      ghost var done: seq<Subscription> := [];
      while i < |subscriptions|
        invariant i <= |subscriptions|
        invariant done == Dispatched(subscriptions[..i], key, token, objects.alive)
        invariant Placed(done, objects.affinity)
        invariant loop.State() == PostAll(old(loop.State()), done, payload, current, objects.affinity)
      {
        var sub := subscriptions[i];
        assert subscriptions[..i + 1] == subscriptions[..i] + [sub];
        RegisterThenSend(subscriptions[..i], sub, key, token, objects.alive);
        if sub.typeKey != key {
        } else if !(sub.token.IsEmpty() || token.IsEmpty() || sub.token.Equals(token)) {
        } else if IsNull(sub.receiver, objects.alive) {
        } else {
          var target := objects.affinity[sub.receiver.id];
          loop.Invoke(Task(sub, payload), target, current);
          assert (done + [sub])[..|done|] == done;
          done := done + [sub];
        }
        i := i + 1;
      }
      assert subscriptions[..i] == subscriptions;
      PostAllOutcome(old(loop.State()), done, payload, current, objects.affinity);
    }

    /** `Send<TMsg>(message, token)`: forwards the type key of `TMsg`, the
        token (wildcard by default) and the message to `InternalSend`. */
    method Send<P>(key: TypeKey, message: P, objects: ObjectTable, loop: EventLoop<P>, current: ContextId,
                   token: MessageToken := NoToken())
      requires objects.Valid()
      modifies loop
      ensures loop.delivered == old(loop.delivered) +
                Tasks(Routed(Dispatched(subscriptions, key, token, objects.alive), current, objects.affinity), message)
      ensures loop.Queue(current) == old(loop.Queue(current))
      ensures forall c :: c != current ==>
                loop.Queue(c) == old(loop.Queue(c)) +
                  Tasks(Routed(Dispatched(subscriptions, key, token, objects.alive), c, objects.affinity), message)
    {
      InternalSend(key, token, message, objects, loop, current);
    }
  }
}
