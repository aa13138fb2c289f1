/** Delivery through `QMetaObject::invokeMethod(receiver, task,
    Qt::AutoConnection)`, abstracted to one rule: a task whose receiver is
    owned by the calling context runs at once; any other task is appended
    to the FIFO queue of the receiver's context and runs when that
    context's event loop gets to it. */
module Dispatch {
  import opened Objects
  import opened Filters
  import opened Subscriptions

  /** The queued lambda `[sub, payload] { sub.callback(payload); }`: it
      holds copies of the entry and of the payload. */
  datatype Task<P> = Task(sub: Subscription, payload: P)

  /** One task per entry, in the order of `ds`, each carrying `payload`. */
  function Tasks<P>(ds: seq<Subscription>, payload: P): (ts: seq<Task<P>>)
    ensures |ts| == |ds|
    ensures forall i :: 0 <= i < |ts| ==> ts[i].sub == ds[i] && ts[i].payload == payload
  {
    if ds == [] then [] else [Task(ds[0], payload)] + Tasks(ds[1..], payload)
  }

  lemma TasksAppend<P>(a: seq<Subscription>, b: seq<Subscription>, payload: P)
    ensures Tasks(a + b, payload) == Tasks(a, payload) + Tasks(b, payload)
  {
  }

  /** `receiver->thread() == c`. */
  function RunsOn(c: ContextId, affinity: map<ObjId, ContextId>): (p: Subscription -> bool)
  {
    (e: Subscription) => e.receiver.Ptr? && e.receiver.id in affinity && affinity[e.receiver.id] == c
  }

  /** The entries of `ds` whose receiver context is `c`, in order. */
  function Routed(ds: seq<Subscription>, c: ContextId, affinity: map<ObjId, ContextId>): (share: seq<Subscription>)
    ensures |share| <= |ds|
    ensures forall e :: e in share ==> e in ds
  {
    Filter(ds, RunsOn(c, affinity))
  }

  /** Every entry goes to one context only. */
  lemma RoutedToOneContext(ds: seq<Subscription>, c1: ContextId, c2: ContextId, affinity: map<ObjId, ContextId>, e: Subscription)
    requires c1 != c2
    ensures !(e in Routed(ds, c1, affinity) && e in Routed(ds, c2, affinity))
    ensures e in ds && e.receiver.Ptr? && e.receiver.id in affinity ==> e in Routed(ds, affinity[e.receiver.id], affinity)
  {
    FilterMembership(ds, RunsOn(c1, affinity), e);
    FilterMembership(ds, RunsOn(c2, affinity), e);
    if e.receiver.Ptr? && e.receiver.id in affinity {
      FilterMembership(ds, RunsOn(affinity[e.receiver.id], affinity), e);
    }
  }

  /** Extending the dispatched prefix by one entry extends each context's
      share by that entry or by nothing. */
  lemma RoutedSnoc(ds: seq<Subscription>, e: Subscription, c: ContextId, affinity: map<ObjId, ContextId>)
    ensures Routed(ds + [e], c, affinity) == Routed(ds, c, affinity) + (if RunsOn(c, affinity)(e) then [e] else [])
  {
    FilterSnoc(ds, e, RunsOn(c, affinity));
  }

  /** The same, for the tasks built from that share. */
  lemma RoutedTasksSnoc<P>(ds: seq<Subscription>, e: Subscription, c: ContextId, affinity: map<ObjId, ContextId>, payload: P)
    ensures Tasks(Routed(ds + [e], c, affinity), payload) ==
            Tasks(Routed(ds, c, affinity), payload) + (if RunsOn(c, affinity)(e) then [Task(e, payload)] else [])
  {
    RoutedSnoc(ds, e, c, affinity);
    TasksAppend(Routed(ds, c, affinity), [e], payload);
    assert Tasks([e], payload) == [Task(e, payload)];
  }

  /** The entries of `ds` all have a live-object receiver whose context is
      known: what the send filter guarantees of its output. */
  predicate Placed(ds: seq<Subscription>, affinity: map<ObjId, ContextId>)
  {
    forall i :: 0 <= i < |ds| ==> ds[i].receiver.Ptr? && ds[i].receiver.id in affinity
  }

  /** The delivery side of the process as a value: the callbacks already
      run, in order, and each context's pending queue. */
  datatype LoopState<P> = LoopState(delivered: seq<Task<P>>, queues: map<ContextId, seq<Task<P>>>) {
    function Queue(c: ContextId): (q: seq<Task<P>>)
    {
      if c in queues then queues[c] else []
    }
  }

  /** AutoConnection for one task: run it now when its receiver's context
      `target` is the caller's context `current`, otherwise append it to
      the queue of `target`. */
  function Post<P>(s: LoopState<P>, task: Task<P>, target: ContextId, current: ContextId): (r: LoopState<P>)
    ensures target == current ==> r.delivered == s.delivered + [task]
    ensures target != current ==> r.delivered == s.delivered && r.Queue(target) == s.Queue(target) + [task]
    ensures forall c :: c != target || c == current ==> r.Queue(c) == s.Queue(c)
  {
    if target == current then s.(delivered := s.delivered + [task])
    else s.(queues := s.queues[target := s.Queue(target) + [task]])
  }

  /** The state after posting one task per entry of `ds`, in order. */
  function PostAll<P>(s: LoopState<P>, ds: seq<Subscription>, payload: P, current: ContextId,
                      affinity: map<ObjId, ContextId>): (r: LoopState<P>)
    requires Placed(ds, affinity)
    ensures s.delivered <= r.delivered && |r.delivered| <= |s.delivered| + |ds|
    ensures r.Queue(current) == s.Queue(current)
  {
    if ds == [] then s
    else
      var last := ds[|ds| - 1];
      Post(PostAll(s, ds[..|ds| - 1], payload, current, affinity), Task(last, payload),
           affinity[last.receiver.id], current)
  }

  /** After a sequence of posts, the entries owned by the caller's context
      have run, in order. */
  lemma {:induction false} PostAllDelivered<P>(s: LoopState<P>, ds: seq<Subscription>, payload: P, current: ContextId,
                                               affinity: map<ObjId, ContextId>)
    requires Placed(ds, affinity)
    ensures PostAll(s, ds, payload, current, affinity).delivered ==
            s.delivered + Tasks(Routed(ds, current, affinity), payload)
  {
    if ds == [] {
      assert Routed(ds, current, affinity) == [];
    } else {
      var init, last := ds[..|ds| - 1], ds[|ds| - 1];
      assert ds == init + [last];
      PostAllDelivered(s, init, payload, current, affinity);
      RoutedTasksSnoc(init, last, current, affinity, payload);
      var earlier := Tasks(Routed(init, current, affinity), payload);
      var t := Task(last, payload);
      assert s.delivered + earlier + [t] == s.delivered + (earlier + [t]);
    }
  }

  /** After a sequence of posts, the queue of every other context has gained
      that context's entries, in order, and the caller's queue is as it was. */
  lemma {:induction false} PostAllQueue<P>(s: LoopState<P>, ds: seq<Subscription>, payload: P, current: ContextId,
                                           affinity: map<ObjId, ContextId>, c: ContextId)
    requires Placed(ds, affinity)
    ensures PostAll(s, ds, payload, current, affinity).Queue(c) ==
            if c == current then s.Queue(c) else s.Queue(c) + Tasks(Routed(ds, c, affinity), payload)
  {
    if ds == [] {
      assert Routed(ds, c, affinity) == [];
    } else {
      var init, last := ds[..|ds| - 1], ds[|ds| - 1];
      assert ds == init + [last];
      PostAllQueue(s, init, payload, current, affinity, c);
      var prev := PostAll(s, init, payload, current, affinity);
      var t, target := Task(last, payload), affinity[last.receiver.id];
      assert PostAll(s, ds, payload, current, affinity) == Post(prev, t, target, current);
      if c != current {
        RoutedTasksSnoc(init, last, c, affinity, payload);
        var earlier := Tasks(Routed(init, c, affinity), payload);
        if target == c {
          assert RunsOn(c, affinity)(last);
          assert s.Queue(c) + earlier + [t] == s.Queue(c) + (earlier + [t]);
        } else {
          assert !RunsOn(c, affinity)(last);
        }
      }
    }
  }

  /** What a sequence of posts amounts to, for every context at once. */
  lemma PostAllOutcome<P>(s: LoopState<P>, ds: seq<Subscription>, payload: P, current: ContextId,
                          affinity: map<ObjId, ContextId>)
    requires Placed(ds, affinity)
    ensures PostAll(s, ds, payload, current, affinity).delivered ==
            s.delivered + Tasks(Routed(ds, current, affinity), payload)
    ensures PostAll(s, ds, payload, current, affinity).Queue(current) == s.Queue(current)
    ensures forall c :: c != current ==>
              PostAll(s, ds, payload, current, affinity).Queue(c) == s.Queue(c) + Tasks(Routed(ds, c, affinity), payload)
  {
    PostAllDelivered(s, ds, payload, current, affinity);
    forall c {
      PostAllQueue(s, ds, payload, current, affinity, c);
    }
  }

  /** The delivery side of the process: the callbacks already run, in
      order, and each context's pending queue. */
  class EventLoop<P> {
    var delivered: seq<Task<P>>
    var queues: map<ContextId, seq<Task<P>>>

    function State(): (s: LoopState<P>)
      reads this
    {
      LoopState(delivered, queues)
    }

    function Queue(c: ContextId): (q: seq<Task<P>>)
      reads this
    {
      State().Queue(c)
    }

    constructor ()
      ensures delivered == []
      ensures forall c :: Queue(c) == []
    {
      delivered, queues := [], map[];
    }

    /** `invokeMethod(receiver, task, Qt::AutoConnection)`: `target` is the
        receiver's context, `current` the caller's. */
    method Invoke(task: Task<P>, target: ContextId, current: ContextId)
      modifies this
      ensures State() == Post(old(State()), task, target, current)
    {
      if target == current {
        delivered := delivered + [task];
      } else {
        queues := queues[target := Queue(target) + [task]];
      }
    }

    /** Context `ctx` runs the oldest task of its queue.  A task whose
        receiver has been destroyed meanwhile is dropped instead. */
    method ProcessNext(ctx: ContextId, alive: set<ObjId>) returns (ran: bool)
      modifies this
      ensures old(Queue(ctx)) == [] ==> !ran && delivered == old(delivered) && queues == old(queues)
      ensures old(Queue(ctx)) != [] ==>
                Queue(ctx) == old(Queue(ctx))[1..] &&
                ran == !IsNull(old(Queue(ctx))[0].sub.receiver, alive) &&
                delivered == old(delivered) + (if ran then [old(Queue(ctx))[0]] else [])
      ensures forall c :: c != ctx ==> Queue(c) == old(Queue(c))
    {
      var q := Queue(ctx);
      if q == [] {
        ran := false;
        return;
      }
      var head := q[0];
      queues := queues[ctx := q[1..]];
      ran := !IsNull(head.sub.receiver, alive);
      if ran {
        delivered := delivered + [head];
      }
    }
  }
}
