/** Client runs of the bus, written against the method contracts only:
    each replays one behaviour the repository's tests exercise. */
module Scenarios {
  import opened Tokens
  import opened Objects
  import opened Filters
  import opened Subscriptions
  import opened Dispatch
  import opened Messaging

  const MainThread: ContextId := 0
  const WorkerThread: ContextId := 1
  const MyMessageKey: TypeKey := 7

  /** A token-filtered registration on the sending thread: the matching send
      is delivered at once with the message sent, the other token is
      filtered out, and after `Unregister` nothing more arrives. */
  method TokenFilterScenario()
  {
    var objects := new ObjectTable();
    var loop := new EventLoop<int>();
    var bus := new Messenger();
    var r := objects.New(MainThread);
    var alpha, beta := MessageToken("alpha"), MessageToken("beta");
    bus.Register(MyMessageKey, Ptr(r), Closure(1), alpha);
    var sub := Subscription(MyMessageKey, alpha, Ptr(r), Closure(1));
    assert bus.subscriptions == [sub];
    assert Delivers(sub, MyMessageKey, alpha, objects.alive);
    assert Dispatched(bus.subscriptions, MyMessageKey, alpha, objects.alive) == [sub];
    assert Routed([sub], MainThread, objects.affinity) == [sub];
    bus.Send(MyMessageKey, 1, objects, loop, MainThread, alpha);
    assert loop.delivered == [Task(sub, 1)];

    assert !Delivers(sub, MyMessageKey, beta, objects.alive);
    assert Dispatched(bus.subscriptions, MyMessageKey, beta, objects.alive) == [];
    bus.Send(MyMessageKey, 2, objects, loop, MainThread, beta);
    assert loop.delivered == [Task(sub, 1)];

    bus.Unregister(Ptr(r), objects);
    assert bus.subscriptions == Filter([sub], NotOwnedBy(Ptr(r), objects.alive)) == [];
    bus.Send(MyMessageKey, 3, objects, loop, MainThread, alpha);
    assert loop.delivered == [Task(sub, 1)];
  }

  /** A receiver on a worker thread: the send is queued, not run; an
      `Unregister` right after it changes the list but not the queue, so a
      later send reaches nobody while the queued one still runs, once. */
  method CrossThreadRaceScenario()
  {
    var objects := new ObjectTable();
    var loop := new EventLoop<int>();
    var bus := new Messenger();
    var other := objects.New(WorkerThread);
    bus.RegisterMember(MyMessageKey, Ptr(other), 5);
    var sub := Subscription(MyMessageKey, NoToken(), Ptr(other), BoundMethod(Ptr(other), 5));
    assert bus.subscriptions == [sub];
    assert Dispatched(bus.subscriptions, MyMessageKey, NoToken(), objects.alive) == [sub];
    assert Routed([sub], MainThread, objects.affinity) == [];
    assert Routed([sub], WorkerThread, objects.affinity) == [sub];
    bus.Send(MyMessageKey, 3, objects, loop, MainThread);
    assert loop.delivered == [];
    assert loop.Queue(WorkerThread) == [Task(sub, 3)];

    bus.Unregister(Ptr(other), objects);
    assert bus.subscriptions == Filter([sub], NotOwnedBy(Ptr(other), objects.alive)) == [];
    assert loop.Queue(WorkerThread) == [Task(sub, 3)];
    bus.Send(MyMessageKey, 4, objects, loop, MainThread);
    assert loop.Queue(WorkerThread) == [Task(sub, 3)];

    var ran := loop.ProcessNext(WorkerThread, objects.alive);
    assert ran && loop.delivered == [Task(sub, 3)];
    assert loop.Queue(WorkerThread) == [];
    ran := loop.ProcessNext(WorkerThread, objects.alive);
    assert !ran && loop.delivered == [Task(sub, 3)];
  }

  /** A destroyed receiver's entry is skipped by a send before `Cleanup`,
      erased by it, and a send after it reaches nobody. */
  method CleanupScenario()
  {
    var objects := new ObjectTable();
    var loop := new EventLoop<int>();
    var bus := new Messenger();
    var ephemeral := objects.New(MainThread);
    bus.Register(MyMessageKey, Ptr(ephemeral), Closure(2));
    var sub := Subscription(MyMessageKey, NoToken(), Ptr(ephemeral), Closure(2));
    objects.Delete(ephemeral);
    assert IsNull(sub.receiver, objects.alive);
    assert Dispatched([sub], MyMessageKey, NoToken(), objects.alive) == [];
    bus.Send(MyMessageKey, 99, objects, loop, MainThread);
    assert loop.delivered == [];
    bus.Cleanup(objects);
    assert bus.subscriptions == Filter([sub], LiveIn(objects.alive)) == [];
    bus.Send(MyMessageKey, 100, objects, loop, MainThread);
    assert loop.delivered == [];
  }

  /** Two sends to a receiver on the sending thread run at once, in the
      order they were sent. */
  method SameThreadOrderScenario()
  {
    var objects := new ObjectTable();
    var loop := new EventLoop<int>();
    var bus := new Messenger();
    var r := objects.New(MainThread);
    bus.RegisterMember(MyMessageKey, Ptr(r), 4);
    var sub := Subscription(MyMessageKey, NoToken(), Ptr(r), BoundMethod(Ptr(r), 4));
    assert Dispatched([sub], MyMessageKey, NoToken(), objects.alive) == [sub];
    assert Routed([sub], MainThread, objects.affinity) == [sub];
    bus.Send(MyMessageKey, 0, objects, loop, MainThread);
    bus.Send(MyMessageKey, 1, objects, loop, MainThread);
    assert loop.delivered == [Task(sub, 0), Task(sub, 1)];
    assert loop.Queue(MainThread) == [];
  }

  /** The cross-thread variant: two sends to a receiver on another thread
      are queued, and then run, in the order they were sent. */
  method OrderScenario()
  {
    var objects := new ObjectTable();
    var loop := new EventLoop<int>();
    var bus := new Messenger();
    var r := objects.New(WorkerThread);
    bus.Register(MyMessageKey, Ptr(r), Closure(3));
    var sub := Subscription(MyMessageKey, NoToken(), Ptr(r), Closure(3));
    assert Dispatched([sub], MyMessageKey, NoToken(), objects.alive) == [sub];
    assert Routed([sub], MainThread, objects.affinity) == [];
    assert Routed([sub], WorkerThread, objects.affinity) == [sub];
    bus.Send(MyMessageKey, 0, objects, loop, MainThread);
    bus.Send(MyMessageKey, 1, objects, loop, MainThread);
    assert loop.Queue(WorkerThread) == [Task(sub, 0), Task(sub, 1)];
    var ran := loop.ProcessNext(WorkerThread, objects.alive);
    ran := loop.ProcessNext(WorkerThread, objects.alive);
    assert loop.delivered == [Task(sub, 0), Task(sub, 1)];
  }
}
