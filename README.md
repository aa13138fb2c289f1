# Messenger: a verified model of the subscription registry and send filter

`Messenger` is an in-process publish/subscribe bus for Qt programs. A
receiver registers a callback for one message type. It may give a token;
the empty token is a wildcard. The bus keeps one insertion-ordered list of
subscriptions `{type key, token, weak receiver, callback}`. `Send` walks
that list in order. It skips entries of another type, entries whose token
does not match, and entries whose receiver has been destroyed. It hands
each remaining entry to `QMetaObject::invokeMethod(..., Qt::AutoConnection)`:
the callback runs at once if the receiver lives on the sending thread, and
is queued to the receiver's thread otherwise. Receivers leave by
`Unregister(receiver)`, by `Unregister<T>(receiver, token)`, or lazily
through `Cleanup()`, which prunes entries of destroyed receivers.

The Dafny project models that core:

- `tokens.dfy` (module `Tokens`): `MessageToken`, its equality, `isEmpty`,
  and the send-time token rule.
- `objects.dfy` (module `Objects`): object identities, the live set, and
  each object's owning thread. `Data` is `QPointer::data()`: the pointer
  while its object lives, null afterwards.
- `filters.dfy` (module `Filters`): an order-preserving `Filter` on
  sequences and its lemmas. Every erase loop and the send filter are
  instances of it.
- `subscriptions.dfy` (module `Subscriptions`): the `Subscription` record.
  It gives each registry operation as a function on lists (`AfterUnregister`,
  `AfterUnregisterType`, `AfterCleanup`, `Dispatched`), plus the lemmas
  about them.
- `dispatch.dfy` (module `Dispatch`): the queued task `[sub, payload]`.
  AutoConnection is reduced to one rule (`Post`): run now when the target
  thread is the caller's, otherwise append to the target thread's FIFO
  queue. `EventLoop` holds the log of callbacks that have run and one queue
  per thread.
- `messaging.dfy` (module `Messaging`): class `Messenger`. Its
  `subscriptions: seq<Subscription>` field is the `QList`. The three
  unregistration methods are erase-in-place `while` loops, as in the
  source. `InternalSend` is the send loop. Each is proved against the
  functions of `Subscriptions` and `Dispatch`.
- `scenarios.dfy` (module `Scenarios`): client methods written against the
  contracts alone. They replay the token-filter, cross-thread race,
  cleanup and ordering test cases; the ordering test is replayed on the
  sending thread and in a cross-thread variant.

A type key (`typeid(T).hash_code()`) is an opaque `nat` passed in by the
caller. Keys of different types are not assumed to differ. The payload is a
generic value `P`. The caller's thread (`QThread::currentThread()`) is a
parameter `current`.

Three behaviours of the code are worth stating outright:

- `Register` with a null receiver is accepted and appends an entry
  (Messenger.cpp:30). A send never dispatches it, because its `QPointer` is
  null (Messenger.cpp:38).
- There is no locking and no snapshot. A send reads the live list.
- `Unregister<T>(nullptr)` has no null guard. It erases the dead entries of
  type `T` (`UnregisterTypeNullErasesDead`), while `Unregister(nullptr)`
  erases nothing.

## Model

| member | source | states |
|---|---|---|
| Tokens.NoToken | Messenger.h:28 | the default-constructed token is empty, and it is the only empty token |
| Tokens.MessageToken.IsEmpty | Messenger.h:31 | a token is empty exactly when it is the default-constructed token `MessageToken()` |
| Tokens.MessageToken.Equals | Messenger.h:29 | comparing the strings decides value equality of the tokens |
| Tokens.MessageToken.Differs | Messenger.h:30 | `!=` holds exactly when the tokens are different values |
| Tokens.TokenMatch | Messenger.cpp:36 | a send's token matches an entry's iff either is the default token or the two are equal |
| Tokens.TokenMatchTable | Messenger.cpp:36 | a wildcard on either side matches; two specific tokens match iff they are equal; the rule is symmetric |
| Objects.Data | Messenger.h:99 | a weak pointer reads as the stored pointer exactly while that object is alive, and as null otherwise |
| Objects.IsNull | Messenger.cpp:21 | `isNull()` holds exactly when the stored pointer is null or its object has been destroyed |
| Objects.ObjectTable.constructor | tests/tst_Messenger.cpp:106 | the starting state of the object-lifetime stand-in into which receivers such as this one are created: nothing is alive and no thread owns an object |
| Objects.ObjectTable.New | tests/tst_Messenger.cpp:106 | a new object is alive, has a fresh identity and is owned by the given thread |
| Objects.ObjectTable.Delete | tests/tst_Messenger.cpp:108 | destroying an object only removes it from the live set |
| Subscriptions.AfterUnregister | Messenger.cpp:8-17 | `Unregister(r)` never lengthens the list; each entry left was in it, and unless `r` is null its live receiver is not `r` |
| Subscriptions.AfterUnregisterType | Messenger.h:80-87 | `Unregister<T>(r, tok)` never lengthens the list; no entry left has live receiver `r`, type `T` and (when `tok` is not the default) token `tok` |
| Subscriptions.AfterCleanup | Messenger.cpp:19-27 | `Cleanup` never lengthens the list; each entry left was in it and has a live receiver |
| Subscriptions.Dispatched | Messenger.cpp:34-38 | each entry a send dispatches is in the list, has the sent type key, matches the token rule and has a live receiver; there are no more dispatches than entries |
| Subscriptions.RegisterThenSend | Messenger.cpp:29-31 | appending an entry adds it once, at the end, to the dispatches of every send it matches, and to no other |
| Subscriptions.DuplicateRegistration | tests/tst_Messenger.cpp:255-263 | registering the same entry twice gives its receiver exactly two more deliveries per matching send |
| Subscriptions.DispatchedMembership | Messenger.cpp:34-38 | an entry is dispatched iff it is in the list, has the sent type key, matches the token rule, and its receiver is alive |
| Subscriptions.DispatchedCount | Messenger.cpp:34-42 | one dispatch per entry: a matching entry stored k times is dispatched k times, any other entry never |
| Subscriptions.DispatchedInOrder | Messenger.cpp:34 | dispatches follow list order |
| Subscriptions.SendUnknownType | tests/tst_Messenger.cpp:233-241 | a send of a type that no entry carries dispatches nothing |
| Subscriptions.SendUnmatchedToken | Messenger.cpp:35-37 | a specific token that matches no entry of the type dispatches nothing |
| Subscriptions.Broadcast | tests/tst_Messenger.cpp:373-389 | when all entries are live wildcard entries of the type, every entry is dispatched, and pairwise distinct receivers are each reached exactly once |
| Subscriptions.DeliveryCountCases | tests/tst_Messenger.cpp:385-386 | a receiver named by no entry is reached no time, one named by every entry once per entry, one named by exactly one entry once |
| Subscriptions.UnregisterMembership | Messenger.cpp:8-17 | `Unregister(r)` keeps an entry iff `r` is null or the entry's live receiver is not `r`, whatever its type or token |
| Subscriptions.UnregisterCount | Messenger.cpp:10-16 | every entry that is kept keeps all its copies; erased entries keep none |
| Subscriptions.UnregisterNullIsNoop | Messenger.cpp:9 | `Unregister(nullptr)` leaves the list unchanged |
| Subscriptions.UnregisterIdempotent | tests/tst_Messenger.cpp:265-274 | unregistering twice leaves the same list as unregistering once |
| Subscriptions.UnregisterKeepsOrder | Messenger.cpp:10-16 | the remaining entries are a subsequence of the original list, in their original order |
| Subscriptions.UnregisterStopsDelivery | tests/tst_Messenger.cpp:71-84 | after `Unregister(r)`, no send of any type or token reaches `r` |
| Subscriptions.UnregisterTypeMembership | Messenger.h:78-88 | `Unregister<T>(r, tok)` erases exactly the entries with live receiver `r`, type `T`, and (if `tok` is not empty) stored token equal to `tok` |
| Subscriptions.UnregisterTypeWildcard | tests/tst_Messenger.cpp:276-287 | with the empty token every `(r, T)` entry is erased, and no later send of `T` reaches `r`, whatever its token |
| Subscriptions.UnregisterTypeExactToken | tests/tst_Messenger.cpp:86-102 | with a specific token, a same-receiver same-type entry with another token survives with all copies and still receives sends of its token |
| Subscriptions.UnregisterTypeKeepsOthers | Messenger.h:80-87 | entries of other receivers or other types survive as exactly the same sequence; the result is a subsequence of the input |
| Subscriptions.UnregisterTypeIdempotent | Messenger.h:80-87 | applying `Unregister<T>(r, tok)` twice equals applying it once |
| Subscriptions.UnregisterTypeNullErasesDead | Messenger.h:81 | with a null receiver and the empty token, dead entries of `T` are erased, unlike with `Unregister(nullptr)` |
| Subscriptions.CleanupMembership | Messenger.cpp:19-27 | `Cleanup` keeps an entry (with all its copies) iff its receiver is alive |
| Subscriptions.CleanupNoDeadIsNoop | tests/tst_Messenger.cpp:104-116 | with no dead entry, `Cleanup` changes nothing |
| Subscriptions.CleanupIdempotentAndOrdered | Messenger.cpp:20-26 | `Cleanup` is idempotent and keeps live entries in order |
| Subscriptions.CleanupInvisibleToSend | Messenger.cpp:38 | pruning dead entries never changes what a send dispatches |
| Dispatch.Tasks | Messenger.cpp:40-42 | one task per dispatched entry, in order, each holding a copy of that entry and of the sent payload |
| Dispatch.RoutedToOneContext | Messenger.cpp:40-42 | each dispatched entry goes to its receiver's thread, and to no other thread |
| Dispatch.Post | Messenger.cpp:40-42 | AutoConnection: run at once on the caller's own thread, otherwise append to the end of the target thread's queue; other queues unchanged |
| Dispatch.PostAll | Messenger.cpp:34-43 | posting a send's tasks only extends the delivered log, by at most one task per entry, and leaves the caller's own queue unchanged |
| Dispatch.PostAllDelivered | Messenger.cpp:34-43 | after a send, the entries on the caller's thread have run, in list order, after earlier deliveries |
| Dispatch.PostAllQueue | Messenger.cpp:34-43 | after a send, every other thread's queue has gained its entries, in list order; the caller's queue is unchanged |
| Dispatch.PostAllOutcome | Messenger.cpp:34-43 | the two statements above for every thread at once |
| Dispatch.EventLoop.constructor | Messenger.cpp:40-42 | initially nothing has run and every queue is empty |
| Dispatch.EventLoop.Invoke | Messenger.cpp:40-42 | the new delivery state is `Post` of the old one |
| Dispatch.EventLoop.ProcessNext | tests/tst_Messenger.cpp:336-340 | a thread runs its oldest queued task, or drops it if the receiver was destroyed; FIFO; other queues unchanged |
| Messaging.Messenger.constructor | Messenger.h:105 | a new bus has no subscriptions |
| Messaging.Messenger.InternalRegister | Messenger.cpp:29-31 | the list becomes the old list with exactly one entry appended |
| Messaging.Messenger.Register | Messenger.h:54-60 | forwards the type key, token (wildcard by default), receiver and callback to one `InternalRegister` |
| Messaging.Messenger.RegisterMember | Messenger.h:44-49 | registers a callback bound to a member function of the receiver, through `Register` |
| Messaging.Messenger.Unregister | Messenger.cpp:8-17 | the erase loop leaves exactly `AfterUnregister` of the old list |
| Messaging.Messenger.UnregisterType | Messenger.h:77-88 | the erase loop leaves exactly `AfterUnregisterType` of the old list |
| Messaging.Messenger.Cleanup | Messenger.cpp:19-27 | the erase loop leaves exactly `AfterCleanup` of the old list |
| Messaging.Messenger.InternalSend | Messenger.cpp:33-44 | the list is not changed; the delivery state becomes `PostAll` of the dispatched entries: the caller's entries have run in order, the others are queued in order on their receivers' threads |
| Messaging.Messenger.Send | Messenger.h:65-70 | forwards the type key, token (wildcard by default) and the message itself to `InternalSend`, so each matching callback gets a copy of the sent message |

## Left out

- `Messenger::Default()` (Messenger.cpp:3-6): the process-wide singleton. The model uses an explicit instance.
- `QVariant` boxing and unboxing, `DECLARE_MESSAGE_TYPE` and `qRegisterMetaType` (Messenger.h:56-57, 67-68, 116-125). These are Qt type erasure. The payload is a generic value passed through unchanged.
- `typeid(T).hash_code()`: an opaque key supplied by the caller. Nothing is claimed about collisions.
- Concurrency: data races on the unsynchronised list, threads sending at the same time, and Qt's real event loop. Thread affinity is a map from objects to thread ids, `moveToThread` is not modelled, and a thread's event loop is the `ProcessNext` step.
- `EventLoop.ProcessNext`: that a posted event to a destroyed object is dropped is stated as a liveness check on the task's receiver. It stands in for Qt's removal of a deleted object's pending events.
- Callbacks are opaque ids; what a callback does is not modelled. So re-entrant `Unregister` from inside a callback (and the iterator invalidation it would cause during the send loop) is not modelled. The self-unregistering receiver test therefore has no counterpart.
- Reuse of a destroyed object's address by a new object: identities are never reused.
