# MQTTX model

A Dafny model of the parts of MQTTX that hold state, interleave or compute: the message
forwarder over its object pool, the table of registered errors, the message pipeline of
filters, transformers and routes with the in-place JSON update, the session's reconnect
and persistence, and the growth and scaling arithmetic.

## How it is laid out

Where the Go code runs concurrently there is a state machine whose events are the atomic
steps of the goroutines; a schedule is any list of events, and a step that is not enabled
changes nothing, so a theorem about `Run(cfg, Init(), es)` for every `es` is a theorem about
every interleaving. Where the code changes objects in place there is a class with the same
fields, and each method is proved to do exactly what a function of its old state says.

- `forwarder_spec.dfy`, `forwarder_theorems.dfy`, `forwarder_order.dfy`, `forwarder_delivery.dfy`:
  the forwarder with immutable messages; any number of `handleMessage` calls, of `Start`s and
  `Stop`s, and one worker for each `Start` that goes through; what arrives against what is
  published and counted.
- `object_pool.dfy`, `ownership.dfy`, `forwarder.dfy`: the pooled message, the place of every
  message object, and the forwarder that fills, reads and resets objects in place, one method
  for each atomic step. `Execute` is the refinement for every schedule.
- `error_table.dfy`, `error_identity.dfy`, `error_size.dfy`, `recovery.dfy`, `recovery_machine.dfy`,
  `recovery_losses.dfy`: one registration as a relation on tables, which errors share an entry,
  what happens to the size, `RecoveryManager` over shared error objects, overlapping
  registrations, and what these can lose.
- `text.dfy`, `json_path.dfy`, `json_walk.dfy`: splitting, the algebra of path updates, and the
  walk of `setJsonValue` over map objects on the heap.
- `topic_match.dfy`, `pipeline.dfy`, `route_spec.dfy`, `route_panics.dfy`, `route.dfy`: topic
  filters, trees of filters and transformers, and `AdvancedRoute` alone and under interleaving.
- `backoff.dfy`, `session_spec.dfy`, `store.dfy`, `session.dfy`: the reconnect interval, the
  subscription registry mirrored into a store, and `Session` over `MemoryStore`.
- `metrics.dfy`: `formatBytes`. `wrappers.dfy`, `tally.dfy`: options, machine integers and sums.

## Where the code differs from what one would expect

Each point is a theorem of the project.

- A second `Start` after `Stop` leaves two workers, never more (`AtMostTwoWorkers`), and with
  two the publish order can differ from the order of acceptance, whatever the capacity and the
  topic map; with one it never does (`OrderExactly`, `OrderNeedsOneStart`).
- Overlapping registrations exceed the error limit: with T of them the table can hold
  limit - 1 + T errors and no more (`TableBound`, `BoundAttained`). With nothing recovering,
  new errors leave a table above its limit at its size (`NewErrorsKeepSize`), and only known
  errors bring it down: it comes back to its limit exactly when known errors other than the
  oldest are registered again as often as it has entries too many (`ComesBackExactly`,
  `SmallestReturn`, `BackToLimit`).
- At a full table a known error needs no room, but the oldest error is evicted for it all the
  same, before the known one is looked up (`RepeatLosesOldest`, `RegisteredSize`).
- Below the limit, an error registered again while the table holds it as recovered stays
  recovered; at or above the limit it is cleared and added anew as active
  (`RegisteredActive`).
- Errors share an entry exactly when session, category and text agree, as long as no session
  and no category has a colon (`KeysTellApart`); with one in a session name, different errors
  can share an entry (`ColonsCollide`).
- The JSON document `null` makes `setJsonValue` panic, and nothing else does
  (`SetJsonValue`, `JsonSetEffect`). A list of transformers panics exactly when a message
  reaches a JSON leaf with a payload that decodes to `null`, or a foreign leaf that panics
  (`PanicsExactly`). Such a message is counted as received and as nothing else
  (`NullIsUncounted`), so the law of the route's counters without a term for panics holds in
  all runs exactly when no message that can pass the filters meets transformers that panic on
  it (`PanicsAreUncounted`).
- An empty OR accepts everything, so flattening an OR that contains one changes its meaning
  exactly on the messages all other operands reject (`OrFlattens`); without empty ones it
  never does (`OrFlattensWithoutEmpties`).
- Appending a level `#` to a topic filter enlarges what it matches exactly when the filter does
  not already end in `#` (`HashEnlarges`, `WideningStrings`).
- The backoff bounds hold exactly when the initial interval is not above the cap and the factor
  is at least 1, neither of which `Validate` asks for (`BoundsExact`); they also need products
  inside the int64 range (`OverflowExact`) and fewer than 2^32 + 1 attempts, after which the
  counter wraps (`CounterWraps`).
- A stored topic is dropped from the store exactly when the session does not have it, its
  resubscription fails and another one succeeds (`FailedTopicForgotten`).
- A reconnect that resumes subscriptions replaces the user's handler of every regained topic
  by a logging one; only topics of the options get their own handler back
  (`ReconnectReplaces`).

## Model

| member | source | states |
|---|---|---|
| ForwarderTheorems.Conservation | forwarder.go:132-207 | in every interleaving: received = sent + failed + dropped because full + in the channel + held by calls + held by workers; dropped = because full + because stopped; the uint64 counters hold these modulo 2^64 |
| ForwarderTheorems.Quiescence | forwarder.go:132-207 | when no call and no worker has anything under way, calls = sent + failed + dropped + queued |
| ForwarderTheorems.PublishOrder | forwarder.go:154-195 | with one worker started, the publishes are a prefix of the accepted messages in order with the topic map applied; the rest is the worker's message and then the channel; the channel is within its capacity |
| ForwarderOrder.OrderExactly | forwarder.go:67-122 | for every capacity of at least 1 and every topic map, all runs with at most n workers keep the order of acceptance exactly when n <= 1 |
| ForwarderOrder.OrderNeedsOneStart | forwarder.go:67-94 | for each such configuration, a run with two workers in which the message accepted second is published first |
| ForwarderOrder.AtMostTwoWorkers | forwarder.go:71-112 | however often Start and Stop are called, at most two workers are started, and at most one until `stopped` is set |
| ForwarderTheorems.PublishProvenance | forwarder.go:180-207 | with any number of workers, each publish carries the mapped topic and the bytes of one accepted call, and no call is published twice |
| ForwarderDelivery.PublishedAsMapped | forwarder.go:132-195 | in every run each publish has the bytes of one arrival, the configured QoS, and the topic the map gives for that arrival's topic, or the topic itself |
| ForwarderDelivery.CallsAreArrivals | forwarder.go:132 | the calls of a run are the arrivals in order, with their topics and payloads |
| ForwarderDelivery.SettledAsReturned | forwarder.go:195-206 | in every run a message counts as sent only if its publish returned no error, as failed only if it returned one, never both |
| ForwarderDelivery.OneDelivered | forwarder.go:132-207 | an undisturbed message with a free worker is received, published as mapped, and sent exactly when the publish succeeds |
| ForwarderDelivery.AcceptedExactly | forwarder.go:154-157 | a send succeeds exactly when the channel has room, and appends the message with topic, payload and QoS |
| ForwarderDelivery.OneRefused | forwarder.go:154-162 | into a full channel: received and dropped, the channel unchanged |
| ForwarderDelivery.OneTurnedAway | forwarder.go:133-142 | after Stop: dropped and not received |
| ForwarderDelivery.StartRuns | forwarder.go:67-94 | an undisturbed Start sets running and adds one worker |
| ForwarderDelivery.StopStops | forwarder.go:97-122 | an undisturbed first Stop clears running, sets stopped and closes the stop channel |
| ForwarderDelivery.WorkersStayUntilStop | forwarder.go:166-171 | no worker ends before stopped is set and the stop channel closed |
| ForwarderTheorems.StopClosesOnce | forwarder.go:97-122 | `stopCh` is closed at most once, and exactly when `stopped` is set, outside the two assignments made under the lock |
| ForwarderTheorems.StopIsFinal | forwarder.go:132-142 | whatever runs after `stopped` is set, a later `Start` included: it stays set, and a call that had not checked it is never accepted, published or counted as received |
| ForwarderTheorems.Reachable | forwarder.go:67-207 | the invariant on lock, counters, queue, workers, logs and order holds after every schedule |
| ForwarderSpec.ControlKept | forwarder.go:67-122 | every step of Start and Stop keeps flags, once and channel consistent, and never resets `stopped` |
| ForwarderSpec.CountsKept | forwarder.go:132-207 | each counter, the channel length and the number of busy workers agree with the phases of the calls after every step |
| ForwarderSpec.CarriedKept | forwarder.go:147-177 | a message on its way is in one place, and is the message of its own call |
| ForwarderTheorems.LoggedKept | forwarder.go:154-195 | what was accepted and what was published are messages of pairwise different calls, unaltered |
| ForwarderTheorems.FifoKept | forwarder.go:154-177 | published, then in hand, then queued is the list of accepted messages, after every step |
| Forwarder.NewForwarder | forwarder.go:40-64 | which configurations are refused and with which error; capacity 100 when the buffer size is not positive |
| Forwarder.Forwarder.Execute | forwarder.go:67-207 | for every schedule the in-place pooled forwarder makes the same `PublishTo` calls and the same counters as the one with immutable messages |
| Forwarder.Forwarder.GetMessage | object_pool.go:72-76 | any free object or a new one, with nothing of an earlier use showing; every other object keeps what it shows, arrays stay distinct |
| Forwarder.Forwarder.PutMessage | object_pool.go:79-84 | the object is reset and free; no other object notices |
| Forwarder.Forwarder.Arrive | forwarder.go:132 | a new call begins; objects stay where they are |
| Forwarder.Forwarder.Check | forwarder.go:133-142 | reading the stop flag refines the machine's step |
| Forwarder.Forwarder.CountStopDrop | forwarder.go:138-142 | counting a message dropped because stopped |
| Forwarder.Forwarder.CountReceived | forwarder.go:144 | counting a received message |
| Forwarder.Forwarder.Take | forwarder.go:147 | the call holds the object taken or made, and every object is still in exactly one place |
| Forwarder.Forwarder.Acquire | forwarder.go:147 | taking an object from the pool keeps every object in exactly one place |
| Forwarder.Forwarder.Fill | forwarder.go:148-151 | filling the object in place makes it show the call's message and disturbs no other object |
| Forwarder.Forwarder.Offer | forwarder.go:154-157 | the non-blocking send hands the object to the channel, or leaves it with the call when full |
| Forwarder.Forwarder.CountFullDrop | forwarder.go:159 | counting a message dropped because the channel is full |
| Forwarder.Forwarder.ReleaseRefused | forwarder.go:161 | a refused object goes back to the pool |
| Forwarder.Forwarder.StartLock | forwarder.go:68-73 | Start takes the lock unless already running, and then says so |
| Forwarder.Forwarder.StartFail | forwarder.go:76-87 | a missing session or failed subscription gives up the lock and changes no flag |
| Forwarder.Forwarder.StartSpawn | forwarder.go:90 | a worker is added |
| Forwarder.Forwarder.StartDone | forwarder.go:92-93 | `running` is set as the lock is given up |
| Forwarder.Forwarder.StopLock | forwarder.go:98-103 | Stop goes on only when running and not stopped |
| Forwarder.Forwarder.StopMark | forwarder.go:101-109 | the flags change once |
| Forwarder.Forwarder.StopClose | forwarder.go:112 | the stop channel is closed |
| Forwarder.Forwarder.StopUnlock | forwarder.go:99 | Stop gives up the lock |
| Forwarder.Forwarder.Exit | forwarder.go:168-171 | a selecting worker may end once the stop channel is closed, holding no object |
| Forwarder.Forwarder.Receive | forwarder.go:172-174 | the head of the channel becomes the worker's object |
| Forwarder.Forwarder.PublishTo | forwarder.go:185-195 | what is published is read from the object at that moment: its topic through the topic map, its bytes, the configured QoS |
| Forwarder.Forwarder.Return | forwarder.go:195-197 | the publish ends with either outcome, the object still with the worker |
| Forwarder.Forwarder.Stamp | forwarder.go:197-204 | a failed publish settles the message, a successful one goes on to the counter |
| Forwarder.Forwarder.CountSent | forwarder.go:205 | counting a sent message settles it |
| Forwarder.Forwarder.Release | forwarder.go:182 | the deferred return of the object to the pool |
| Forwarder.Forwarder.PoolTake | object_pool.go:72-76 | another user takes a free object: no step of the forwarder |
| Forwarder.Forwarder.PoolUse | object_pool.go:33-47 | another user writing into its object changes nothing the forwarder shows |
| Forwarder.Forwarder.PoolPut | object_pool.go:79-84 | another user gives an object back |
| Forwarder.Forwarder.Perform | forwarder.go:67-207 | any one event of a schedule is refined by its method |
| Ownership.ExactlyOneReference | object_pool.go:72-84 | to every live message object exactly one reference exists over all calls, channel slots, workers, the pool and its other users; to no other object any |
| Ownership.ObjectRewritten | object_pool.go:24-47 | writing one object in place, or giving it a new array, leaves what all other objects show, since arrays are pairwise distinct |
| Ownership.AcquireTied | forwarder.go:147 | taking an object keeps every object in one place |
| Ownership.AcceptTied | forwarder.go:155 | a send moves the reference from the call to the channel |
| Ownership.ReceiveTied | forwarder.go:172 | a receive moves the reference from the channel to the worker |
| Ownership.SettleTied | forwarder.go:197-206 | settling a message keeps every object in one place |
| Ownership.FillMessage | forwarder.go:148-151 | filling an object in place, with or without reallocation, keeps all objects valid and distinct |
| Ownership.ResetMessage | object_pool.go:24-30 | resetting keeps the array and all other objects |
| ObjectPool.PooledMessage.Reset | object_pool.go:24-30 | empty content, same array and capacity |
| ObjectPool.PooledMessage.SetPayload | object_pool.go:33-47 | the content is the data; the array is reused when it fits, else has the next capacity |
| ObjectPool.GrowthBound | object_pool.go:33-47 | after any run with payloads of at most M bytes: capacity within max(1024, 3M/2), and k reallocations need 1024 * (4/3)^(k-1) < M, and even 1023 * (3/2)^(k-1) <= M - 2 |
| ObjectPool.CapNeverShrinks | object_pool.go:33-47 | neither capacity nor the number of reallocations ever goes down |
| ObjectPool.UseAll | object_pool.go:24-69 | a message object used over and over has the content and capacity the life function says |
| Recovery.RecoveryManager.RegisterError | error_recovery.go:84-169 | from any table, one above the limit included: nothing for a nil error; otherwise the error is in the table, which changed as one registration may; a new session, category and text get an entry of their own and no other entry that stays changes |
| Recovery.RecoveryManager.ClearRecoveredErrors | error_recovery.go:318-336 | exactly the unrecovered entries stay, the count is that of the removed ones, the counter follows |
| Recovery.RecoveryManager.FindOldest | error_recovery.go:96-107 | the loop finds a key with the least time |
| Recovery.RecoveryManager.Remove | error_recovery.go:111-112 | one entry goes, and the counter with it |
| Recovery.RecoveryManager.EvictOldest | error_recovery.go:94-118 | a table at or above the limit loses one oldest entry, any other none |
| Recovery.RecoveryManager.Insert | error_recovery.go:121-156 | a known error counts one retry more, a new one is added |
| Recovery.RecoveryManager.MarkErrorRecovered | error_recovery.go:293-315 | true exactly when the error is in the table, where it becomes recovered |
| Recovery.RecoveryManager.GetActiveErrors | error_recovery.go:278-290 | each unrecovered error object once and no other |
| ErrorTable.RegistrationEffect | error_recovery.go:84-169 | the error is present, the limit is kept, a removed entry was recovered or the oldest left after clearing, at most one unrecovered entry is lost and only from a full table, all others are untouched |
| ErrorIdentity.KeysTellApart | error_recovery.go:125 | for sessions and categories without a colon, two errors have one ID exactly when session, category and text agree |
| ErrorIdentity.ColonsCollide | error_recovery.go:125 | with a colon in a session name two different errors can have one ID |
| ErrorIdentity.HeldByKey | error_recovery.go:125-128 | the ID is in the table exactly when the error is |
| ErrorIdentity.KeyedKept | error_recovery.go:125-155 | a registration keeps every entry under the ID of its own error |
| ErrorIdentity.NewErrorAdded | error_recovery.go:139-156 | a new error gets an entry of its own with its session, category, text and time, the severity and strategy of its category, no retries, not recovered; other entries that stay are unchanged |
| ErrorIdentity.KnownErrorCounted | error_recovery.go:128-136 | below the limit a known error gains one retry and nothing else changes |
| ErrorIdentity.Classified | error_recovery.go:172-193 | severity and strategy of each category |
| ErrorTable.RegisteredActive | error_recovery.go:128-137 | the registered error is recovered on return exactly when a table below the limit already held it as recovered |
| ErrorSize.RegisteredSize | error_recovery.go:90-156 | the size after one registration, from any table; at the limit, nothing left to clear and times distinct, it shrinks exactly when the error is known and not the oldest |
| ErrorSize.MayShrink | error_recovery.go:101-107 | with equal times, a full table can shrink exactly when the error is known and some other one is among the oldest |
| ErrorSize.RepeatLosesOldest | error_recovery.go:94-137 | a known error that is not the oldest counts one retry more, and a full table loses an oldest error for it |
| ErrorSize.SmallestReturn | error_recovery.go:94-137 | two entries, limit 1: registering the newer one again leaves one entry, with no recovery |
| ErrorSize.NewErrorsKeepSize | error_recovery.go:90-156 | over any run of new errors without recoveries a table at or above its limit keeps its size |
| ErrorSize.ComesBackExactly | error_recovery.go:90-156 | over any run without recoveries a table comes down to its limit exactly when at least as many known errors other than the oldest are registered as it has entries too many |
| ErrorSize.StaysAboveLimit | error_recovery.go:90-156 | over any such run a table above its limit keeps its size exactly when no such error is registered |
| ErrorSize.ComesBack | error_recovery.go:90-156 | from every such table registering its newest error again and again leads back to the limit |
| ErrorTable.SlidingWindow | error_recovery.go:84-169 | over any run of distinct errors in time order without recoveries the table is exactly the last min(n, limit) |
| RecoveryMachine.TableBound | error_recovery.go:84-169 | with at most T overlapping registrations the table never exceeds limit - 1 + T, and the counter is exact whenever the lock is free |
| RecoveryMachine.BoundAttained | error_recovery.go:90-121 | for every limit and T >= 1 some run reaches limit - 1 + T |
| RecoveryMachine.BackToLimit | error_recovery.go:84-169 | a run from the start reaches limit - 1 + T, and registrations of one known error alone bring it back to the limit |
| RecoveryLosses.LossIsEviction | error_recovery.go:84-169 | in every interleaving an unrecovered error is lost only to the one eviction of a registration, from a full table, as an oldest of that moment |
| RecoveryLosses.LossesBounded | error_recovery.go:84-169 | no run loses more errors than registrations are begun, less those that may still evict |
| RecoveryLosses.MarkRecovers | error_recovery.go:293-315 | marking under the lock makes just that error recovered |
| RecoveryMachine.LoneRegistration | error_recovery.go:84-169 | a registration nothing overlaps does to the table what the sequential one does |
| RecoveryMachine.CheckKeeps | error_recovery.go:90 | the check outside the lock keeps the invariant although the counter may lag |
| RecoveryMachine.InvStep | error_recovery.go:84-169 | every step, marking and clearing included, keeps lock, counter and claims consistent |
| JsonWalk.SetJsonValue | transformer.go:227-262 | panics exactly on a nil root; otherwise the document in the maps afterwards is the pure path update of the one before: for a dotted path of parts, reading along the parts gives the value and diverging reads give what they gave; only new maps are added |
| JsonWalk.WalkDown | transformer.go:234-256 | the loop stops at the map the steps lead to, and what it created or replaced on the way is not visible to the write that follows |
| JsonWalk.MakeMap | transformer.go:242-253 | a new map is installed under the key, and the write that follows does not see the difference |
| JsonWalk.Enter | transformer.go:236-255 | one turn: an existing map is entered, a missing or other node is replaced by a new map |
| JsonWalk.Assign | transformer.go:244 | one assignment to one map object replaces exactly the sub-document rooted there |
| JsonPath.ReadAfterSet | transformer.go:227-262 | a read at or below the path sees the new value, above it an object, on a diverging path what was there before |
| JsonPath.LaterWriteWins | transformer.go:259-261 | a write to a path or a prefix of it erases an earlier one |
| JsonPath.CommuteIffDiverge | transformer.go:227-262 | two writes can be exchanged on every document exactly when neither path is a prefix of the other |
| JsonPath.DoubledDot | transformer.go:236-239 | a doubled dot anywhere in a path changes nothing |
| JsonPath.PathVisits | transformer.go:228-259 | a path string of dotted parts visits exactly these parts, empty ones left out except in last place |
| JsonPath.PathUpdate | transformer.go:227-262 | updating with such a string: a read along the parts gives the value, diverging reads stay |
| Text.JoinSplit | transformer.go:228 | joining what was split gives the string back |
| Text.SplitJoin | filter.go:203-204 | splitting what was joined gives the levels back |
| Pipeline.JsonSetEffect | transformer.go:139-166 | the JSON transformer panics exactly on `null` and fails exactly when decoding or encoding does; a changed payload decodes to the new value along the parts of the path and the old one on diverging paths; the rest of the message is kept |
| Pipeline.Match | filter.go:47-167 | the loops with early return answer what the filter tree means |
| Pipeline.FilterLeaves | filter.go:47-109 | a topic filter spells the topic from its pattern, a payload filter finds its text in the payload, both reject a nil message |
| Pipeline.CompositeMeaning | filter.go:145-167 | AND is all, OR is some, no operands is everything |
| Pipeline.AndFlattens | filter.go:145-167 | nested AND filters equal their flattening |
| Pipeline.OrFlattens | filter.go:145-167 | nested OR filters equal their flattening on a message exactly when no empty OR is dissolved among operands that all reject it |
| Pipeline.OrFlattensWithoutEmpties | filter.go:145-167 | without empty inner ORs a nested OR equals its flattening on every message |
| Pipeline.PanicsExactly | transformer.go:139-209 | nested or not, a list panics exactly when the message reaches a JSON leaf with a non-empty payload decoding to `null`, or a foreign leaf that panics |
| Pipeline.Transform | transformer.go:50-209 | the transformer's result is the meaning of its tree |
| Pipeline.TransformChain | transformer.go:189-209 | the loop gives the left-to-right composition, stopping at the first drop, error or panic |
| Pipeline.ChainStep | transformer.go:197-206 | a chain hands on what its first transformer produced and ends with its drop, error or panic |
| Pipeline.RewriteLeaf | transformer.go:50-69 | the exact rewrite changes the topic of just the messages on its pattern and nothing else |
| Pipeline.PayloadLeaf | transformer.go:92-113 | bytes replace the payload, nil drops, an error fails with its cause; a nil function changes nothing |
| Pipeline.ApplyAllAppend | transformer.go:197-206 | a chain of two parts is one part and then, if it produced a message, the other |
| Pipeline.ChainFlattens | transformer.go:189-209 | a chain of chains acts as its flattening: same message, drop or panic, or an error with the same root cause, after the same number of leaf calls |
| TopicMatching.TopicMatch | filter.go:192-233 | the loop with its shortcuts decides the recursive level-by-level definition, on all strings |
| TopicMatching.LevelMatchByIndex | filter.go:206-232 | what each exit of the loop decides |
| TopicMatching.WildcardRule | filter.go:192-233 | a filter matches exactly the topics its levels can spell: `+` one level, a last `#` any number, anything else itself (section 4.7.1 of MQTT Version 5.0) |
| TopicMatching.PlusEnlarges | filter.go:217-232 | replacing a level by `+` enlarges the match set exactly when the level is not a trailing `#` |
| TopicMatching.HashEnlarges | filter.go:206-216 | replacing a suffix by `#` enlarges the match set exactly when it does not append to a trailing `#` |
| TopicMatching.WideningStrings | filter.go:192-233 | the same two equivalences for filters and topics written as strings |
| RouteSpec.Accounting | route_advanced.go:119-174 | in every interleaving: received = filtered out + erased + errors + handed over + dropped + consumed + in the channel + under way + panicked, and bytes are those of the original payloads |
| RoutePanics.PanicsAreUncounted | route_advanced.go:119-174 | the law without the panics holds in every run with given additions and a kind of messages exactly when no message of the kind can be accepted by the filters of some time and panic in the transformers of some time |
| RoutePanics.CallPanicsExactly | route_advanced.go:141-142 | a call past the filters ends in a panic exactly when the transformers of that moment panic on its message |
| RoutePanics.NullIsUncounted | route_advanced.go:119-142 | the smallest failing run: one JSON transformer, one `null`: received is 1 and every other term 0 |
| RouteSpec.DeliveredIsGenuine | route_advanced.go:70-174 | what is handed over, waits or was consumed is its own message, accepted by the filters and sent through the transformers the lists had when the call ran them |
| RouteSpec.PassedExactly | route_advanced.go:70-86 | a call passes exactly when all filters of that moment accept its message |
| RouteSpec.OutcomeExactly | route_advanced.go:141-155 | an error exactly when the transformers fail, erased exactly when they drop, ready with what they make exactly when they produce |
| RouteSpec.DispatchedExactly | route_advanced.go:157-173 | to the handler exactly when there is one, else to the end of the channel exactly when it has room |
| RouteSpec.CountedExactly | route_advanced.go:131-167 | which counter each step raises and by how much |
| RouteSpec.ConsumedExactly | route_advanced.go:163-164 | the consumer takes the head of the channel |
| RoutePanics.OriginalsAreDelivered | route_advanced.go:119-128 | the calls of a run are about the delivered messages, in order |
| RouteSpec.InvStep | route_advanced.go:56-174 | every step, additions to the lists included, keeps counters, channel and calls consistent |
| Route.AdvancedRoute.ProcessMessage | route_advanced.go:119-174 | one call does what its eight steps do in the machine; spelled out: errors rise exactly when the filters accept and the transformers fail, drops exactly when the channel is full, and who gets what |
| Route.AloneIsRun | route_advanced.go:119-174 | the eight steps of an undisturbed call amount to one formula on the state |
| Route.AdvancedRoute.FilterMessage | route_advanced.go:70-86 | accepted exactly when all filters accept |
| Route.AdvancedRoute.TransformMessage | route_advanced.go:89-113 | the composition of the transformers |
| Route.AdvancedRoute.AddFilter | route_advanced.go:56-60 | the list grows; calls under way are unaffected |
| Route.AdvancedRoute.AddTransformer | route_advanced.go:63-67 | the list grows; calls under way are unaffected |
| Backoff.AfterAttempt | session.go:371-401 | for every attempt k up to 2^32: the interval is in [Initial, Max], at most Initial * f^(k-1), and at least the smaller of Max and that less 1 + f + ... + f^(k-2) |
| Backoff.Truncates | session.go:392 | the conversion cuts toward zero inside the int64 range |
| Backoff.GeoClosed | session.go:390-392 | that sum is (f^(k-1) - 1) / (f - 1) for f > 1 |
| Backoff.NeverDecreases | session.go:384-401 | the interval never decreases within an outage and stays at the cap |
| Backoff.ConnectRestarts | session.go:243-248 | after a successful connect the intervals are those of a new session |
| Backoff.CounterWraps | session.go:385-389 | attempt 2^32 + 1 waits the initial interval again |
| Backoff.BoundsExact | options.go:80-88 | with products in range and any positive factor, all intervals are in [Initial, Max] exactly when Initial <= Max and the factor is at least 1 |
| Backoff.OverflowExact | session.go:392-399 | a later attempt is in bounds whatever an out-of-range conversion gives exactly when the product is below 2^63 |
| Session.Session.HandleReconnecting | session.go:371-401 | counter and interval change as one attempt: the initial interval first, then the truncated product, capped |
| Session.Session.constructor | session.go:75-85 | an empty registry, and a clock at the initial interval |
| Session.Session.HandleConnect | session.go:239-277 | the clock is reset, the state restored when configured and only then, and the options' topics are subscribed |
| Session.Session.Subscribe | session.go:496-568 | succeeds exactly when one of three tries is connected and accepted; then the handler is registered and the topics stored, otherwise nothing changes; the error is that of the last try |
| Session.Session.Unsubscribe | session.go:571-601 | on success exactly the given topics leave the registry, the other handlers stay, and the stored topics are the same set; otherwise nothing changes |
| Session.Session.SaveState | session.go:642-690 | a new object with exactly the registry's topics, the sequence number, the client ID and the expiry: a day, or the Redis time to live, from now |
| Session.Session.RestoreState | session.go:693-758 | nothing without a stored state; after expiry it is deleted and nothing restored; otherwise the sequence number and, when connected, one Subscribe for each loaded topic while the store changes under the loop |
| Session.Session.HandleConnectionLost | session.go:335-345 | the stored object gets the time and is stored again; topics and sequence stay |
| Session.Session.Disconnect | session.go:604-629 | the final state is saved when connected |
| Session.Restart | session.go:642-758 | on the heap: save, make a new session over the same store, connect; the sequence number is back, and so are the topics, besides those of the new options that were accepted |
| Session.SubscribedTopics | session.go:264-277 | subscribing the topics of the options adds exactly those accepted and keeps the mirror |
| Session.OwnHandler | session.go:264-277 | a topic of the options has the handler of its last accepted subscription there |
| Session.NamesAreTopics | session.go:738-740 | the restore loop walks exactly the stored topics |
| SessionSpec.ResubscribedEffect | session.go:737-757 | the loop ends with old topics and regained ones; the store lists exactly these once any was regained |
| SessionSpec.FailedTopicForgotten | session.go:746-757 | a stored topic is lost from the store exactly when the session did not have it, it was not regained, and another was |
| SessionSpec.RestoreReplaces | session.go:736-757 | a restore of a mirrored session keeps its topics and turns the handler of every regained one into the logging handler |
| Session.Session.ReconnectReplaces | session.go:256-277 | the same of a whole reconnect, for every topic the options do not list |
| SessionSpec.MirrorKept | session.go:496-758 | every operation on a persistent session keeps the stored topics equal to the registry's keys |
| SessionSpec.MirrorRun | session.go:496-758 | so does every run of operations one at a time |
| SessionSpec.MirrorMade | session.go:546-558 | a successful Subscribe or Unsubscribe makes them equal, whatever was stored |
| SessionSpec.RoundTrip | session.go:642-758 | saving and restoring before expiry gives back topics and sequence number |
| Store.MemoryStore.SaveState | store.go:98-104 | the pointer is stored under the name |
| Store.MemoryStore.LoadState | store.go:107-116 | the very object that was saved, or nil |
| Store.MemoryStore.DeleteState | store.go:119-125 | the name is removed |
| Metrics.FormatBytes | metrics.go:131-142 | from 1024 on: the divisor is 1024^(exp+1) without wrap-around, 1 <= bytes / divisor < 1024, and exp indexes "KMGTPE" |
| Metrics.ScaleIsUnique | metrics.go:136-141 | no other power of 1024 scales the number into that range |

## Left out

- The paho, Redis and file-store clients, TLS and the certificate watcher: outcomes of connect, publish and subscribe are parameters.
- `sync.Pool` internals: a get takes any free object or a new one, and other users may take, write and return objects; a collected object counts as taken.
- Asynchronous use of a payload after `PublishTo` has returned: the publish is one synchronous step.
- Steps that touch only an object one goroutine holds (filling, resetting) are single steps.
- What `Start` subscribes and `Stop` unsubscribes: only whether `Start` fails matters to the machine.
- `lastSent`, `lastError`, `LastMessageTime` and other times noted for display.
- `Forwarder.GetMetrics` only reads counters; `Clone` and the buffer, timer and metrics pools are used by no operation modelled here.
- Capacity arithmetic in `SetPayload` is on unbounded integers, and the runtime may give no larger array than asked for.
- ErrorTable.SlidingWindow: assumes distinct times, as equal times let the map order choose the victim.
- `executeRecovery` and its delay: it changes only the retry count, which the table bound does not depend on.
- RecoveryMachine.TableBound: registrations are bounded by T and limit - 1 + T fits an int32; beyond it the counter's wrap-around is not followed.
- Recovery.RecoveryManager.RegisterError: one operation at a time; overlapping ones are the machine of `recovery_machine.dfy`.
- ErrorIdentity.NewErrorAdded: assumes sessions and categories without a colon; with one, errors can share an ID as in the code.
- Regular-expression branches and JSON encoding are functions the model is given; only `JsonSetEffect` assumes that decoding undoes encoding.
- A map passed as the new JSON value is not shared with the document or between messages.
- Topics that start with `$` (section 4.7.2 of MQTT Version 5.0): the code has no case for them.
- `GetDescription` of filters and transformers: output only.
- Custom filters and transformers that keep state, panics inside a filter, and handlers that panic in `processMessage`.
- `Route.Stop` while deliveries are under way: the route stays open.
- Backoff.AfterAttempt: the product is an exact real number, not a `float64`.
- Session.Session.Subscribe: waiting between tries is not modelled; other callbacks may change the status between them.
- Session.Restart: operations on sessions are one at a time and store writes succeed.
- SessionSpec.RoundTrip: covers topics and sequence number; the saved QoS is always 0 and the handlers are replaced.
- The stored messages, which `saveState` always leaves empty, and the rest of `restoreState` that would deliver them.
- Metrics.FormatBytes: the two decimals and the float division of the printed text.
- Snapshots, exporters, events, loggers, option setters, the session manager: configuration and output.
