# A verified model of the Fabric chaincode shim

The shim connects a chaincode program to a Hyperledger Fabric peer over one bidirectional
message stream. This project models its core in Dafny and proves what that core promises:

* **The multiplexed protocol** (`Wire`, `Links`, `Handshake`, `Protocol`, `Projection`, `Flow`,
  `Safety`, `Atomic`, `Terminals`, `ReadLoop`, `IssueOrder`, `Accounts`, `Limits`, `Refusals`,
  `Progress`, `Returns`, `Transactions`). One stream carries any number of transactions, each with any number of concurrent stub calls. `Protocol` is
  a labelled transition system in which every atomic action is an event of its own: taking the
  gate, checking and registering the waiter, enqueueing, receiving, dropping the entry, reading a
  message, the peer draining and answering, cancellation, panic, loss of the stream and of the
  queue. The safety statements hold of every reachable state, for every interleaving. The handle,
  the read loop and the two ends of a transaction's task are also given as code that updates shared
  state in place (`Links.PeerLink`, `Handshake.RunConnection`, `Transactions`), proved against the
  functions the transition system is built from.
* **Paged query iterators** (`Paging`). The batch buffer as a class, against a peer that cuts its
  answer in any way it likes.
* **Composite keys** (`CompositeKeys`, `Utf8`). Printer, parser, and the range that a partial key
  selects, in byte order after UTF-8 encoding (section 3 of RFC 3629).
* **Generated contract code** (`Schemas`, `Dispatch`). Registration of schemas over a possibly
  cyclic graph of types, the metadata document, and the routing of calls.
* **The asset-transfer contract** (`Assets`) as a machine over the ledger that refines a finite map.

## What the environment is assumed to do

The code relies on these facts without checking them; they are guards of the peer's events or
parameters of the model:

* the peer starts each `(channel, txid)` at most once per connection (`Protocol.Enabled`, case
  `PeerSend`);
* it answers each request once, in order within a transaction and in any order across
  transactions, and invents no replies (cases `PeerSend` and `PeerAnswer`); the statements of
  `ReadLoop` need neither this nor the line above;
* no stub or iterator is used after its handler has ended;
* the stub's gate is fair: calls enter it in the order they were issued;
* the capacity of the outbound queue is a parameter (64 in `fabric-shim/src/server.rs:148`);
* JSON and record encodings are decoded back to what was encoded, and no JSON encoding is empty;
  valid UTF-8 is decoded faithfully where an argument is read as text.

Every request carries a `call` number in the model, and the state keeps histories (`taken`,
`ledger`, `returned`, `calls`, `link.sent`). No decision of the shim reads them; the statements
below are about them. A handler makes at most `work` calls, for any `work`.

## Where the code does less than its comments say

* `fabric-shim/src/error.rs:16-18` reserves `ConnectionClosed` for a stream that ends while a
  request is in flight. `fabric-shim/src/handler.rs:160-167` returns without waking anybody, and a
  request lost with the queue wakes nobody either. `Returns.ReturnsIffOnItsWay` says of every sent
  call, whether the loop has stopped or not, exactly when it can come back; `Returns.LostForever`
  that the others never do; and `Returns.StrandedWaiterExists` and `Returns.LostRequestExists`
  construct one of each kind, the second with the loop still reading.
* `fabric-shim/src/handler.rs:28` says that the stub guarantees one request in flight, so that the
  refusal in lines 40 to 44 cannot happen. `Refusals.RefusedIffDeserted` says exactly when it does:
  when a caller of the same transaction gave up on a registered call, waiting for room or already
  sent, and no reply of that transaction was routed since. An ordinary timeout on a sent call is
  enough (`Refusals.TimedOutCallBlocksTheNext`). If the caller gave up while the call waited for
  room, the transaction is refused until its handler ends (`Limits.CancelWedges`,
  `Limits.WedgedUntilTheEnd`, `Limits.CancelledCallBlocksTheNext`). All other cancellations are
  harmless (`Refusals.LoyalCallsAreNeverRefused`).
* Two structs with the same name share one schema entry, and of two fields with the same JSON name
  only the last becomes a property. Without such fields a struct is lost exactly when two
  same-named ones differ (`Schemas.FaithfulIffSameSchemas`); with them the same holds if what the
  replaced fields mention is reached in other ways (`Schemas.FaithfulWhenHiddenSolid`).
  `Schemas.CollisionExample` and `Schemas.HiddenFieldLosesStruct` give cases.
* A wire name that contains a colon is listed in the metadata and can never be called; the same
  goes for a second method with an earlier method's name (`Dispatch.ListedIsCallableIff`,
  `Dispatch.ColonNameIsNeverReached`).
* `transfer_asset` writes under the stored record's own id. `Assets.TransferHitsItsKeyIff` says when
  that is the requested key, `Assets.StrayTransfer` gives a ledger on which it is not, and
  `Assets.TransferChangesOnlyTheOwner` shows that the contract's own history always makes it so.

## Model

| member | source | states |
|---|---|---|
| Links.PeerLink.constructor | fabric-shim/src/handler.rs:136-139 | a new link has no waiters and an empty, open queue |
| Links.PeerLink.TryRegister | fabric-shim/src/handler.rs:36-46 | refuses exactly when the key has a waiter; otherwise that waiter, and nothing else, is added |
| Links.PeerLink.AwaitRoom | fabric-shim/src/handler.rs:49 | after waiting, a send can proceed; the peer may have taken any number of the oldest messages, and nothing else has changed |
| Links.PeerLink.Send | fabric-shim/src/handler.rs:66-72 | appends to the queue, or changes nothing and reports that the queue is gone |
| Links.PeerLink.SendAwaited | fabric-shim/src/handler.rs:66-72 | the same with the wait: the message follows what the peer has not taken meanwhile, and the waiters stay |
| Links.PeerLink.SendRequest | fabric-shim/src/handler.rs:48-52 | queues the request, or withdraws the waiter when the queue is gone |
| Links.PeerLink.RouteResponse | fabric-shim/src/handler.rs:74-87 | wakes whoever waits under the key and leaves every other waiter alone |
| Links.PeerLink.DropPending | fabric-shim/src/handler.rs:89-91 | forgets this key's waiter only |
| Links.PeerLink.Close | fabric-shim/src/server.rs:148-155 | when the peer stops listening, what is still queued is lost and the waiters stay |
| Handshake.LegalStep | fabric-shim/src/handler.rs:170-206 | one message of the accepted language, for each connection state |
| Handshake.DriveAcceptsExactlyLegal | fabric-shim/src/handler.rs:156-206 | the loop gives up exactly on the first message outside K* REGISTERED K* READY (K or INIT or TRANSACTION or RESPONSE or ERROR)*, where K is KEEPALIVE, and never on a prefix of it |
| Handshake.DriveSends | fabric-shim/src/handler.rs:179-205 | the loop itself sends one echo per accepted keepalive, in order, and a single ERROR, last, exactly when it gives up |
| Handshake.DriveSpawnsAndRoutes | fabric-shim/src/handler.rs:190-195 | tasks are started for all accepted INIT and TRANSACTION messages in order, and exactly the keys of accepted replies are woken |
| Handshake.StateOnlyAdvances | fabric-shim/src/handler.rs:156-177 | the state never goes back, and a task is started only once it is Ready |
| Handshake.DrivePrefix | fabric-shim/src/handler.rs:196-205 | messages after a rejected one have no influence |
| Handshake.ReadOne | fabric-shim/src/handler.rs:170-206 | one turn of the loop does to the link what the machine says, with or without a queue, and touches only the waiter of a routed reply |
| Handshake.RunConnection | fabric-shim/src/handler.rs:130-208 | the loop computes the machine's outcome, sends REGISTER first, gets to send what it has to say for as long as the peer listens, and removes exactly the waiters whose replies it routed; without a queue from the start it does nothing |
| Flow.AnswerFlow | fabric-shim/src/handler.rs:48-54 | the peer's answer turns the oldest unanswered request of its transaction into its reply and leaves other transactions' traffic alone |
| Safety.InvStep | fabric-shim/src/handler.rs:29-91 | every event keeps the invariant that ties each transaction's task, waiter, traffic and books together |
| Safety.ReachableInv | fabric-shim/src/handler.rs:29-91 | so every reachable state satisfies it, whatever is cancelled or panics |
| Atomic.AInvStep | fabric-shim/src/stub.rs:30-41 | the machine with atomic calls keeps a sequential ledger in which no call occurs twice and from which every answer is taken |
| Atomic.Simulate | fabric-shim/src/handler.rs:29-91 | one protocol event is one event of that machine or none |
| Atomic.Refinement | fabric-shim/src/handler.rs:29-91 | every run of the protocol, with cancellation and panics, is a run of the atomic machine with the same ledger and the same outcomes in the same order; a call takes effect when the peer answers it |
| Atomic.RepliesMatchExecutions | fabric-shim/src/handler.rs:36-54 | no misdelivery: a call that returned a reply was executed exactly once, with the very request it was issued with and for the transaction that issued it, and that execution produced the reply; a refused call was never executed |
| IssueOrder.OrderStep | fabric-shim/src/stub.rs:30-41 | every event keeps each transaction's account of replies in step with what was executed for it and who gave up |
| IssueOrder.OwnRepliesInIssueOrder | fabric-shim/src/stub.rs:25-41 | over every run, each transaction is told exactly the replies to those of its executed requests whose callers did not give up, in issue order, missing at most the newest |
| Accounts.NoCallIsLost | fabric-shim/src/stub.rs:30-41 | in every reachable state, an issued call that has neither come back nor been given up on is in the gate of its own running transaction or queued in front of it |
| Accounts.GivenUpOnlyByCaller | fabric-shim/src/handler.rs:36-63 | a call stops waiting only by coming back, by its own caller's giving up, or by its handler's panic |
| Refusals.RefusedIffDeserted | fabric-shim/src/handler.rs:28-46 | after any run, a call that reaches the registration check is refused if and only if a caller of its transaction gave up on a registered call and no reply of that transaction was routed since |
| Refusals.RefusalsAreBlockedCalls | fabric-shim/src/handler.rs:38-46 | over every run, the refused calls are exactly those that reached the check in that situation, in order |
| Refusals.LoyalCallsAreNeverRefused | fabric-shim/src/stub.rs:25-40 | if nobody gives up on a registered call of a transaction, none of its calls is refused, whatever else is cancelled |
| Refusals.TimedOutCallBlocksTheNext | fabric-shim/src/handler.rs:38-54 | a reachable state in which a call was refused because the one before it was given up after it had been sent, its request still under way |
| Terminals.ReachableTermInv | fabric-shim/src/handler.rs:130-302 | in every reachable state: registration first and once, legal handshake, and requests then one terminal message per transaction |
| Terminals.OneTerminalPerTransaction | fabric-shim/src/handler.rs:212-302 | at most one COMPLETED or ERROR per accepted transaction, exactly one when its task is done with the queue open, of the kind its input calls for; no request of that transaction follows it; none for a key never accepted |
| ReadLoop.HandshakeOverRuns | fabric-shim/src/handler.rs:141-208 | over whole runs with a peer that may send anything at any time: REGISTER is first and only once; what was read is illegal exactly when one ERROR with the last message's key is owed; with the queue open that ERROR has been or is being sent, and no other ever is; once the loop is over nothing more is read |
| ReadLoop.LoopSaysWhatIsDue | fabric-shim/src/handler.rs:143-205 | over the same runs, the loop's own messages on the queue are REGISTER, one echo per accepted keepalive and the ERROR it owes, in order and nothing else; a prefix of that once the queue is gone |
| ReadLoop.TasksComeFromMessages | fabric-shim/src/handler.rs:190-217 | over the same runs, tasks were started for the accepted INIT and TRANSACTION messages in order, and each task has its message's input |
| Limits.DeliveryIsExact | fabric-shim/src/handler.rs:74-87 | a reply wakes the call it answers if and only if that call still waits, and fills no other slot; so no reply of a live waiter is dropped |
| Limits.SingleFlight | fabric-shim/src/stub.rs:25-40 | at most one request per transaction is between enqueue and reply, its waiter is registered, and a waiting call's request is under way |
| Limits.QueueIsBounded | fabric-shim/src/server.rs:148 | in every reachable state the outbound queue holds no more than its capacity |
| Limits.NoPendingLeak | fabric-shim/src/handler.rs:291-300 | entries exist only while the handler runs or has just ended; none is left when the terminal message is due |
| Limits.CancelWedges | fabric-shim/src/handler.rs:38-54 | giving up on a registered call whose reply was not routed leaves its entry behind; the transaction is wedged if and only if the call was still waiting for room or its request is lost |
| Limits.WedgedUntilTheEnd | fabric-shim/src/handler.rs:40-44 | from then on no call of that handler is enqueued or answered |
| Limits.CancelledCallBlocksTheNext | fabric-shim/src/handler.rs:28-46 | a reachable state in which a second call was refused that way |
| Returns.ReturnsIffOnItsWay | fabric-shim/src/handler.rs:54 | a sent call can come back if and only if its reply has been routed, or its request or reply is under way to a loop that will get to it |
| Returns.LostForever | fabric-shim/src/handler.rs:160-167 | any other sent call waits until its caller gives up |
| Returns.ComesBack | fabric-shim/src/handler.rs:156-195 | and those that can come back need no more than the loop and the peer to move |
| Returns.StrandedWaiterExists | fabric-shim/src/error.rs:16-18 | a waiter stranded by the end of the stream exists, for every positive queue capacity |
| Returns.LostRequestExists | fabric-shim/src/error.rs:16-18 | so does one whose request was lost with the queue while the loop goes on reading |
| Progress.EveryEventLightens | fabric-shim/src/handler.rs:48-54 | every event but a new message from the peer decreases a natural-number measure |
| Progress.RunsAreBounded | fabric-shim/src/handler.rs:156-208 | no run is longer than the peer's messages can feed |
| Progress.RestMeansFinished | fabric-shim/src/handler.rs:212-302 | with any positive capacity, queue open or closed: when no productive step is left, an accepted transaction is finished if and only if it has no call waiting for a reply that cannot come (loop stopped, or request lost with the queue); a finished one has sent its terminal message or found the queue gone |
| Progress.AnyOrderComesToRest | fabric-shim/src/server.rs:148 | productive steps in any order are bounded in number and can always be continued to such a state |
| Transactions.EventSlot.SetEvent | fabric-shim/src/stub.rs:319-336 | a named event replaces the slot's content, an unnamed one is refused and changes nothing |
| Transactions.EventSlot.Take | fabric-shim/src/handler.rs:294 | hands out the event and empties the slot |
| Transactions.SendTerminal | fabric-shim/src/handler.rs:243-247 | queues the message after waiting for room, while the peer takes what it likes, and leaves the waiters alone |
| Transactions.StartTransaction | fabric-shim/src/handler.rs:212-271 | user code gets a stub exactly when the transition system says it runs; otherwise the one terminal message its input calls for is sent and no waiter changes |
| Transactions.FinishTransaction | fabric-shim/src/handler.rs:291-300 | the entry goes, the event is taken, and COMPLETED carries the response and that event |
| Transactions.TerminalTellsTheOutcome | fabric-shim/src/handler.rs:219-300 | over whole runs, every terminal message sent is the right one for the input of the message that started the transaction: ERROR for what does not decode, the document when it was asked for, otherwise COMPLETED with the response the handler returned, or the panic's, and the event it named last |
| Transactions.TerminalByInput | fabric-shim/src/handler.rs:219-300 | over whole runs, read off the input and the handler's deeds alone: a query for "org.hyperledger.fabric:GetMetadata" with a document is answered with that document and the handler never runs; what does not decode is answered with ERROR and the handler never runs; in every other case, without arguments too, the handler has run and COMPLETED says how it ended |
| Utf8.EncodeCharDenotes | fabric-shim/src/stub.rs:253-261 | every character is encoded by the bit pattern that section 3 of RFC 3629 gives for its range |
| Utf8.EncodeAppends | fabric-shim/src/stub.rs:253-261 | strings are encoded character by character |
| Utf8.ByteOrderIsTextOrder | fabric-shim/src/stub.rs:253-261 | comparing UTF-8 encodings byte by byte is comparing by scalar value, for all strings |
| Utf8.EncodeIsInjective | fabric-shim/src/stub.rs:253-261 | different keys have different encodings |
| CompositeKeys.CreateCompositeKey | fabric-shim/src/stub.rs:461-473 | the printing loop yields the delimited key, or an error as soon as one component is invalid |
| CompositeKeys.CreateRefuses | fabric-shim/src/stub.rs:490-508 | refused, as invalid, are exactly the lists with an empty component or one that holds U+0000 or U+10FFFF |
| CompositeKeys.CreateLayout | fabric-shim/src/stub.rs:457-473 | a printed key starts and ends with U+0000, has no two of them side by side, and between them stand the parts |
| CompositeKeys.PrintedIsUnique | fabric-shim/src/stub.rs:457-473 | and it is the only string like that |
| CompositeKeys.SplitFindsStretches | fabric-shim/src/stub.rs:476-488 | for every string: accepted are exactly those that start with U+0000 and hold some other character, all others are refused as invalid, and what is found are the stretches between the delimiters |
| CompositeKeys.CreateThenSplit | fabric-shim/src/stub.rs:476-488 | whatever the printer accepts, the parser gives back |
| CompositeKeys.CreateIsInjective | fabric-shim/src/stub.rs:457-473 | different parts print to different keys |
| CompositeKeys.SplitThenCreate | fabric-shim/src/stub.rs:476-508 | printing what the parser found succeeds if and only if the key is free of U+10FFFF, and then the same parts come back |
| CompositeKeys.PrefixInterval | fabric-shim/src/stub.rs:258-260 | the half-open range from p to p followed by U+10FFFF holds exactly the strings that start with p and do not go on with U+10FFFF |
| CompositeKeys.JoinPrefix | fabric-shim/src/stub.rs:461-473 | printed lists are prefixes of each other exactly when the lists are |
| CompositeKeys.PartialQueryIsExact | fabric-shim/src/stub.rs:253-261 | among keys the printer builds, those in the byte range of a partial query are exactly those of the same type whose attributes extend the given ones |
| Paging.QueryIter.constructor | fabric-shim/src/iterators.rs:23-31 | starts with the first answer's records and is open |
| Paging.QueryIter.Next | fabric-shim/src/iterators.rs:33-50 | pops the buffer, or fetches until there is something to pop, or ends, or reports the peer's error; result, buffer and requests are those of the specification |
| Paging.NextPassesEmptyAnswers | fabric-shim/src/iterators.rs:33-50 | one call passes over any number of empty answers that announce more; the answer after them decides: an error is reported with the iterator left as it was, a record is handed out, an empty last answer ends the results |
| Paging.QueryIter.Close | fabric-shim/src/iterators.rs:52-63 | one CLOSE on the first call, marked closed even when the peer refuses; nothing on later calls |
| Paging.QueryIter.CollectRemaining | fabric-shim/src/iterators.rs:90-97 | drains and then closes; an error on the way comes back without closing |
| Paging.CollectDrains | fabric-shim/src/iterators.rs:33-50 | from any point of any batch, what is left comes out in order, with one NEXT per further batch and one CLOSE |
| Paging.StateByRange | fabric-shim/src/stub.rs:190-198 | one range request; its answer, or its error, becomes an open iterator with the first records |
| Paging.StateByPartialCompositeKey | fabric-shim/src/stub.rs:253-261 | an unprintable partial key is refused before the peer is asked; otherwise the range from the prefix to the prefix with U+10FFFF is requested |
| Paging.CutsAreCollected | fabric-shim/src/iterators.rs:33-97 | whatever records an answer holds and however it is cut, collecting the query returns them all in order, with one range request, one NEXT per further batch and one CLOSE |
| Paging.PeerErrorFailsTheQuery | fabric-shim/src/iterators.rs:45-92 | after any number of good answers, a failing one fails the query with that very error, and nothing more is sent, CLOSE included |
| Paging.ErrorStops | fabric-shim/src/iterators.rs:45 | the iterator is left open with nothing buffered |
| Paging.BadRecordFailsTheQuery | fabric-shim/src/iterators.rs:82-92 | the first record that does not decode, anywhere, fails the query with a decode error, and nothing more is sent |
| Paging.CloseDecides | fabric-shim/src/iterators.rs:90-97 | when all was fetched and decoded one CLOSE is sent, and its refusal fails the query |
| Paging.OkIffComplete | fabric-shim/src/iterators.rs:33-97 | whatever the peer answers, a query yields records if and only if all answers up to the first that announces no more are good, everything in them decodes to these records, and CLOSE is accepted |
| Paging.PagingEqualsScan | fabric-shim/src/iterators.rs:33-97 | for every store, range and way of cutting (empty batches included), a query returns exactly the records in range, in order, with one range request, one NEXT per further batch and one CLOSE |
| Paging.GreedyFetches | fabric-shim/src/iterators.rs:33-50 | batches of size b filled greedily are a correct cut, and there are n/b of them rounded up |
| Paging.GreedyDrain | fabric-shim/src/iterators.rs:33-63 | so collecting n records sends max(0, ceil(n/b) - 1) NEXT requests and one CLOSE |
| Paging.ClosedSession | fabric-shim/src/iterators.rs:38-55 | once closed, no request is sent and next yields the buffered rest and then nothing |
| Paging.CloseDiscipline | fabric-shim/src/iterators.rs:33-63 | for any interleaving of next and close, over any peer, the peer sees some NEXTs and then at most one CLOSE, exactly when close was called; the first close reports the peer's answer and later ones succeed |
| Paging.ScanIsPrefix | fabric-shim/src/stub.rs:253-261 | over any store, scanning a partial key's range selects exactly the keys that start with the printed prefix and do not go on with U+10FFFF |
| Paging.PrefixIsExtending | fabric-shim/src/stub.rs:253-261 | over simple and composite keys, these are the keys of the same type with the given leading attributes |
| Paging.PartialQueryThroughPaging | fabric-shim/src/stub.rs:253-261 | so over any store a partial key query returns, through any paging, the records under the prefix in order, and over simple and composite keys those of the same type with the given leading attributes |
| Schemas.WalkSpec | fabric-shim-macros/src/lib.rs:430-450 | registering a type adds only structs within reach, each with its own schema and all its fields' names, and covers the type itself; it terminates on cyclic graphs |
| Schemas.EveryRefResolves | fabric-shim-macros/src/lib.rs:423-450 | every reference in the document resolves, whatever the graph and the names |
| Schemas.ComponentsAreReachable | fabric-shim-macros/src/lib.rs:430-450 | with distinct names within reach, the map holds exactly the reachable structs, each with its own schema |
| Schemas.FaithfulIffSameSchemas | fabric-shim-macros/src/lib.rs:436-448 | where no struct repeats a JSON name, every reachable struct finds its own schema if and only if same-named reachable structs have equal schemas |
| Schemas.FaithfulWhenHiddenSolid | fabric-shim-macros/src/lib.rs:401-449 | the same where JSON names are repeated, if the names that replaced fields mention are also reached by mentions that do not depend on which same-named struct is met first |
| Schemas.FaithfulWhenNamesSolid | fabric-shim-macros/src/lib.rs:430-450 | if all reachable names are reached that way, they are all registered, whatever collides |
| Schemas.FaithfulIffHiddenCovered | fabric-shim-macros/src/lib.rs:436-449 | for every program: faithful if and only if same-named structs have equal schemas and the walk registers what replaced fields mention |
| Schemas.DistinctJsonHidesNothing | fabric-shim-macros/src/lib.rs:404-414 | the second condition holds whenever no struct repeats a JSON name |
| Schemas.HiddenFieldLosesStruct | fabric-shim-macros/src/lib.rs:436-449 | a family of contracts in which it fails and a struct goes unregistered |
| Schemas.CollisionLosesSchema | fabric-shim-macros/src/lib.rs:436-438 | any two same-named structs with different schemas lose one of them in a contract that mentions both |
| Schemas.CollisionExample | fabric-shim-macros/src/lib.rs:436-438 | a concrete pair |
| Schemas.SchemaPortrays | fabric-shim/src/contract.rs:158-161 | the schema of a type has an array for each list, from the outside in, and inside them the primitive's kind or a reference to the struct's name |
| Schemas.PortraitIsUnique | fabric-shim/src/contract.rs:116-161 | and there is only one such schema |
| Schemas.ObjectPortraysFields | fabric-shim-macros/src/lib.rs:401-448 | a struct's schema has a property for each JSON name and no others, portraying the last field of that name, and requires exactly the names of fields that are not optional |
| Schemas.BuildObject | fabric-shim-macros/src/lib.rs:401-448 | the loop over the fields builds that schema |
| Schemas.ComponentMap.Components | fabric-shim-macros/src/lib.rs:430-450 | the generated function leaves in the shared map what the specified walk would |
| Schemas.ComponentMap.NestedComponents | fabric-shim/src/contract.rs:158-166 | so do the calls for the fields, lists passing the map on to their element |
| Dispatch.RunsIffListed | fabric-shim-macros/src/lib.rs:246-281 | the generated code runs a method if and only if its listed name is the last segment and no earlier listed name, the count is that of the listed parameters, and all arguments parse as the method's types; it gets the parsed values in order |
| Dispatch.RefusalsAreExact | fabric-shim-macros/src/lib.rs:250-271 | a call that runs nothing is refused for the first thing that is wrong with it: no argument, an unknown name, the wrong count, or the first argument that does not parse |
| Dispatch.UserCodeRunsIff | fabric-shim/src/handler.rs:219-283 | with the shim around it: user code runs if and only if input and proposal decode, the shim does not answer with the document itself, and the call names the method as listed |
| Dispatch.NamespaceIsIrrelevant | fabric-shim-macros/src/lib.rs:340-347 | any namespace before a colon-free name is irrelevant to the generated routing |
| Dispatch.NamespaceMattersOnlyForMetadata | fabric-shim/src/handler.rs:235-250 | a namespace before a colon-free name makes a difference to what the shim does if and only if it makes the name the system function's and there is a document |
| Dispatch.ListedIsCallableIff | fabric-shim-macros/src/lib.rs:330-347 | a listed transaction can be called if and only if its name is colon-free and not shadowed |
| Dispatch.ColonNameIsNeverReached | fabric-shim-macros/src/lib.rs:340-345 | a contract whose listed method no arguments reach |
| Dispatch.InterceptionIsByFullName | fabric-shim/src/handler.rs:235-250 | the shim answers with the contract's document if and only if there is one and the first argument is, byte for byte, the full system name |
| Dispatch.BuildTx | fabric-shim-macros/src/lib.rs:293-308 | the entry lists the wire name, the tag, the parameters with their schemas in order, and the result |
| Dispatch.DocumentPortraysTypes | fabric-shim-macros/src/lib.rs:293-308 | in the document every parameter, in order and under its name, and every result is portrayed as its type, lists as arrays |
| Dispatch.DocumentIsClosed | fabric-shim-macros/src/lib.rs:284-328 | every reference in the document, from parameters, results or components, resolves in it |
| Dispatch.TypesOfContract | fabric-shim-macros/src/lib.rs:284-292 | the types registered are exactly those of parameters and results |
| Dispatch.BuildComponents | fabric-shim-macros/src/lib.rs:284-320 | the registrations, transaction by transaction, leave the component map of all mentioned types |
| Dispatch.BuildMetadata | fabric-shim-macros/src/lib.rs:315-328 | the document lists every transaction in order and carries that component map |
| Assets.Stub.PutState | fabric-shim/src/stub.rs:396-408 | an empty key is refused before the peer is asked; a refusal by the peer leaves the state |
| Assets.AssetContract.ReadAsset | examples/asset-transfer/src/main.rs:42-51 | absent and corrupt records are errors, anything else is decoded |
| Assets.AssetContract.InitLedger | examples/asset-transfer/src/main.rs:62-82 | writes the six assets in order until the peer refuses one |
| Assets.AssetContract.Create | examples/asset-transfer/src/main.rs:84-110 | refuses an existing id without writing |
| Assets.AssetContract.Update | examples/asset-transfer/src/main.rs:117-139 | refuses an absent or corrupt record without writing |
| Assets.AssetContract.Delete | examples/asset-transfer/src/main.rs:141-145 | refuses an absent or corrupt record without deleting |
| Assets.AssetContract.Exists | examples/asset-transfer/src/main.rs:147-150 | reads only, and does not decode |
| Assets.AssetContract.Transfer | examples/asset-transfer/src/main.rs:152-165 | writes the record back under its own id, sets the event and returns the previous owner |
| Assets.AssetContract.GetAllAssets | examples/asset-transfer/src/main.rs:167-183 | requests the unbounded range, collects through the iterator and keeps the rows that decode |
| Assets.SeedingMeaning | examples/asset-transfer/src/main.rs:62-82 | seeding adds all assets of the list to the map, or a prefix of them when the peer refuses |
| Assets.SeededMap | examples/asset-transfer/src/main.rs:64-71 | on an empty ledger it leaves these six assets |
| Assets.OnlyTransfersEmit | examples/asset-transfer/src/main.rs:62-165 | for every peer and ledger, a call sets an event if and only if it is a transfer that succeeded, and then the one carrying the asset with its new owner |
| Assets.HistoryEmits | examples/asset-transfer/src/main.rs:152-165 | over whole histories, the event is that of the last transfer that succeeded, or the initial one |
| Assets.RequestsMade | examples/asset-transfer/src/main.rs:62-165 | reading and asking for existence take one ledger request, a writing call two when it succeeds and never more, seeding at most six |
| Assets.UnreadableRecordsAreRefused | examples/asset-transfer/src/main.rs:42-51 | on any ledger, an absent or corrupt record makes reading, updating, deleting and transferring fail as invalid without effect, existence looks at the bytes only, and creation is refused as soon as there are any |
| Assets.RowsSkipCorrupt | examples/asset-transfer/src/main.rs:170-182 | listing keeps the records that decode, in order, each once, and skips the others |
| Assets.CallMeetsIntention | examples/asset-transfer/src/main.rs:84-165 | every call agrees with its map operation on result and new map unless the peer fails it; a failed call other than seeding has written nothing and set no event |
| Assets.HistoryKeepsLedgerOk | examples/asset-transfer/src/main.rs:53-165 | over every history, whatever the peer refuses, each record decodes and its id is its key |
| Assets.HistoryRefinesMap | examples/asset-transfer/src/main.rs:62-165 | whatever the peer refuses, whole histories follow the finite map call by call, a failed call changing nothing (failed seeding adding a prefix); with a serving peer they return exactly what the map returns and leave a ledger that means its final value |
| Assets.TransferHitsItsKeyIff | examples/asset-transfer/src/main.rs:160-162 | on an arbitrary ledger a successful transfer changes the owner under the requested key if and only if the record's id is that key (or it had that owner) |
| Assets.StrayTransfer | examples/asset-transfer/src/main.rs:160-162 | a ledger on which a successful transfer leaves the requested record alone and writes another key |
| Assets.TransferChangesOnlyTheOwner | examples/asset-transfer/src/main.rs:152-165 | after any history a successful transfer changes the requested key only and of its asset only the owner; the event carries the new asset |
| Assets.GetAllListsTheMap | examples/asset-transfer/src/main.rs:167-183 | after any history, listing through any paging yields exactly the map, in key order, nothing twice |
| Assets.ListingExists | examples/asset-transfer/src/main.rs:167-183 | every world state has such an ordered listing, so the statement above is about every history |

## Left out

- gRPC, tonic, TCP, signals, environment variables and the server's set-up: I/O. Only the queue capacity is kept, as a parameter.
- Protobuf and JSON bytes, lossy text decoding, number parsing and printing, case conversion and serde renames: library behaviour, present as functions with the laws stated above. Whether a transaction's input and proposal decode is part of `Wire.TxInput`.
- Token-level parsing in the macros: a contract is a table of methods, a program a graph of structs. Contract title, version and licence fields of the document are not modelled.
- Timestamps, tracing and the wording of error messages, and the creator, decoration and transient accessors, `read_transient` included: environmental.
- Private data, key history, rich queries, paginated queries with bookmarks and chaincode-to-chaincode calls: thin wrappers around the same request.
- Asynchronous tasks as code: `request` under the gate, and tasks running side by side, are the transition system of `Protocol`, not methods that suspend. The methods in `Links`, `Handshake` and `Transactions` are the stretches between two suspensions, on one thread.
- Waking waiters when the stream ends, reused transaction ids, and stub use after the handler returned: the code promises nothing there.
- A `next` call cancelled between the peer's answer and the buffer update loses that batch; `Paging` is about calls that run to completion.
- Unbounded range queries also return composite keys; the listing of `Assets` is over a ledger only its own contract writes.
- Writes of a failed transaction are kept by the model's ledger, while the network would discard the whole transaction; only seeding can write and then fail, and `Assets.SeedingMeaning` says what it leaves.
- OneTerminalPerTransaction: counts the messages of the transaction's task; the ERROR by which the read loop gives up may carry the key of a live transaction, since it copies the key of the rejected message.
- How the peer signals the end of the stream (end of stream or error status): the loop treats both alike, and the model's loop reads what arrives before.
- RunConnection: reads a given list of messages on one thread; what other tasks do between two turns is part of `Protocol` only, and which queued messages the peer took is stated turn by turn (`Handshake.ReadOne`).
- FaithfulIffHiddenCovered: which of several same-named structs the walk meets first depends on the order of the roots and fields, so without a condition such as that of `Schemas.FaithfulWhenHiddenSolid` or `Schemas.FaithfulWhenNamesSolid` its second half refers to the walk's outcome.
