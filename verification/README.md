# The Bridge, proved

BrowserMCP lets a browser page offer tools, resources and prompts to MCP clients. Between the two sits
the Bridge, a loopback server that accepts browser connections over WebSocket, gives each of them a
session, keeps track of what it has registered, and passes calls and answers back and forth. This
project models the Bridge's session and invocation kernel, the browser's half of an invocation, and
four smaller algorithms beside them, and proves what they promise.

## How the model is laid out

Each stateful component of the source is a class whose methods update its fields, and each such method
is proved against a function of the component's state as a value. The theorems are about those
functions, one step at a time and over whole runs.

| files | what they model |
|---|---|
| `BrokerModel`, `BrokerLaws`, `BrokerOutcomes`, `Broker`, `RecentRequests` | the invocation broker: pending calls, per-connection counters, tombstones for late answers, and the history of requests that mirrors it |
| `Executor`, `TwoParty`, `CallOutcomes` | the browser's half of an invocation; broker and browser together over a first-in-first-out channel each way; and what becomes of a call |
| `Capabilities`, `RegistryModel`, `RegistryLaws`, `RegistryOutcomes`, `Registry`, `Resolution`, `Names` | sessions, registrations and their accounting; listings and resolution; exposed names and addresses |
| `Expiring`, `Tokens` | insertion-ordered tables with expiry; one-time tokens and what can be got out of them over a run |
| `GatewayModel`, `GatewayLaws`, `GatewayRuns`, `GatewayTheorems`, `GatewayTokens`, `GatewayConnections`, `GatewayWire`, `GatewayOutcomes`, `GatewayFrames`, `Gateway` | all of the above composed into one Bridge: handshake, approval, pairing, resume, replacement, cleanup; and how one connection and its browser see that Bridge |
| `Semver`, `Negotiation`, `Orders`, `Sorting` | version text, precedence and negotiation |
| `Base64` | canonical Base64 |
| `Quota`, `SafeValues` | the site's storage quota |
| `Common`, `Sequences` | shared vocabulary, sums over maps, filtering |

## How to read the results

The broker, `BrokerLaws.StepKeepsInv` and `BrokerLaws.RunKeepsInv`: over any interleaving of calls,
answers, timers, aborted callers, lost connections and a stop, the counter of every connection equals
the number of calls it owns and no zero entries are kept; both concurrency limits hold; every accepted
promise is open or settled exactly once; tombstones are bounded, ordered by expiry and disjoint from
pending calls; and a retained history record is pending, and names its call's provider, exactly while
the call is pending, and otherwise tells its verdict.

The two parties, `TwoParty.NoRunEndsInRefusal`: with both ends running this code, an `invoke` that
arrives is never refused by the browser for lack of room and never taken for a duplicate, because
every call the broker has given up on was either answered by the browser or is preceded on the wire by
its `cancel`. While both ends are up, a call that the broker holds is in exactly one place: on its way,
running, answered, or dropped by the browser without an answer; and it is dropped in exactly two cases
(`TwoParty.LostExactlyWhenDropped`, and see below). `GatewayWire.NoSessionIsOverloaded` carries the
first result over to every session of every run of the whole Bridge: each step of the Bridge is, for a
connection with a session, a step of the two-party model or none.

The Bridge, `GatewayRuns.EveryReachableStateIsSound`: from its start, over any run, the invariant
`GatewayModel.Inv` holds. It says that the registry's sessions are exactly those that the gateway's
sockets hold; that every pending call and every tombstone belongs to a live session; that live
sessions have distinct ids; that a session id has at most one resume grant, which agrees with the live
session of that id on origin, application, runtime and instance; that connections stay within their
limit; that pending approvals stay within max(1, floor(connections / 2)), at most three for an origin,
pairwise different, and never on a connection that has a session; and that the invariants of the
components hold. Messages are still processed between closing a socket and its close event, and the
invariant covers that window.

Round trips. `GatewayConnections.PairingRoundTrip` and `GatewayConnections.ResumeRoundTrip`: a pairing
token gets a browser a session, and the token from its welcome gets it the same session back, whatever
happens in between that does not use the token up. `GatewayOutcomes.RegisterOutcome`,
`GatewayOutcomes.RegisteredIsFound`, `GatewayOutcomes.CallOutcome` and `GatewayOutcomes.CallRoundTrip`:
what a session registers is found under its name, called there, and answered with exactly the result that
its browser sends. `CallOutcomes.CallRoundTrip` follows such a call through the browser: for each way in
which a handler can end, the promise gets the one verdict that fits it.

The lemmas in the files named `Outcomes` say what single steps bring about in terms of the tables alone,
without the functions that specify the steps.

## Choices

- A JavaScript `Map` whose order matters (tombstones, tokens) is the sequence of its entries in
  insertion order; otherwise it is a map.
- Ids and secrets are numbers that are only ever compared. Each step names the values that it draws, and
  a run is possible only if none of them was drawn before.
- A token stands for its digest. `fingerprint` is a parameter that yields sixteen hexadecimal digits;
  nothing else is assumed of it, so results about names speak of equal fingerprints.
- The clock is a parameter of each step, read once in it, and does not run backwards.
- A socket is an origin and a flag that says whether it still takes messages to send. Whether a
  particular message was sent is a parameter of the step.
- Timers, close events and operator decisions are steps that may come at any time. A timer's step is
  harmless when the thing it was for is gone, as in the source.
- In the two-party model a `cancel` message always fits and always serialises, so it is lost only to a
  socket that is no longer open, and losing the connection or stopping the Bridge closes the socket in
  the same step. Aborting a running handler, answering and removing the call are one step of the
  browser. Replies with a fixed text always fit: they are shorter than the least payload limit that a
  Bridge accepts (bridge/src/config.ts:133).
- Where the whole Bridge and one browser run together, the answers that the Bridge takes from the
  connection are those that the browser sent, in order, and `send` answers as described.
- Text in the storage model is UTF-16 code units. The key pattern ignores case in Unicode, which lets
  in U+017F and U+212A, so a key may take more bytes than it has characters; the bound on an entry
  allows for three bytes per unit.
- `localeCompare` is a parameter; it is only taken to be a total preorder.

## Where a claim needs a condition

- A registry session may be added only for a connection that has none (`addSession` itself does not
  look). `RegistryLaws.AddKeepsInv` asks for it and the gateway always provides it.
- A resume is not always granted: `GatewayTheorems.ResumeSucceedsExactlyWhen` gives the exact
  condition. It fails, with its grant spent, when another session of the same application instance is
  live; that cannot be while the session to be resumed still has a connection.
- The exposed names can be told apart because the application prefix is capped at 20 characters:
  `Names.LongPrefixesCollide` gives two different readings of one name when prefixes may differ by 35.
- Not every call that the browser runs is answered. It is dropped without an answer exactly if its
  handler throws a closed-connection error of its own, or if it ends in an error whose reply is over the
  negotiated message size: `#send` then throws out of the `catch` block of `#executeInvocation` while the
  socket stays open. `TwoParty.LostExactlyWhenDropped` proves that these two are the only cases, over all
  runs; `TwoParty.LongErrorLosesTheCall` gives a run, with a payload limit of 1024 bytes and an error
  reply of 1900. The Bridge holds such a call until its own timer ends it. A result that is over the
  limit is not lost: the browser reports it as an error with a fixed text.

## Model

| member | source | states |
|---|---|---|
| BrokerLaws.StepKeepsInv | bridge/src/broker.ts:80-322 | every event keeps exact counters, both limits, settlement at most once, tombstone order and bound, and the history's agreement with the calls |
| BrokerLaws.RunKeepsInv | bridge/src/broker.ts:54-322 | the same over every possible run |
| BrokerLaws.InitialInv | bridge/src/broker.ts:55-78 | a new broker satisfies the invariant |
| BrokerLaws.InvokeKeepsInv | bridge/src/broker.ts:80-170 | a call that is refused, accepted, or accepted but not sent keeps the invariant |
| BrokerLaws.SettleKeepsInv | bridge/src/broker.ts:261-307 | ending any set of calls keeps the invariant |
| BrokerLaws.AnswerKeepsInv | bridge/src/broker.ts:172-228 | a result, error or cancellation from a browser keeps the invariant, whoever sends it |
| BrokerLaws.InterruptKeepsInv | bridge/src/broker.ts:261-295 | a timeout or an aborted caller keeps the invariant: the new tombstone expires last and its id is new |
| BrokerLaws.LostKeepsInv | bridge/src/broker.ts:230-243 | losing a connection keeps the invariant |
| BrokerLaws.CallEndsExactlyWhenAddressed | bridge/src/broker.ts:80-250 | a pending call ends exactly on an event addressed to it, with that event's verdict; every other event leaves it as it was |
| BrokerLaws.VerdictIsFinal | bridge/src/broker.ts:172-307 | a settled call is never settled again and never becomes pending again in a step |
| BrokerLaws.VerdictIsFinalOverRuns | bridge/src/broker.ts:172-307 | the same over every run |
| BrokerLaws.LateAnswerTakenOnce | bridge/src/broker.ts:309-315 | a tombstone takes one late answer, from its own connection; an answer from elsewhere leaves it in place, and no answer changes calls or verdicts |
| BrokerLaws.InterruptedCallAwaitsAnswer | bridge/src/broker.ts:264-274 | after giving up on a call the Bridge takes its owner's late answer exactly while the tombstone has not expired |
| BrokerLaws.AnswersSettle | bridge/src/broker.ts:36-52 | an answer from the call's own browser settles it: a result of the expected kind resolves it, one of another kind is INVALID_MESSAGE, and each error code gives the one verdict that stands for it |
| BrokerOutcomes.CallIsAcceptedExactlyWhen | bridge/src/broker.ts:80-170 | a call is accepted exactly if there is room in all and for its connection and the caller is still there; it is then held with its kind and provider and is the last message to that provider, or has ended at once if it could not be sent; a refused call leaves no trace |
| BrokerOutcomes.GivingUpTellsTheBrowser | bridge/src/broker.ts:261-295 | giving up a call sends its browser a cancel, leaves a tombstone with the given lifetime, rejects the promise as timed out or cancelled, and drops no live tombstone while there is room |
| BrokerOutcomes.AnswersTouchNoOther | bridge/src/broker.ts:172-202 | an answer from another connection than the call's changes nothing, and a late answer takes its own tombstone only |
| BrokerOutcomes.StoppingEndsEverything | bridge/src/broker.ts:245-250 | stopping leaves no pending call, counter or tombstone, and rejects exactly the calls that were pending |
| BrokerOutcomes.LosingEndsItsOwn | bridge/src/broker.ts:230-243 | losing a connection rejects exactly its calls and forgets exactly its tombstones |
| BrokerOutcomes.MatchedExactlyWhen | bridge/src/broker.ts:309-315 | an answer matches exactly if its call is pending for this connection, or was given up and its unexpired tombstone names this connection |
| BrokerOutcomes.HeldIsUnchanged | bridge/src/broker.ts:147-155 | over every run, a call that is held at both ends is held for the same provider and with the same expected kind |
| BrokerOutcomes.HistoryTellsTheVerdict | bridge/src/broker.ts:30-34 | a retained record names its call while that is open, and afterwards shows success, cancellation, timeout or error, with the code or the result, as the promise got it |
| BrokerOutcomes.CallEntersTheHistory | bridge/src/recent-requests.ts:31-43 | every accepted call becomes the newest record, no more of the oldest go than the limit demands, and the others stay as they were |
| BrokerOutcomes.HistoryStays | bridge/src/recent-requests.ts:45-64 | nothing but a new call moves a record out of the history |
| Broker.CountsWithout | bridge/src/broker.ts:302-306 | the counter of a pending call's owner exists and is positive, and lowering it gives exact counts again: neither clamp is ever needed |
| Broker.CountsWith | bridge/src/broker.ts:119 | raising one counter by one gives exact counts for the enlarged table |
| Broker.SettleOneMore | bridge/src/broker.ts:230-250 | ending calls one after another, in any order, is ending them together |
| Broker.InvocationBroker.constructor | bridge/src/broker.ts:65-78 | starts in the initial state |
| Broker.InvocationBroker.Invoke | bridge/src/broker.ts:80-170 | the new state and the answer are those of the specification; CONCURRENCY_LIMIT exactly for want of room, else cancelled exactly if the caller is gone, else accepted, and ended at once if it could not be sent |
| Broker.InvocationBroker.Admit | bridge/src/broker.ts:113-155 | history, counter, pending entry and message of an accepted call |
| Broker.InvocationBroker.Resolve | bridge/src/broker.ts:172-202 | a result settles its call, fails it when the kind is wrong, or is absorbed by a tombstone; the answer says whether it matched |
| Broker.InvocationBroker.RejectFromBrowser | bridge/src/broker.ts:204-216 | an error settles its call with the translated code, or is absorbed; the answer says whether it matched |
| Broker.InvocationBroker.CancelledByBrowser | bridge/src/broker.ts:218-228 | a cancellation settles its call, or is absorbed; the answer says whether it matched |
| Broker.InvocationBroker.Disconnect | bridge/src/broker.ts:230-243 | all calls and tombstones of the connection go, no others |
| Broker.InvocationBroker.Close | bridge/src/broker.ts:245-250 | all calls end and all tombstones go |
| Broker.InvocationBroker.FailEach | bridge/src/broker.ts:231-239 | failing the calls one by one while walking the table is failing the whole set |
| Broker.InvocationBroker.CancellationTombstoneCount | bridge/src/broker.ts:252-259 | the number of unexpired tombstones, within the limit |
| Broker.InvocationBroker.Fail | bridge/src/broker.ts:261-295 | ends the call if it is still pending, else nothing |
| Broker.InvocationBroker.FailAndNotify | bridge/src/broker.ts:261-295 | sweeps, evicts, leaves a tombstone, tells the browser, and ends the call |
| Broker.InvocationBroker.Cleanup | bridge/src/broker.ts:297-307 | removes the call and keeps the counters exact |
| Broker.InvocationBroker.ConsumeCancellation | bridge/src/broker.ts:309-315 | sweeps, then removes the tombstone if it is this connection's |
| Broker.InvocationBroker.SweepCancellations | bridge/src/broker.ts:317-322 | removes exactly the expired tombstones |
| RecentRequests.StartedIsConsistent | bridge/src/recent-requests.ts:31-43 | a new request leaves ring and table with the same ids, each once, within the limit |
| RecentRequests.RecentRequestStore.Start | bridge/src/recent-requests.ts:31-43 | the request enters as pending and the oldest leave |
| RecentRequests.RecentRequestStore.DropOldest | bridge/src/recent-requests.ts:39-42 | the eviction loop keeps exactly the newest, in both tables |
| RecentRequests.RecentRequestStore.Finish | bridge/src/recent-requests.ts:45-64 | only a pending record takes an outcome, and only its own |
| RecentRequests.RecentRequestStore.Recent | bridge/src/recent-requests.ts:66-74 | all retained records, newest first |
| Expiring.InsertedInOrder | bridge/src/broker.ts:264-274 | inserting the entry that expires last keeps keys distinct, expiry in order and the cap, and brings in nothing else |
| Expiring.EvictsEarliest | bridge/src/broker.ts:266-270 | what insertion drops had expired or expires no later than everything that stays |
| Expiring.EvictsNoMore | bridge/src/security.ts:84-88 | insertion drops live entries only when the table is full, and then only the oldest |
| Expiring.MakeRoom | bridge/src/security.ts:84-88 | the eviction loop drops exactly the oldest entries that are too many |
| Sequences.DeleteWhile | bridge/src/security.ts:112-116 | deleting entries while walking over them is filtering |
| Executor.AnsweredIsNotRunning | packages/web/src/browser-mcp.ts:1478-1620 | every reply names the call that caused it, a call that was answered no longer runs, and a call that ends gets no answer exactly for a closed-connection error or an error reply over the size limit |
| Executor.InvocationExecutor.Begin | packages/web/src/browser-mcp.ts:1478-1507 | an invocation starts exactly if it is not running, its registration is known and there is room; otherwise nothing starts and the answer says which of the three it was |
| Executor.InvocationExecutor.Send | packages/web/src/browser-mcp.ts:1914-1935 | a message goes out exactly on an open socket and within the size limit; otherwise the caller learns which of the two failed |
| Executor.InvocationExecutor.Report | packages/web/src/browser-mcp.ts:1553-1598 | ending by ending, what is sent on an open socket: the result itself within the limit, HANDLER_ERROR for one over it, the code that fits a failure, a deadline, a timeout or a cancellation; an error reply over the limit, and a closed-connection error, leave nothing |
| Executor.InvocationExecutor.Finish | packages/web/src/browser-mcp.ts:1557-1604 | a call that ends always leaves; while it still runs and the socket is open, a result within the limit is the last message sent, and one over it is reported as HANDLER_ERROR |
| Executor.InvocationExecutor.CancelInvocation | packages/web/src/browser-mcp.ts:1606-1622 | a running call is aborted, answered as cancelled or with the ending it already had, and removed; an unknown one is answered as unknown |
| Executor.InvocationExecutor.RejectTransportWork | packages/web/src/browser-mcp.ts:1702-1712 | all running calls end without an answer |
| TwoParty.BrowserNeverRefuses | packages/web/src/browser-mcp.ts:1497-1507 | when an `invoke` is delivered, what the browser runs was pending when it was sent, there is room, and the id is new |
| TwoParty.NoRunEndsInRefusal | packages/web/src/browser-mcp.ts:1480-1507 | over every run of the two parties from a new session, the browser's concurrency check and duplicate check never fire |
| TwoParty.RunKeepsWireInv | bridge/src/broker.ts:80-295 | over every run, the calls on the wire, running and answered account for what the broker holds |
| TwoParty.NextKeepsInv | bridge/src/broker.ts:80-295 | the same for one step of either party |
| TwoParty.PendingCallIsInOnePlace | packages/web/src/browser-mcp.ts:1478-1620 | while both ends are up, a pending call is on its way, running or answered, in one place only, and is in none of them exactly if it was dropped without an answer |
| TwoParty.SilentExactlyWhenDropped | packages/web/src/browser-mcp.ts:1569-1603 | a step leaves a call without an answer exactly if it ends a running call with a closed-connection error or an error reply over the limit |
| TwoParty.SilentUntilGivenUp | packages/web/src/browser-mcp.ts:1606-1615 | such a call stays unanswered as long as the broker holds it |
| TwoParty.LostExactlyWhenDropped | packages/web/src/browser-mcp.ts:1553-1603 | over every run from a new session, a call that the broker still holds while both ends are up is nowhere exactly if some step of the run dropped it for one of those two reasons |
| TwoParty.UnreportedEndingLosesTheCall | packages/web/src/browser-mcp.ts:1914-1928 | for every such ending there is a run, with both ends up throughout, in which the broker holds a call that is nowhere |
| TwoParty.LongErrorLosesTheCall | packages/web/src/browser-mcp.ts:1921-1928 | a concrete such run: a limit of 1024 bytes and an error reply of 1900 |
| TwoParty.RunningCallIsAwaited | bridge/src/broker.ts:264-285 | while the Bridge's end is up, a call the browser runs is one the broker waits for, unless its `cancel` is on the wire |
| CallOutcomes.EndingIsAnswered | packages/web/src/browser-mcp.ts:1553-1603 | a running call that ends leaves, and the last thing its browser says is exactly what fits its ending: the result within the limit, or the right error code; nothing for the two endings that are not reported |
| CallOutcomes.CallRoundTrip | packages/web/src/browser-mcp.ts:1478-1604 | from the arrival of an `invoke`, over any interleaving in which the Bridge does not give the call up: the promise resolves with exactly the handler's result if that is of the expected kind, is rejected as INVALID_MESSAGE if it is not, and as browser error, timeout or cancellation for each other reported ending; until then exactly that answer waits to be heard, and an unreported ending leaves the call waiting |
| CallOutcomes.AnswerIsHeard | bridge/src/broker.ts:172-216 | once the browser has answered, in every run the call waits for that answer or has exactly the verdict it stands for, unless the Bridge gives the call up |
| CallOutcomes.HeardOut | bridge/src/broker.ts:172-216 | when all answers have been heard, the call has that verdict |
| CallOutcomes.UnknownRegistrationRejects | packages/web/src/browser-mcp.ts:1485-1496 | an `invoke` for an unknown registration is answered at once, and its promise is rejected with a browser error |
| CallOutcomes.GivingUpIsFinal | bridge/src/broker.ts:261-295 | a call that times out, or whose caller goes away, is rejected as such at once and the browser is told; whatever the browser still says, in any later run, changes nothing |
| CallOutcomes.CancelIsAnswered | packages/web/src/browser-mcp.ts:1606-1622 | a `cancel` that arrives stops its call and is answered as cancelled, with the ending the handler already had, or as unknown |
| CallOutcomes.UnreportedCallWaits | packages/web/src/browser-mcp.ts:1569-1598 | a call whose ending is not reported is held, unanswered, until the Bridge gives it up |
| RegistryLaws.AddKeepsInv | bridge/src/registry.ts:138-156 | a new session keeps totals exact and runtimes distinct, provided that its connection has no session yet |
| RegistryLaws.RemoveKeepsInv | bridge/src/registry.ts:158-173 | removing a session keeps exact totals, limits and distinctness |
| RegistryLaws.RegisterKeepsInv | bridge/src/registry.ts:175-251 | a registration, accepted or refused, keeps all four limits, exact totals and unique names and addresses per connection |
| RegistryLaws.RegisterTotals | bridge/src/registry.ts:244-249 | an accepted registration raises the count by one and the bytes by its size, globally and for its connection |
| RegistryLaws.UnregisterKeepsInv | bridge/src/registry.ts:253-266 | removing a registration keeps the invariant |
| RegistryLaws.UnregisterTotals | bridge/src/registry.ts:258-263 | it lowers the count by one and the bytes by what the registration cost: the clamps at zero are not needed |
| RegistryLaws.EmptyInv | bridge/src/registry.ts:125-136 | an empty registry satisfies the invariant |
| RegistryOutcomes.RegistrationOutcome | bridge/src/registry.ts:175-251 | a registration is taken in exactly if its connection is there, its id is free, no entry of its kind has the same safe name or address, it can be serialised and there is room in all four respects; it is then exposed under the name and address made of its own and its session's parts, and counted; otherwise nothing changes |
| RegistryOutcomes.AnswerIs | bridge/src/registry.ts:175-251 | the answer is that capability, or the reason of the refusal: disconnected, conflict, not serialisable or over a limit, in this order |
| RegistryOutcomes.UnregistrationOutcome | bridge/src/registry.ts:253-266 | what is registered goes and everything else stays, with its cost off the books; anything else changes nothing |
| RegistryOutcomes.RegisterThenUnregister | bridge/src/registry.ts:244-263 | registering and then unregistering gives the same registry back, totals included |
| RegistryOutcomes.SameSessionNames | bridge/src/registry.ts:185-217 | within a session, exposed names and addresses are equal exactly if the safe names and the addresses are |
| RegistryOutcomes.EntriesAreToldApart | bridge/src/registry.ts:93-104 | any two entries share an exposed name exactly if application prefixes, both fingerprints and safe names agree |
| RegistryOutcomes.ListIsComplete | bridge/src/mcp-endpoint.ts:100-108 | a list shows entries of its kind only, none alike in name or address, and one like every entry of the kind |
| Registry.RemoveTotals | bridge/src/registry.ts:158-166 | what a removed session cost is on the books, so the clamps at zero never act |
| Registry.CapabilityRegistry.AddSession | bridge/src/registry.ts:138-156 | refused exactly when a live session has the same origin, application and instance; otherwise added empty |
| Registry.CapabilityRegistry.RemoveSession | bridge/src/registry.ts:158-173 | the connection's session and registrations go, and are returned |
| Registry.CapabilityRegistry.Register | bridge/src/registry.ts:175-251 | the first failing check decides the error and changes nothing; otherwise the capability is stored and counted; both told in terms of the tables |
| Registry.CapabilityRegistry.Unregister | bridge/src/registry.ts:253-266 | a known registration goes and is returned, an unknown one is an error |
| Registry.CapabilityRegistry.All | bridge/src/registry.ts:336-340 | lists every registration of every connection exactly once |
| Registry.CapabilityRegistry.Resolve | bridge/src/registry.ts:275-312 | not found exactly if no connection offers the target, ambiguous exactly if two do, otherwise the one provider |
| Totals.SumOfValues | bridge/src/registry.ts:160-163 | adding up a table's values in any order gives its sum |
| Resolution.OfferedOncePerConnection | bridge/src/registry.ts:185-217 | a connection offers a name of a kind, or an address, at most once |
| Resolution.ResolutionIsExact | bridge/src/registry.ts:292-312 | resolution counts connections: none, one or several |
| Resolution.OrderDoesNotMatter | bridge/src/registry.ts:275-312 | resolution gives the same answer whatever order the tables are walked in |
| Resolution.ListingIsExact | bridge/src/mcp-endpoint.ts:100-108 | a name is on the list exactly if some connection offers it, once, and then resolves or is ambiguous but is never unknown |
| Sequences.UniqueBy | bridge/src/mcp-endpoint.ts:100-108 | keeps the first item for each key, in order |
| Sequences.FirstOfEachIsDistinct | bridge/src/mcp-endpoint.ts:100-108 | the kept items have pairwise different keys and come from the list |
| Names.SafeNameIsSafe | bridge/src/registry.ts:93-96 | a safe name is not empty, fits, uses only permitted characters and starts with a letter or digit; text that is safe already is unchanged |
| Names.PaddingIsDropped | bridge/src/registry.ts:93-96 | whatever stands around the first and the last letter or digit is dropped; text without any is called "unnamed" |
| Names.RunsBecomeOne | bridge/src/registry.ts:93-96 | a run of characters that are not permitted, between two pieces of safe text, becomes one underscore |
| Names.JoinedDetermines | bridge/src/registry.ts:102-104 | a joined name can be read in one way only while prefixes differ in length by less than 35 |
| Names.LongPrefixesCollide | bridge/src/registry.ts:102-104 | at a difference of 35 two different readings exist |
| Names.NamesEqualExactlyWhen | bridge/src/registry.ts:93-104 | two exposed names are equal exactly if prefixes, both fingerprints and normalised local names are; names have at most 128 permitted characters |
| Names.UrisEqualExactlyWhen | bridge/src/registry.ts:106-109 | two exposed addresses are equal exactly if both fingerprints and the original addresses are |
| Tokens.IssueKeepsInv | bridge/src/security.ts:82-93 | issuing keeps the store ordered by expiry and under its cap, and the new token is in it |
| Tokens.ConsumeKeepsInv | bridge/src/security.ts:99-110 | so does an attempt to consume |
| Tokens.OneTimeTokenStore.Issue | bridge/src/security.ts:82-93 | sweeps, evicts the oldest and stores the new token |
| Tokens.OneTimeTokenStore.ConsumeIf | bridge/src/security.ts:99-110 | an unexpired token that the predicate accepts is returned and removed, an expired one is removed, a refused one and every other token stay |
| Tokens.OneTimeTokenStore.RevokeAll | bridge/src/security.ts:112-116 | exactly the accepted tokens go |
| Tokens.OneTimeTokenStore.Sweep | bridge/src/security.ts:118-123 | exactly the expired tokens go |
| Tokens.OneTimeTokenStore.Size | bridge/src/security.ts:125-128 | the number of unexpired tokens, within the cap |
| Tokens.ConsumeMeans | bridge/src/security.ts:99-110 | entry by entry, what an attempt to consume grants, removes and leaves |
| Tokens.RevokeMeans | bridge/src/security.ts:112-116 | entry by entry, what revoking removes and leaves |
| TokenHistory.TokensAreOneTime | bridge/src/security.ts:82-123 | over any operations on a new store, each token yields its own value at most once, only if issued and only before it expires; the cap holds |
| TokenHistory.RunKeepsLedger | bridge/src/security.ts:82-123 | the same from any state in order |
| TokenHistory.SparedTokenIsGranted | bridge/src/security.ts:82-123 | over any operations that do not use up, revoke or displace a token, refused attempts included, an accepting attempt before its expiry is granted its value |
| TokenHistory.RefusedThenGranted | bridge/src/security.ts:99-110 | an unexpired token refused by one attempt is still there, and a later accepting attempt gets its value |
| GatewayLaws.EstablishKeepsInv | bridge/src/browser-gateway.ts:663-726 | beginning a session, or refusing it for a conflict, keeps the three components in agreement and the grants fitting |
| GatewayLaws.DetachKeepsInv | bridge/src/browser-gateway.ts:853-865 | taking a connection away keeps the invariant |
| GatewayLaws.AskKeepsInv | bridge/src/browser-gateway.ts:569-640 | an approval request, admitted or refused, keeps the bounds and distinctness of pending approvals |
| GatewayLaws.ExpireKeepsInv | bridge/src/browser-gateway.ts:642-661 | an expiring request keeps the invariant |
| GatewayLaws.RegrantedMembers | bridge/src/browser-gateway.ts:694-701 | after a session has begun, the grants are those of other sessions and the new one |
| GatewayRuns.ReceiveKeepsInv | bridge/src/browser-gateway.ts:320-567 | any message, well-formed or not, in any phase and on an open or closing socket, keeps the invariant |
| GatewayRuns.ResumeKeepsInv | bridge/src/browser-gateway.ts:538-566 | a resume, whatever its outcome, keeps the invariant |
| GatewayRuns.DecideKeepsInv | bridge/src/browser-gateway.ts:173-214 | an operator decision keeps the invariant |
| GatewayRuns.PreviousIsUnique | bridge/src/browser-gateway.ts:728-737 | at most one connection holds the session that a grant resumes, so the search finds it whatever the order |
| GatewayRuns.ApplicantIsUnique | bridge/src/browser-gateway.ts:174-176 | a request id names at most one connection |
| GatewayRuns.ResolvedIsLive | bridge/src/mcp-endpoint.ts:276-290 | the provider that a target resolves to belongs to a live session, so the call that follows does too |
| GatewayRuns.StepKeepsInv | bridge/src/browser-gateway.ts:97-883 | every step of the Bridge keeps the invariant |
| GatewayRuns.RunKeepsInv | bridge/src/browser-gateway.ts:97-883 | every run keeps it |
| GatewayRuns.EveryReachableStateIsSound | bridge/src/browser-gateway.ts:97-883 | every state reachable from the start satisfies it |
| GatewayTheorems.SoundStatesAgree | bridge/src/browser-gateway.ts:663-761 | spelled out: sockets and registry hold the same sessions, all work belongs to live sessions, session ids are distinct, and a grant agrees with the live session of its id |
| GatewayTheorems.OneGrantPerSession | bridge/src/browser-gateway.ts:694-701 | a session id has at most one resume grant |
| GatewayTheorems.ResumeConflictsExactlyWhen | bridge/src/browser-gateway.ts:538-566 | after the old connection was retired, adding the session conflicts exactly if another session of the same runtime is live, and never if there was an old connection |
| GatewayTheorems.ResumeReplaces | bridge/src/browser-gateway.ts:728-761 | a valid resume of a session that has a connection moves it to the new connection and leaves all other sessions |
| GatewayTheorems.ResumeSucceedsExactlyWhen | bridge/src/browser-gateway.ts:538-566 | a resume establishes a session exactly with a valid token and no other live session of the runtime |
| GatewayTheorems.DetachLeavesNothing | bridge/src/browser-gateway.ts:853-865 | after a close nothing in the Bridge refers to the connection |
| GatewayTheorems.DetachTouchesNothingElse | bridge/src/browser-gateway.ts:750-754 | a close leaves every other connection's socket, registrations, calls, counter and tombstones as they were |
| GatewayTheorems.DetachAbsent | bridge/src/browser-gateway.ts:853-865 | the close event of a connection that has no socket any more does nothing |
| GatewayTheorems.ReplacedCloseDoesNothing | bridge/src/browser-gateway.ts:728-761 | after a resume has replaced a connection, that connection's own close event changes nothing |
| GatewayConnections.LateCloseDoesNothing | bridge/src/browser-gateway.ts:853-865 | nor does it at any later point of any run |
| GatewayTheorems.DetachTwice | bridge/src/browser-gateway.ts:853-865 | repeating a close changes nothing more |
| GatewayTheorems.DetachCommutes | bridge/src/browser-gateway.ts:750-754 | two connections may go away in either order |
| GatewayTheorems.StepRevivesNone | bridge/src/browser-gateway.ts:537-566 | no step gives a session id without a grant to a connection that did not have it, nor makes a grant for it |
| GatewayTheorems.SpentForever | bridge/src/browser-gateway.ts:682-701 | the same over every later run |
| GatewayTheorems.LeavingForGoodSpends | bridge/src/browser-gateway.ts:446-451 | a disconnect that rules out resuming removes the last grant of its session and shuts its socket |
| GatewayTheorems.RefusedResumeSpends | bridge/src/browser-gateway.ts:682-690 | so does a resume that is refused for a conflict, and it changes no session |
| GatewayConnections.HandshakeOutcome | bridge/src/browser-gateway.ts:320-357 | a message on a connection without a session gives it a session, puts it before the operator or shuts it; it gets the session exactly if welcome and shown an unexpired grant or token that fits, and the session is the one asked for, with one grant to resume it |
| GatewayConnections.PairSucceedsExactlyWhen | bridge/src/browser-gateway.ts:554-566 | pairing establishes a session exactly with a valid token for the origin and no live session of the runtime |
| GatewayConnections.ApprovalOutcome | bridge/src/browser-gateway.ts:173-214 | a decided request is no longer pending; it ends in a session for its applicant exactly if approved in time on an open socket while that application instance is not connected, and otherwise in a shut socket; an expired request likewise |
| GatewayConnections.ResumeRoundTrip | bridge/src/browser-gateway.ts:538-566 | the token of a welcome, used before it expires on a new connection, carries the same session over, whatever happens in between that does not use it up, such as refused attempts of others; exactly if no other session of the runtime is live |
| GatewayConnections.PairingRoundTrip | bridge/src/browser-gateway.ts:143-152 | an issued pairing token, used in time from its origin, lets a browser in exactly if that application instance is not connected already, whatever happens in between that does not use it up, refused attempts of other origins included; it is then used up |
| GatewayConnections.HeldGrantIsGood | bridge/src/security.ts:99-110 | an unexpired grant in the store is granted to whoever shows its token and fits it |
| GatewayTokens.TokenStays | bridge/src/security.ts:99-110 | a step that is not the use of a pairing token by its own origin, comes before it expires and does not issue into a full store leaves it in the store |
| GatewayTokens.GrantStays | bridge/src/browser-gateway.ts:538-566 | a step that is neither the use of a grant by its own browser nor the end of its session, comes before it expires and begins no session with a full store leaves it in the store |
| GatewayTokens.TokenSurvives | bridge/src/security.ts:99-110 | the former over runs |
| GatewayTokens.GrantSurvives | bridge/src/browser-gateway.ts:538-566 | the latter over runs |
| GatewayConnections.SocketLife | bridge/src/browser-gateway.ts:247-270 | over every run a connection that is gone stays gone, a closed socket stays closed, and a connection has one session in its life |
| GatewayConnections.MessagesStayInTheirSession | bridge/src/browser-gateway.ts:365-467 | nothing a browser sends within its session touches another connection's socket, registrations or calls |
| GatewayFrames.StepTouchesNoOther | bridge/src/browser-gateway.ts:97-883 | every step of the Bridge leaves the socket, registrations and calls of each connection that it is not about exactly as they were |
| GatewayOutcomes.RegisterOutcome | bridge/src/browser-gateway.ts:371-373 | a `register` message of a live session puts its registration into the registry, as that session's and under its own exposed name, exactly if nothing in the tables speaks against it, and otherwise changes nothing |
| GatewayOutcomes.UnregisterOutcome | bridge/src/browser-gateway.ts:374-387 | an `unregister` message takes exactly that registration away, or changes nothing |
| GatewayOutcomes.RegisteredIsFound | bridge/src/registry.ts:275-312 | a registration that was taken in is what its exposed name or address leads to, unless another connection offers the same |
| GatewayOutcomes.UnregisteredIsUnknown | bridge/src/registry.ts:253-266 | once it is unregistered, its name or address leads nowhere |
| GatewayOutcomes.ForeignMessageShuts | bridge/src/browser-gateway.ts:358-368 | a message that names another session, or does not belong in a session, has its socket shut and changes nothing else |
| GatewayOutcomes.UntimelyMessageShuts | bridge/src/browser-gateway.ts:347-357 | so does any message while a request waits for the operator, and any first message other than `connect` |
| GatewayOutcomes.IdleMessageChangesNothing | bridge/src/browser-gateway.ts:431-457 | a heartbeat, an error that names no call, and a message that only the Bridge sends change nothing |
| GatewayOutcomes.LeavingToResume | bridge/src/browser-gateway.ts:446-451 | a disconnect that means to resume shuts the socket and keeps session, registrations, calls and grant |
| GatewayOutcomes.WelcomeExactlyWhen | bridge/src/browser-gateway.ts:470-534 | a handshake goes on exactly with the socket's own origin, envelope version 1.1.0 or 1.0.0, one of the two among the supported ones, all six capabilities, and 1.1.0 if the operator is to be asked |
| GatewayOutcomes.AskOutcome | bridge/src/browser-gateway.ts:569-640 | a request is put before the operator, with a deadline one pairing lifetime ahead, exactly if fewer than max(1, floor(max / 2)) are pending, fewer than three of its origin and none of the same application instance; else its socket is shut |
| GatewayOutcomes.ApprovalRoundTrip | bridge/src/browser-gateway.ts:173-214 | a browser that asks and is approved in time has its session, exactly if its application instance is not connected otherwise |
| GatewayOutcomes.CallOutcome | bridge/src/mcp-endpoint.ts:413-428 | a call of a target with one provider is accepted exactly if there is room and the caller is there; it is then held for that provider, expects the kind that the provider registered, and is sent to its connection |
| GatewayOutcomes.NoSoleProvider | bridge/src/mcp-endpoint.ts:276-290 | a target without a provider, or with several, reaches nobody |
| GatewayOutcomes.AnswerOutcome | bridge/src/browser-gateway.ts:393-437 | a result, an error or a cancellation from the browser that a call was made to settles it, with the verdict that kind and code decide |
| GatewayOutcomes.CallRoundTrip | bridge/src/broker.ts:99-104 | tool, resource or prompt: a call that is still waiting after any run is settled with exactly the result that the provider's browser sends, if that is of the kind it registered |
| GatewayOutcomes.GiveUpOutcome | bridge/src/broker.ts:122-144 | a timer or an aborted caller rejects the call, tells its browser and leaves a tombstone |
| GatewayOutcomes.StopOutcome | bridge/src/browser-gateway.ts:272-287 | stopping rejects every pending call, forgets every tombstone and shuts every socket |
| GatewayWire.StepOnBroker | bridge/src/browser-gateway.ts:320-567 | every step of the Bridge is one possible step of its broker, or none |
| GatewayWire.BridgeRunsAreBrokerRuns | bridge/src/browser-gateway.ts:97-883 | the broker inside a Bridge makes a possible run of its own, so all results about broker runs hold in it |
| GatewayWire.StepProjects | bridge/src/browser-gateway.ts:247-270 | for a connection with a session, a step of the Bridge is an enabled step of the two-party model or none, and both agree on the broker and the socket afterwards |
| GatewayWire.JointRunsAreWireRuns | bridge/src/browser-gateway.ts:97-883 | any run of the Bridge and one browser is a run of the two-party model for that connection |
| GatewayWire.NewConnectionIsFresh | bridge/src/browser-gateway.ts:293-318 | a connection without a session has no work |
| GatewayWire.WelcomedIsFresh | bridge/src/browser-gateway.ts:663-726 | the step that gives a connection its session leaves it without work: a two-party run can start |
| GatewayWire.NoSessionIsOverloaded | packages/web/src/browser-mcp.ts:1497-1507 | from the Bridge's start, for every session and every run, an `invoke` that is next on the wire finds room in the browser and is new to it |
| GatewayWire.LostInTheBridgeExactlyWhenDropped | packages/web/src/browser-mcp.ts:1553-1603 | in the whole Bridge too, a held call of a session whose socket is up at both ends is nowhere exactly if its browser dropped it |
| Gateway.BrowserGateway.constructor | bridge/src/browser-gateway.ts:118-141 | starts with no sockets and empty token stores |
| Gateway.BrowserGateway.Accept | bridge/src/browser-gateway.ts:238-318 | accepted exactly if the connection limit leaves room; the new socket is open, of the given origin, without session or request, and no other socket changes |
| Gateway.BrowserGateway.OnMessage | bridge/src/browser-gateway.ts:320-468 | performs exactly the specified step for a received message |
| Gateway.BrowserGateway.OnSessionMessage | bridge/src/browser-gateway.ts:365-467 | performs the step of a message within a session; an error goes back exactly for a refused registration, an unknown one taken back, an unmatched result or cancellation, and a message that only the Bridge sends |
| Gateway.BrowserGateway.OnRegistration | bridge/src/browser-gateway.ts:763-787 | passes registrations on to the registry; an error exactly if the tables speak against it |
| Gateway.BrowserGateway.OnAnswer | bridge/src/browser-gateway.ts:393-437 | passes results, errors and cancellations on to the broker; an error goes back exactly for a result or cancellation that no call or tombstone of this connection waits for |
| Gateway.BrowserGateway.Connect | bridge/src/browser-gateway.ts:470-536 | checks origin, version and capabilities, then follows the kind of credentials |
| Gateway.BrowserGateway.Resume | bridge/src/browser-gateway.ts:538-566 | consumes the grant, retires the old connection and establishes the session |
| Gateway.BrowserGateway.Pair | bridge/src/browser-gateway.ts:554-566 | consumes the pairing token and establishes a new session |
| Gateway.BrowserGateway.EstablishSession | bridge/src/browser-gateway.ts:663-726 | established exactly if the registry has no conflict; the old grants of the session go and one new one is issued |
| Gateway.BrowserGateway.RetirePreviousConnectionForResume | bridge/src/browser-gateway.ts:728-761 | takes the old connection of the session away, if there is one |
| Gateway.BrowserGateway.RequestPairingApproval | bridge/src/browser-gateway.ts:569-640 | the request becomes pending, or the socket is shut because a limit is reached or the same runtime already asked |
| Gateway.BrowserGateway.ExpirePairingApproval | bridge/src/browser-gateway.ts:642-661 | the request goes and the socket is shut |
| Gateway.BrowserGateway.DecidePairingApproval | bridge/src/browser-gateway.ts:173-214 | answers true exactly if there was such a request, in time and on an open socket, and performs the decision |
| Gateway.BrowserGateway.OnApprovalTimer | bridge/src/browser-gateway.ts:610-614 | performs the expiry step |
| Gateway.BrowserGateway.OnClose | bridge/src/browser-gateway.ts:853-865 | takes the connection away, whatever state it is in |
| Gateway.BrowserGateway.OnFailure | bridge/src/browser-gateway.ts:306-310 | only the socket is shut; everything else waits for the close event |
| Gateway.BrowserGateway.IssuePairingToken | bridge/src/browser-gateway.ts:143-152 | one more pairing token for the origin |
| Gateway.BrowserGateway.CallCapability | bridge/src/mcp-endpoint.ts:276-290 | resolves and invokes in one step; succeeds exactly if the target has one provider, the broker has room and the caller is there, and the call is then held for that provider with the kind it registered |
| Gateway.BrowserGateway.OnCallTimer | bridge/src/broker.ts:122-131 | performs the timeout step of a call |
| Gateway.BrowserGateway.OnAbort | bridge/src/broker.ts:133-144 | performs the step of an aborted caller |
| Gateway.BrowserGateway.Close | bridge/src/bridge.ts:199-201 | ends every call and shuts every socket |
| Gateway.BrowserGateway.CloseAllSockets | bridge/src/browser-gateway.ts:272-287 | the loop shuts every socket and changes nothing else |
| Semver.ComparePrerelease | packages/protocol/src/negotiation.ts:41-55 | the index loop computes the lexicographic comparison of the identifier lists |
| Semver.VersionFlip | packages/protocol/src/negotiation.ts:57-64 | the comparator is antisymmetric, and zero exactly for versions that differ at most in build metadata |
| Semver.VersionTransitive | packages/protocol/src/negotiation.ts:57-64 | the comparator is transitive, so sorting with it is meaningful |
| Semver.TextIsNumeric | packages/protocol/src/negotiation.ts:31-39 | between digit strings of equal length, text order is numeric order |
| Semver.LongerIsLarger | packages/protocol/src/negotiation.ts:34-36 | without leading zeros, more digits is a larger number |
| Semver.IdentifierComparison | packages/protocol/src/negotiation.ts:31-39 | identifiers compare as section 11 of Semantic Versioning 2.0.0 says, for numbers of any size |
| Semver.ComparatorIsPrecedence | packages/protocol/src/negotiation.ts:31-64 | the comparator is the precedence of section 11 |
| VersionText.ParsesExactlyTheGrammar | packages/protocol/src/negotiation.ts:11-29 | a text parses exactly if it is the rendering of grammatical parts with safe integers, and has one such reading only |
| VersionText.TakeApartOfRender | packages/protocol/src/negotiation.ts:11-12 | taking apart what was rendered gives the parts back |
| VersionText.RenderOfTakeApart | packages/protocol/src/negotiation.ts:11-12 | rendering what was taken apart gives the text back |
| Sorting.SortIsStable | packages/protocol/src/negotiation.ts:80 | the sort is a sorted, stable rearrangement for every total preorder |
| Negotiation.NegotiatesTheHighest | packages/protocol/src/negotiation.ts:71-82 | the chosen version is listed verbatim by both peers, none that they share ranks above it, among equals it is the last of the remote list, and there is one exactly if they share any |
| Negotiation.EitherPeerAgrees | packages/protocol/src/negotiation.ts:66-82 | exchanging the two lists changes the choice at most in build metadata |
| Negotiation.NewerIsChosen | packages/protocol/src/negotiation.ts:66-82 | with 1.1.0 and 1.0.0 supported, the newer is chosen if the peer lists it, else the older if it lists that, else none |
| Base64.Base64Value | packages/protocol/src/validation.ts:158-179 | accepts exactly the canonical encodings of byte sequences under sections 3.5 and 4 of RFC 4648, up to the length limit |
| Base64.Characterised | packages/protocol/src/validation.ts:158-179 | the validator's test is exact, and encoding undoes decoding on all it accepts |
| Base64.DecodeOfEncode | packages/protocol/src/validation.ts:158-179 | decoding undoes encoding for every byte sequence |
| Base64.EncodeUrlInjective | bridge/src/registry.ts:108 | the URL form of section 5 of RFC 4648 determines the bytes |
| QuotaModel.Utf8OfParts | site/src/runtime/storage.ts:137-138 | the UTF-8 length of a text is that of its parts, wherever it is cut, except inside a surrogate pair |
| QuotaModel.Utf8OfUnits | site/src/runtime/storage.ts:137-138 | a code unit by itself takes one to three bytes and a surrogate pair four |
| QuotaModel.EvictsTheShortestPrefix | site/src/runtime/storage.ts:331-342 | evicting so many of the oldest makes room exactly from the computed number on |
| QuotaModel.EntryFitsAlone | site/src/runtime/storage.ts:115-138 | a new entry alone is far below the quota |
| QuotaModel.UsageIsReal | site/src/runtime/storage.ts:176-181 | the usage of a list of all entries is the size and byte total of the store |
| QuotaModel.ByAgeIsPreorder | site/src/runtime/storage.ts:325-328 | time first and key second is a total preorder whenever text comparison is |
| QuotaModel.OwnStoreIsNeverCleared | site/src/runtime/storage.ts:250-281 | a store that only this program has written to is never found too large, and a scan throws nothing of it away |
| SafeValues.EvictsTheOldest | site/src/runtime/storage.ts:325-342 | whatever is evicted was written before everything that stays, or at the same time and under a key that does not come after |
| SafeValues.EvictsNoMoreThanNeeded | site/src/runtime/storage.ts:331-342 | the store keeps to 64 entries and 256 KiB, and the last entry that went would not have fitted back in |
| SafeValues.WriteReplaces | site/src/runtime/storage.ts:330-344 | the new entry is stored, the reported keys are gone, and every other sound record is as it was |
| SafeValues.OutcomeIsListed | site/src/runtime/storage.ts:330-344 | the new entry and the newest old ones are all that the store then holds, within 64 entries and 256 KiB |
| SafeValues.Storage.Scan | site/src/runtime/storage.ts:250-297 | a store over 256 records or 512 KiB is cleared; otherwise exactly the sound records stay and are listed once each |
| SafeValues.Storage.Put | site/src/runtime/storage.ts:299-359 | refused exactly for an invalid entry; otherwise the new entry is stored, the oldest go, no more of them than have to and those that are reported, everything else is as it was, usage is that of the store, and the abort branch is never taken |
| SafeValues.Storage.Evict | site/src/runtime/storage.ts:329-344 | the loop evicts exactly the computed number and never reaches the new entry |

## Left out

- HTTP, TLS and WebSocket plumbing, upgrade request checks, the MCP SDK, the CLI, subscriptions and
  change notifications: input and output, and libraries that are not part of this model.
- The heartbeat's own bookkeeping: its closing of a silent socket is one of the reasons why a socket
  may fail at any time.
- Messages from the Bridge to a browser other than `invoke` and `cancel`, and their contents; error
  replies are kept only as an answer that says whether one is sent.
- Schema validation of messages other than Base64: a message is given in parsed form or as malformed.
- The allow-list of origins: it only grows and no modelled decision reads it; origins are compared as
  normalised text.
- Negotiated capabilities of a session: every established session has all known ones, so the check
  before a registration never refuses.
- Timestamps, durations, messages and details in the request history; logging and redaction.
- Unicode compatibility normalisation before a name is made safe: names are given in normal form.
- The digest itself, random generation, and timing-safe comparison.
- Aliasing between a replaced connection's socket record and its later events: such a record is no
  longer reachable through the gateway's table, and its events find nothing.
- The order of JavaScript tables where only a search with at most one hit, or a walk whose order does
  not matter, depends on it; both facts are proved.
- Interleaving of promise continuations within the browser client, its reconnecting and its session
  store.
- Checks on the contents of stored values (forbidden names, depth, number of items) are one verdict
  that is given to a write; IndexedDB transactions, schema repair, reading and deleting single values.
- Broker.InvocationBroker.Invoke: the payload of the operation, its timeout value and the kind-specific
  item count of a result are given, not computed.
- TwoParty.NoRunEndsInRefusal: a `cancel` that could not be serialised or did not fit on an open socket
  is not modelled; the source's `cancel` messages are short.
