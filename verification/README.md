# Docker Spaces: the slot broker and the HTTP head rewriter

Docker Spaces is a proxy that runs containers on demand. A client's request names a job
(`/x:registry:repository:tag:port/...` or `/y:...`); the broker finds or starts a container for it; the
proxy then forwards the connection, rewriting every request head on its way to the worker. This project
models the two hard parts of that program in Dafny and proves what they promise.

**The slot broker** (`broker.go`, with its clients in `broker-resolver.go` and its runners in
`docker-runner.go`).

* `BrokerModel` holds the slots as values and one function for every step a pass makes on them.
  `BrokerProtocol` is the transition system: the broker's pass is cut into the steps it takes between two
  looks at what others sent it, and clients and runners act anywhere in between; runners start on their own
  and may announce themselves early or late. Where a step sends to several queues, `BrokerPieces` takes it
  apart and shows that whatever others do between its sends, and however long a send waits for room, comes to
  the same as the whole step followed by what they did. `BrokerInvariants`, `BrokerLinks`, `BrokerStranded`,
  `BrokerConservation` and `BrokerPlaces` prove what every step keeps; `BrokerRuns` lifts this to runs of any
  length and any interleaving. `BrokerCleared` has the last two phases of a pass, and `BrokerOrigins` where the
  things come from that runners and clients are told.
* `Broker` is the program in its own form: slot objects whose fields are updated in place by the seven
  phases. Every method is tied to the functions on values (`Abs()`). `BrokerSteps.TakeStep` shows that, at
  every point of a pass and from whatever state others have left the queues in, the next piece of the
  object's code is a broker step of the transition system. Map iteration is an arbitrary order.
* Five guarantees fail under conditions the code itself creates. For each the exact condition is proved, in
  both directions and for all runs, and a complete run is given, from the state that `NewBroker` leaves and
  with clients and runners that follow the protocol, in which it happens.
  * Exclusive links fail exactly when the timeout sweep clears a target that a running x-type source is
    linked to (`BrokerCounterexamples`), if no runner is heard too late.
  * More than one start is in flight on a runner exactly when its first message is read after it was told to
    start (`BrokerLateRunner`), if the sweep spares linked targets; `BrokerRuns.ExclusiveAndOneStartIff` is the
    exact condition for both together.
  * Grants and readers get out of balance exactly when a waiter meets two matching targets in one visit of
    the matching loop, which does not stop at its first match (`BrokerDoubleGrant`). No slot is lost by that
    alone.
  * A slot is in two places, or in the pool twice, exactly when the broker reads a Release on a slot that
    neither waits nor runs, which the guard of its Release branch lets through. `BrokerOverflow` carries the
    run of `BrokerDoubleGrant` on until the pool holds more slots than there are, where the channel of free
    slots blocks the broker.
  * A promised waiter is stranded exactly when the sweep, a Release with kill, or a runner's first message
    clears the type it was promised. `BrokerStarvation` also shows what that comes to: the start loops count
    unlinked waiters only, so it is never served unless someone asks for its type anew.
* Channels have a capacity, here any number. Target queues are proved to stay below that of the code. The
  replies of a source slot stay within it, as long as no waiter meets two targets, exactly when the broker
  never answers a slot on which more clients wait (`BrokerReplies`); a full queue has a reader then, so the
  broker is only kept waiting. In general a visit of the matching loop can be brought to its end exactly when
  what is queued for the waiter and what it is about to be granted exceed the capacity by no more than there
  are clients to read (`BrokerVisit`). `BrokerBlocked` is a run in which they do and the broker stops for
  ever: with the capacity of 3, five clients of one x-type and five runners. Up to there every send of the run
  finds room (`BrokerRoom`).
* A job on port 3 has no client that holds its target. Once up it runs on for the release duration exactly
  when no start round of that time falls on its target as the one that has been free longest
  (`BrokerDisplaced`); `BrokerReplies` has a run in which one does at once.

**The streaming HTTP head rewriter** (`http-resolver.go`, `http-parser.go`, the stream adapters and copy
loops of `proxy.go`).

* `Text`, `HttpHeaders` and `HttpParser` model parsing and printing of heads (sections 3 to 5 of RFC 9112 as the
  code reads them): round trips, and stability of every parse decision when more bytes arrive. What the readers
  of numbers, names and heads accept is stated without their functions, character by character.
* `HttpFraming` says what becomes of a whole stream: a recursive function, message by message (sections 6 and
  7.1 of RFC 9112, and the switch to another protocol of section 15.2.2 of RFC 9110).
* `HttpSteps` has the steps of the reader on values: what a call does to its buffers, its source and what
  callers were given, and why the bytes always add up. `HttpReader` is the reader in its own form, with its
  four states and two buffers, every method an equation with a step. Whatever the source returns and whatever
  buffers the caller brings, what has been delivered is a prefix of the rewrite of the whole stream; between
  messages it is exactly the messages so far. Output that does not fit the caller's buffer before the next
  head is handed out later exactly when that head is buffered in whole; otherwise it is lost.
* `Proxy` covers the choice of a target and the copy loops in both directions, up to the end-to-end result: the
  worker is sent a prefix of the rewrite of everything the client sends, and the client a prefix of what the
  worker sends; and without an error each is sent all of it within a number of rounds that is computed.
  `ProxySignals` covers how a connection ends and that its slot is then released exactly once. `BrokerResolver`
  covers the dynamic path and ties the two halves together: the request that chose the job is the first one the
  worker is sent.

Bytes are modelled by characters with the same code. A queue is a sequence. The clock is a parameter of
every pass. Where the documentation promises that x-type jobs run one at a time on a
container (`README.md:46`) and that jobs on port 3 run for the release duration (`README.md:51`), the code is
followed: for each promise the exact condition under which it is kept is proved, and a run that breaks it.

## Model

| member | source | states |
|---|---|---|
| BrokerRuns.ExclusiveIff | broker.go:597-604 | When no runner is heard too late, running x-type sources hold distinct running targets of their own types throughout a run if and only if no sweep of the run clears a target such a source is still linked to. |
| BrokerRuns.ExclusiveAndOneStartIff | broker.go:356-395 | Over any run, links are exclusive and at most one start per runner is in flight throughout if and only if no sweep clears a target a running x-type source is linked to and no runner's first message is read after it was told to start. |
| BrokerRuns.OneStartIff | docker-runner.go:393 | When the sweep spares linked targets, every runner has at most one start in flight throughout a run if and only if no runner's first message is read after it was told to start. |
| BrokerRuns.OneStartInFlight | broker.go:509-516 | In such a run, for every target, queued Start messages, a busy runner and queued replies add up to one when the target is Starting and to nothing otherwise. |
| BrokerRuns.TargetQueuesStayShort | broker.go:137-140 | In such a run a target is told to start only while nothing is queued for it; it never has more than one message to read and never more than two unread ones, so the capacity of 3 is never reached. |
| BrokerRuns.YLinksIff | broker.go:404-421 | With exclusive links kept, running y-type sources stay linked to running targets of their type if and only if no sweep clears such a target. |
| BrokerRuns.YSourcesShare | broker.go:404-421 | All running sources of one y-type are linked to one and the same running target. |
| BrokerRuns.OneContainerPerY | README.md:47 | In every reachable configuration at most one target carries a given y-type, and a y-type waiter meets at most one matching target. |
| BrokerRuns.NoStrandedIff | broker.go:283-304 | A waiter that was promised a target keeps one of its own type over a whole run if and only if the run has no sweep, no Release with kill and no first message of a runner for a target some waiter was promised. |
| BrokerRuns.ConservationIff | broker.go:423-440 | With clients that follow the protocol, the grants of every slot (queued, in use or on their way back) match its state and every reply has its reader over a whole run if and only if no waiter of the run meets two matching targets in one visit. |
| BrokerPlaces.PlacedIff | broker.go:283-286 | With clients that follow the protocol, every source slot is in exactly one place (pool, held, asked for, waiting or running) over a whole run if and only if the broker never reads a Release on a slot that neither waits nor runs. |
| BrokerPlaces.PlacedStep | broker.go:274-352 | One step of the broker, of a client or of a runner keeps every slot in one place exactly when it is no such Release. |
| BrokerPlaces.PoolNeverOverflows | broker.go:215-225 | Slots in one place each are in the pool at most once, so the pool never exceeds the capacity of its channel. |
| BrokerPlaces.OneHitKeepsPool | broker.go:423-440 | In a run in which no waiter meets two targets every slot stays in one place, no Release is stale and the pool stays within its capacity. |
| BrokerOverflow.PoolOverflows | broker.go:284-286 | A complete run of three clients and two runners that follow the protocol at whose end the pool holds more slots than there are, one of them twice. |
| BrokerRuns.PassEndsWorkConserving | broker.go:399-441 | At the end of every pass no source waits for a type that a Free target carries, and no y-type source while a Free or Run target carries its type, through all later phases. |
| BrokerRuns.PassCoversWaiters | broker.go:443-532 | When the start loops are done, either no target is Free or every unlinked waiting type is carried by some target. |
| BrokerCleared.UnusedAreFreed | broker.go:581-594 | Over any run, every target that phase six has passed in this pass, and every target during the sweep, that runs a y-type has a running source of that type: what nobody uses is free. |
| BrokerCleared.FreeUnusedEffect | broker.go:581-594 | Phase six changes a target if and only if it runs a y-type that no running source has, and then only its state, to Free, and its time, to now. |
| BrokerCleared.TimedOutAreCleared | broker.go:597-604 | Over any run, no target that the sweep has passed in this pass has run for longer than the release timeout. |
| BrokerCleared.SweepEffect | broker.go:597-604 | The sweep changes a target if and only if it has run for longer than the release timeout: it becomes Free, without a type, and the next to be started. |
| BrokerCleared.WaitedIff | broker.go:557 | A slot has waited long enough for a copy if and only if more than the whole seconds of four broker sleeps have passed. |
| BrokerCleared.WaitCountIs | broker.go:449-453 | The count of a type is the number of unlinked waiters of the type. |
| BrokerCleared.MostWait | broker.go:487-495 | No type that no target carries has more unlinked waiters than the one a start settles on. |
| BrokerOrigins.AcquireIsKept | broker.go:305-318 | Reading an Acquire makes its slot an unlinked waiter for the type and the container that the message names, from now on, and changes nothing else. |
| BrokerOrigins.ReleaseSetsFree | broker.go:283-304 | Reading a Release sends its slot to the end of the pool; of a running x-type it sets the linked target free, keeping its type unless the container is to be killed. |
| BrokerOrigins.RunnerIsHeard | broker.go:364-390 | What a Started, Free or Error message makes of its target's state, time, type and address. |
| BrokerOrigins.WaitsForWhatWasAsked | broker.go:305-318 | Over any run, a slot waits for a type and a container, with its port and environment, that some client has asked for on that slot. |
| BrokerOrigins.StartsWhatWasAsked | broker.go:509-516 | Over any run, whatever a runner is sent is a Start for a container that some client has asked for with the very type its target is given. |
| BrokerOrigins.AddressWasAnnounced | broker.go:368-373 | Over any run, the address a client is told is one that some runner has announced, or none. |
| BrokerRuns.PassEnds | broker.go:443-578 | Every broker step within a pass uses up one of a computed number of steps left, whatever clients and runners do: both start loops and the pass end. |
| BrokerRuns.BrokerNeverStuck | broker.go:487-495 | Whatever the sizes-consistent configuration, the broker has a next step; a most requested type exists whenever its loop needs one. |
| BrokerRuns.AlwaysAt | broker.go:264-612 | Slot shape, single carriers of y-types, work conservation and coverage hold at every point of every run, without conditions. |
| BrokerConservation.ConservedStep | broker.go:274-352 | One step of the broker, of a client or of a runner keeps grants and readers in balance exactly when it does not let a waiter meet two targets. |
| BrokerConservation.ConservedMatchIff | broker.go:424-439 | The matching step keeps grants and readers in balance if and only if the visited waiter has at most one hit. |
| BrokerConservation.ConservedInit | broker.go:219-224 | The state NewBroker leaves is in balance, with every slot in the pool once. |
| BrokerLinks.ReleaseFreesOwnTarget | broker.go:283-304 | With exclusive links, a Release changes a target only if it is the releasing source's own running target, and no one else holds it. |
| BrokerLinks.SweepKeepsLinksIff | broker.go:597-604 | A sweep of one target keeps the links of running sources if and only if it spares the targets they are linked to. |
| BrokerLinks.CoreStep | broker.go:356-395 | Links, their distinctness and one-start-in-flight are kept together by every step whose sweep spares linked targets and that reads no late first message. |
| BrokerLinks.OneStartStepIff | broker.go:356-395 | Given exclusive links, a step keeps one-start-in-flight if and only if it does not read the first message of a runner that was told to start already. |
| BrokerStranded.NoStrandedStepIff | broker.go:597-604 | One step keeps every promised waiter's target of its type if and only if it is not one of the three clearing branches applied to a promised target. |
| BrokerInvariants.SharedYStep | broker.go:455-467 | No step gives a y-type to a second target. |
| BrokerInvariants.SharedYOneHit | broker.go:404-421 | With single carriers, a y-type waiter meets at most one target. |
| BrokerInvariants.WorkConservingStep | broker.go:399-441 | What the matching phase has settled below its position stays settled through every later step of the pass and every move of clients and runners. |
| BrokerInvariants.CoveredStep | broker.go:443-532 | Coverage holds on leaving the first start loop and is kept until the end of the pass. |
| BrokerInvariants.MostRequestedExists | broker.go:487-495 | Whenever some type is waited for and carried by no target, a type with a maximal count exists. |
| BrokerInvariants.StartUsesFree | broker.go:509-532 | Every start uses up exactly one Free target: the measure of both start loops. |
| BrokerInvariants.ShapeStep | broker.go:283-304 | No step leads to the nil link that a Release of a running slot would follow. |
| BrokerModel.FailWaitersEffect | broker.go:377-386 | A start failure fails exactly the waiters of that target's type; only they join the pool, each told once. |
| BrokerModel.MatchTouches | broker.go:424-439 | The matching loop of one source changes exactly the matching targets and no other source. |
| BrokerModel.MatchServes | broker.go:424-439 | A waiter gets one Acquired per matching target, in index order, and ends up linked to the last. |
| BrokerModel.Hits | broker.go:424-426 | The matching targets: all of them and nothing else, in index order. |
| BrokerModel.OldestFree | broker.go:469-477 | The first among the Free targets with the smallest time, or none if none is Free. |
| BrokerModel.FirstWaiter | broker.go:499-505 | The first source that waits for the type, linked or not. |
| BrokerModel.WaitCounted | broker.go:449-453 | A type's count is positive exactly when some unlinked source waits for it. |
| BrokerModel.OldestWaiterIsOldest | broker.go:538-545 | The source chosen for a copy is an unlinked x-type waiter that has waited at least as long as any other. |
| BrokerModel.OldestRunnerIsOldest | broker.go:547-555 | The target chosen for a copy has been free at least as long as any other. |
| BrokerRefinement.PassIsRun | broker.go:270-611 | Every undisturbed pass of the broker class is a sequence of broker steps of the transition system. |
| BrokerSteps.TakeStep | broker.go:270-611 | At every point of a pass and from whatever state clients and runners have left the slots in, the next piece of the broker object's code is an enabled broker step of the transition system, with the same slots, place in the pass and clock after it. |
| BrokerRefinement.NewBrokerIsInit | broker.go:214-238 | What NewBroker builds is where runs start, whichever runners have announced themselves. |
| BrokerCounterexamples.SweepTakesContainer | broker.go:597-604 | A complete run of one client and one runner in which the sweep clears the container under a running client. |
| BrokerDoubleGrant.TwoGrantsForOneWaiter | broker.go:423-440 | A complete run of two clients and two runners that follow the protocol in which one waiter is told Acquired twice, for two containers, and grants no longer match; every slot is still in one place. |
| BrokerLateRunner.LateRunnerStrandsClient | main.go:195-230 | A complete run of one client and a runner slower than the broker: it is told to start before it has spoken, its first message takes the target back with the start still under way, and the client waits for ever. |
| BrokerStarvation.ForgottenForEver | broker.go:449-453 | In any run, a waiter whose type no target carries and no unlinked source asks for keeps its slot unchanged for ever, unless someone asks for the type anew or sends to its slot. |
| BrokerStarvation.WaiterIsForgotten | broker.go:597-604 | A complete run of two clients and one runner that ends with such a waiter: its promised container went to an earlier slot and was then swept. |
| BrokerReplies.RepliesHaveReaders | broker.go:137-145 | In a run of clients that follow the protocol and meet at most one target each, a slot never has more unread replies than clients that wait for one, and one of them can read whenever there is something to read. |
| BrokerReplies.RepliesAdded | broker.go:356-578 | For every broker step and every source slot, exactly how many replies the step adds to its queue: one per matching target for the waiter it visits, one for a waiter whose start failed or whose container on port 3 is started, none otherwise. |
| BrokerReplies.ChannelIff | broker.go:137-145 | In such a run, whatever the capacity, the replies of every source slot stay within it throughout if and only if the broker never answers a slot on which more clients wait. |
| BrokerReplies.UnreadRepliesPileUp | broker.go:137-145 | For every capacity and every number up to it, a complete run of clients and a runner that follow the protocol, with room in every queue at every point, at whose end that many replies are unread on a slot the broker is about to answer: at the capacity itself it finds the queue full. |
| BrokerPieces.VisitIsStep | broker.go:424-439 | A visit to a waiter, target by target, with clients and runners acting in between and every send waiting for room, ends as the one step of the system followed by what they did. |
| BrokerPieces.ErrorIsStep | broker.go:377-390 | The same for the reading of a runner's error, waiter by waiter. |
| BrokerPieces.NewStartIsStep | broker.go:509-525 | The same for a start of the first loop and the message that sends its client back. |
| BrokerPieces.CopyIsStep | broker.go:557-573 | The same for a start of the second loop. |
| BrokerVisit.EveryVisitEndsIff | broker.go:424-439 | In a run of clients that follow the protocol and without a stale Release, a visit to a waiter can be brought to its end if and only if its queued replies and its matching targets together exceed the capacity by no more than the clients that wait on the slot; otherwise nothing that clients and runners do ever ends it. |
| BrokerVisit.OneHitVisitEnds | broker.go:137-145 | As long as no waiter has met two targets, every visit to a waiter that meets one can be brought to its end, however full its queue. |
| BrokerBlocked.VisitBlocksForEver | broker.go:423-440 | For every capacity, from any initial state with two more slots and announced runners than that, a complete run of clients and runners that follow the protocol, within capacity at every point, to a visit that can never be brought to its end. |
| BrokerReplies.Port3IsReplaced | README.md:51 | A complete run, within the capacity of the channels, in which a container on port 3 is up, its runner has nothing else to do and, with no time passed, its target is told to start another job. |
| BrokerDisplaced.UndisturbedIff | README.md:51 | In any run, from the moment the broker reads that a container is up until the release timeout later, its runner is sent no Start if and only if no step of that time is a start round that is due while this target is Free and has been so longest. |
| BrokerDisplaced.JobRunsOnIff | README.md:51 | If one start per runner is in flight then, the runner has nothing to read and nothing to start all that time on the same condition. |
| BrokerDisplaced.DisplacesIff | broker.go:469-576 | A step of the system sends something to a runner if and only if it is such a start round for its target, and then it sends one Start. |
| BrokerDisplaced.DisplacedIsReplaced | broker.go:443-576 | In every reachable configuration such a step gives the target another type: what it carried is lost. |
| Broker.Broker.constructor | broker.go:214-238 | Builds the given numbers of free slots, all source slots pooled; zero sleep and timeout are replaced by their defaults. |
| Broker.Broker.GetSourceSlot | broker.go:241-245 | Takes the oldest slot of the pool and nothing else. |
| Broker.Broker.GetTargetSlot | broker.go:248-255 | Takes the next target slot, or none when all are taken. |
| Broker.Broker.Release | broker.go:283-304 | The slots afterwards are those of the Release step on values. |
| Broker.Broker.Acquire | broker.go:305-318 | The slots afterwards are those of the Acquire step on values. |
| Broker.Broker.ReadSources | broker.go:274-352 | At most one message of every source slot is read, each with the effect of its step. |
| Broker.Broker.FailAllWaiters | broker.go:379-386 | All waiters of the type are failed, as the step on values says. |
| Broker.Broker.ReadTargetMessage | broker.go:356-395 | A runner's message has the effect of its step, for Started, Free, Error and anything else. |
| Broker.Broker.ReadTargets | broker.go:356-395 | At most one message of every target slot is read, each with the effect of its step. |
| Broker.Broker.MatchShared | broker.go:404-421 | The inner loop for a y-type waiter, over slot objects, computes the matching step. |
| Broker.Broker.MatchExclusive | broker.go:423-440 | The inner loop for an x-type waiter computes the matching step. |
| Broker.Broker.MatchWaiters | broker.go:399-441 | The matching phase over slot objects is the fold of the matching steps. |
| Broker.WithoutKeys | broker.go:461-467 | The entries of one map whose keys another lacks, for any order of iteration. |
| Broker.MostRequestedType | broker.go:487-495 | A key with a greatest count, for any order of iteration. |
| Broker.Broker.CountWaiting | broker.go:449-453 | The map has exactly the waited-for types with their exact counts. |
| Broker.Broker.CountRunning | broker.go:455-459 | The map has exactly the carried types. |
| Broker.Broker.PickType | broker.go:461-495 | A type is found exactly when some type is waited for and not carried, and then it is a most requested one. |
| Broker.Broker.StartAllNew | broker.go:443-532 | The first start loop ends, its rounds are starts of most requested types, and on exit no further round is possible. |
| Broker.Broker.StartAllCopies | broker.go:535-578 | The second start loop ends and computes the copies phase. |
| Broker.Broker.IsUsed | broker.go:583-588 | Whether a running source has the type. |
| Broker.Broker.FreeUnusedTargets | broker.go:581-594 | Frees exactly the running y-type targets no running source uses. |
| Broker.Broker.SweepTimedOut | broker.go:597-604 | Clears exactly the running targets older than the release timeout. |
| Broker.Broker.RunPass | broker.go:270-611 | One pass over all seven phases is a pass on values, with the types its start loop settled on. |
| Broker.Broker.Run | broker.go:264-612 | Any number of passes, one per reading of the clock, is a sequence of passes on values. |
| BrokerClients.RequestContainer | broker-resolver.go:196-200 | Queues one Acquire on the client's slot. |
| BrokerClients.ReadReplyOf | broker-resolver.go:201-226 | Takes the oldest reply; the client connects exactly on Acquired with an address. |
| BrokerClients.NotifyClosed | broker-resolver.go:219-221 | Queues one Release without kill. |
| BrokerClients.RunnerTurn | docker-runner.go:395-431 | A turn of the runner answers a Start with exactly one reply, an error if the start or the wait failed, and ignores other messages. |
| BrokerClients.TurnIsTwoActions | docker-runner.go:395-431 | A turn is the two runner actions of the transition system and touches nothing else. |
| BrokerResolver.ParseEnvs | broker-resolver.go:98-112 | The loop over the environment entries computes the entries in order, the last value of a name winning. |
| BrokerResolver.BrokerTargetResolverParseURLPath | broker-resolver.go:63-125 | The statements of the parser compute the parse function, for every path. |
| BrokerResolver.ImageOfPath | broker-resolver.go:114 | The image of every accepted path is its second field, a slash, its third field, a colon and its fourth; cut at its first slash and then at the first colon it gives them back. |
| BrokerResolver.LastEntryCounts | broker-resolver.go:98-112 | The container's environment holds, under every name, the last value given for it, decoded if it can be and as it is otherwise. |
| BrokerResolver.CallbackAnswers | broker-resolver.go:36-51 | The callback passes requests for other paths as they are, gives those for a job the container's own path, and refuses those whose path names no job. |
| BrokerResolver.JobIdentity | broker-resolver.go:188-193 | Two accepted paths get equal slot types if and only if kind, registry, repository and tag agree. |
| BrokerResolver.SlotTypeInjective | broker.go:257-262 | The broker takes a slot type for a y-type exactly when the resolver made it from a y-path. |
| BrokerResolver.FormatParsesBack | broker-resolver.go:63-125 | Formatting a job and parsing the path gives the job back, with the path "/" plus the rest. |
| BrokerResolver.WorkerParsesRequest | broker-resolver.go:44-51 | For every request the parser accepts and the callback passes, the head sent to the worker parses as that request with the container's own path and of its headers the field names, line breaks in their values as spaces; or the line has become too short, and it does not parse: exactly when verb and path have fewer than two characters. |
| BrokerResolver.SniffedIsForwarded | broker-resolver.go:127-137 | However much had been read when the job was chosen, the request that chose it is the first one the worker is sent. |
| Text.IndexExtends | http-parser.go:47 | What was found in a buffer is found at the same place when bytes are appended. |
| Text.JoinSplit | http-parser.go:58 | Joining the parts of a split gives the text back, for any limit. |
| Text.SplitJoin | http-parser.go:58 | Splitting joined parts gives the parts back when they lack the separator. |
| Text.SplitIff | http-parser.go:58 | Splitting gives exactly the one list of parts that are free of the separator and join to the text. |
| Text.AtoiItoa | http-parser.go:67 | Reading a printed number gives the number back, for all 64-bit integers. |
| Text.AtoiIff | http-parser.go:67 | The reader of numbers accepts exactly the 64-bit integers written in decimal, with a sign or none and any leading zeros. |
| Text.HexIff | http-resolver.go:492 | Of texts without a sign, the reader of chunk sizes accepts exactly the hexadecimal numbers below 2^63, with any leading zeros and letters of either case. |
| Text.TrimIff | http-parser.go:26 | Trimming takes off all spaces at both ends and nothing else. |
| HttpHeaders.CanonicalTwice | http-parser.go:26 | Canonical header names are fixed points. |
| HttpHeaders.CanonicalIsCapital | http-parser.go:26 | The canonical form of a token is the same name up to the case of letters, with no small letter at the start of a word and no capital elsewhere. |
| HttpHeaders.CanonicalIff | http-parser.go:26 | A token and another key have the same canonical form if and only if they agree up to the case of letters. |
| HttpHeaders.TokenChars | http-parser.go:26 | Token characters are the visible ASCII characters but for the delimiters of section 5.6.2 of RFC 9110. |
| HttpHeaders.GetAnySpelling | http-resolver.go:170-176 | A field of a header map is found under any spelling of its name. |
| HttpHeaders.FieldIsFound | http-parser.go:12-30 | What is found under a name in the map of some header lines is the trimmed value of the first line of that name, in any spelling, or nothing if there is none. |
| HttpHeaders.PrintsInOrder | http-parser.go:193 | A map is printed key by key in the order of their characters, each token key once with all its values. |
| HttpHeaders.FramingNames | http-resolver.go:170-176 | The header names the reader looks up are canonical already. |
| HttpHeaders.ParseHTTPHeaders | http-parser.go:12-30 | The loop over the lines computes the fold of the lines; a line without a colon ends it. |
| HttpHeaders.HeadersParseBack | http-parser.go:192-194 | Parsing the printed lines of any header map that was parsed before gives back its field names, values in order, line breaks in them as spaces; keys that are no field names are dropped. |
| HttpHeaders.CleanIsSent | http-parser.go:192-194 | A map of field names whose values have no line breaks survives as it is. |
| HttpHeaders.ParsedIsReadable | http-parser.go:12-30 | Whatever the lines, the parsed keys are in canonical form, each with a value, and the values are trimmed. |
| HttpParser.ParsesIffSpelled | http-parser.go:228-273 | The request parser accepts a buffer with given fields and ends if and only if the buffer is spelled so: verb, path and version with single spaces, the version of the form HTTP/d.d, each header line a key without colon, a colon and a value, no line empty or with a line break inside, a blank line, then anything; the headers are the fold of those lines. |
| HttpParser.ResponseParsesIffSpelled | http-parser.go:45-94 | The response parser accepts a buffer with given fields and ends if and only if the buffer is spelled so: a version HTTP/d.d, a decimal number, a status and any number of further words, with single spaces, 13 characters or more, then header lines, a blank line and anything. |
| HttpParser.RequestExtends | http-parser.go:228-273 | A decided request head stays decided in the same way when bytes are appended. |
| HttpParser.ResponseExtends | http-parser.go:45-94 | The same for a response head. |
| HttpParser.ParsedRequestFits | http-parser.go:275-277 | The ends a parser reports lie in the buffer, and its first line is the printed line. |
| HttpParser.UnchangedDataIsBuffer | http-parser.go:279-306 | A parsed request printed with unchanged fields is the buffer, byte for byte. |
| HttpParser.DataWithNewPathParses | http-parser.go:279-306 | Printed with a new path, a parsed request reads back as the same request at that path, its ends moved as the line grows, if and only if the path can stand in a request line and the line is not too short. |
| HttpParser.RequestParsesBack | http-parser.go:348-391 | A printed request head parses to its own length, to the same words and to what printing keeps of the headers, or it is too short and is refused: exactly when verb and path have fewer than two characters. |
| HttpParser.ResponseParsesBack | http-parser.go:169-212 | The same for a response, for any 64-bit status code. |
| HttpParser.WrittenRequest | http-parser.go:348-391 | What is written of a parsed request, for any flags: the words as they are now or the line as it came, then the map as it is now or the lines that parse to the map that came, then a blank line; with no flag set, the buffer. |
| HttpParser.WrittenResponse | http-parser.go:169-212 | The same for a response. |
| HttpParser.WriteRequestTo | http-parser.go:348-391 | Appends exactly the printed head to the output, for any of the flags. |
| HttpParser.WriteResponseTo | http-parser.go:169-212 | The same for a response. |
| HttpFraming.RewriteHeadExtends | http-resolver.go:144-280 | A decided head, its text, size and framing stay the same when bytes are appended. |
| HttpFraming.ChunkHeadExtends | http-resolver.go:481-502 | A decided chunk line stays decided in the same way when bytes are appended. |
| HttpFraming.FinishIsVerbatim | http-resolver.go:299-455 | Bodies pass unchanged: what a finished message put out and left over add up to its input. |
| HttpFraming.BatchGrows | http-resolver.go:88-465 | The rewrite of a longer stream starts with the rewrite of a shorter one. |
| HttpFraming.MessagesInBatch | http-resolver.go:88-465 | The first messages of a stream are where its rewrite starts. |
| HttpFraming.ChunkedBodyFinishes | http-resolver.go:337-455 | A well-formed chunked body is read to its last byte and not a byte further. |
| HttpFraming.SizedMessageCompletes | http-resolver.go:144-202 | A message with n bytes of body becomes its rewritten head and exactly those bytes. |
| HttpFraming.ChunkedMessageCompletes | http-resolver.go:204-290 | A chunked message becomes its rewritten head and exactly its chunks. |
| HttpFraming.RequestPasses | http-resolver.go:144-202 | For every request head that parses, followed by a body of its framing, sized, empty or chunked: the head as the callback changed it, exactly the body, and nothing of what follows. |
| HttpFraming.ResponsePasses | http-resolver.go:204-290 | For every response head that parses and does not switch protocols, followed by a body of its framing, sized, empty or chunked: the head as the callback changed it, exactly the body, and nothing of what follows. |
| HttpFraming.ChunkedRequestPasses | http-resolver.go:170-174 | A request with Transfer-Encoding chunked, whatever the spelling of its name, passes as its rewritten head and exactly a chunked body. |
| HttpFraming.SizedRequestPasses | http-resolver.go:176-183 | A request with a Content-Length of n in any decimal spelling, and not chunked, passes as its rewritten head and exactly n bytes. |
| HttpFraming.BareRequestPasses | http-resolver.go:176-179 | A request with neither passes as its rewritten head alone. |
| HttpFraming.ChunkedResponsePasses | http-resolver.go:229-240 | A response that is chunked, or has no length and is not 204, passes as its rewritten head and exactly a chunked body. |
| HttpFraming.SizedResponsePasses | http-resolver.go:241-249 | A response with a Content-Length of n that is neither chunked nor 204 passes as its rewritten head and exactly n bytes. |
| HttpFraming.NoContentPasses | http-resolver.go:233-236 | A 204 that is not chunked passes as its rewritten head alone, whatever its Content-Length. |
| HttpFraming.BadLengthIsRefused | http-resolver.go:180-183 | A request that is not chunked and whose Content-Length is no 64-bit number is refused. |
| HttpFraming.BadResponseLengthIsRefused | http-resolver.go:245-248 | The same for a response that is not 204. |
| HttpFraming.NegativeLengthStops | http-resolver.go:176-183 | A request whose Content-Length is below zero is put out up to the end of its head, and then nothing more. |
| HttpFraming.NegativeResponseLengthStops | http-resolver.go:241-249 | The same for a response. |
| HttpFraming.HexChunk | http-resolver.go:481-502 | A size in hexadecimal in any spelling, and as many bytes of data, make a chunk; a zero makes the last one. |
| HttpFraming.HugeChunkStops | http-resolver.go:379-422 | A chunk whose size and line break together exceed 64 bits stops the message after its line. |
| HttpFraming.SwitchPasses | http-resolver.go:269-280 | For every response head that parses and switches protocols: the head as the callback changed it, then everything that follows, for ever. |
| HttpFraming.AnnouncedLength | http-resolver.go:176-183 | A body whose length is written in decimal is framed as one of that length. |
| HttpFraming.LiveIsPrefix | http-resolver.go:88-465 | A reader that accounts for all bytes has put out a prefix of the rewrite of the whole stream. |
| HttpReader.HTTPRewriteHeaderWrapper.constructor | http-resolver.go:76-82 | A new reader has delivered nothing and has its whole source ahead. |
| HttpReader.HTTPRewriteHeaderWrapper.Read | http-resolver.go:88-465 | One call, in any state. Always: delivered bytes are a prefix of the whole rewrite, errors have a cause, and a call does something. In the middle of a message: held bytes are handed out, no call goes past the end of a body or chunk, and a message that ends leaves nothing held. Between messages: if the input starts with a whole head, all that is held and the new head are handed out as far as there is room; otherwise nothing is given, and after a parsed head the call fails or finds the input incomplete. A call that asks the source when nothing is left in it, and does not fail, has nothing left to give: the whole rewrite has been delivered. |
| HttpReader.HTTPRewriteHeaderWrapper.ReadHeld | http-resolver.go:111-140 | Output held between messages reaches the caller if and only if the input starts with a whole head; otherwise nothing is given and the reader fails at the second call at the latest. |
| HttpReader.HTTPRewriteHeaderWrapper.ReadMessage | http-resolver.go:88-465 | Calls composed: a message counts as delivered when the bytes given are exactly the rewrite of the first message ahead, and once it has ended that is so if and only if its rewritten head fits the buffer or it has a body. Before that or an error no more calls are made than twice the bytes still to come, in the stream and in its rewrite, and twice the times the source is asked, plus one. |
| HttpReader.HTTPRewriteHeaderWrapper.ReadHead | http-resolver.go:108-297 | The head state, exactly: how many bytes come from the source, and what input, output, framing and delivered bytes are after the parse attempt. |
| HttpReader.HTTPRewriteHeaderWrapper.FillHead | http-resolver.go:111-140 | The source is read if and only if the input is empty or was parsed in vain; after a parsed head that ends in an error; otherwise the source and the input are left alone. |
| HttpReader.HTTPRewriteHeaderWrapper.ParseRequestHead | http-resolver.go:144-202 | Takes the request head off the input and puts its rewritten text into the output, with the framing of the old head. |
| HttpReader.HTTPRewriteHeaderWrapper.ParseResponseHead | http-resolver.go:204-289 | The same for a response, with the switch of protocols. |
| HttpReader.HTTPRewriteHeaderWrapper.FrameResponse | http-resolver.go:229-249 | Chunked, 204, no length, or a length: the framing of a response. |
| HttpReader.HTTPRewriteHeaderWrapper.FrameRequest | http-resolver.go:170-184 | Chunked, no length, or a length: the framing of a request. |
| HttpReader.HTTPRewriteHeaderWrapper.ReadBody | http-resolver.go:299-335 | A sized body: the remaining count goes down by what was delivered and never below zero, and buffered bytes are handed out. |
| HttpReader.HTTPRewriteHeaderWrapper.ParseChunkLine | http-resolver.go:379-422 | A chunk line goes to the output, or with a complete last chunk straight to the caller. |
| HttpReader.HTTPRewriteHeaderWrapper.ReadChunkData | http-resolver.go:430-453 | Chunk data: the remaining count goes down by what was delivered; the last chunk ends the message. |
| HttpReader.HTTPRewriteHeaderWrapper.ReadChunked | http-resolver.go:337-455 | A call in a chunked body, from filling the buffer to delivering bytes. |
| HttpReader.HTTPRewriteHeaderWrapper.ReadUpgraded | http-resolver.go:91-102 | After a switch of protocols everything passes: output, then input, then source. |
| HttpSteps.AccountsIsSafe | http-resolver.go:88-465 | The accounting invariant implies that what was delivered is a prefix of the rewrite of the whole stream. |
| HttpSteps.TakeWholeHeadKeeps | http-resolver.go:201-278 | Taking a head off the input, and after a 101 the input with it, keeps every byte accounted for and puts something out. |
| HttpSteps.TakeSizedKeeps | http-resolver.go:308-333 | Any number of body bytes, from the input or the source, keep the account; a body of no more bytes is the end of the message. |
| HttpSteps.TakeChunkKeeps | http-resolver.go:430-451 | The same for chunk data, the last chunk ending the message. |
| HttpSteps.TakeChunkLineKeeps | http-resolver.go:414-421 | Moving a chunk line to the output keeps the account and puts something out. |
| HttpSteps.TakeLastChunkKeeps | http-resolver.go:394-405 | Passing the last chunk in one piece keeps the account and ends the message. |
| HttpSteps.HeldMeansParsed | http-resolver.go:119-124 | Output is held between messages only after a head was parsed, so the next read of the source ends the connection. |
| HttpSteps.HeadCallEffect | http-resolver.go:108-297 | With nothing held before, a call between messages leaves things as they were or takes one head, and then leaves nothing held if and only if the head fits the room or has a body. |
| HttpSteps.OneMessageBetween | http-resolver.go:88-465 | Between two moments at which nothing is held and one head was parsed, the bytes given are exactly the rewrite of the first message ahead. |
| HttpReader.HTTPRewriteHeaderWrapper.ReadTwice | http-resolver.go:111-140 | Of two error-free calls at least one gives bytes, takes bytes or asks the source. |
| HttpSteps.SettledIsExact | http-resolver.go:299-335 | Back in the head state with nothing held back, the delivered bytes are exactly the messages whose heads were parsed. |
| HttpSteps.MessageIsExact | http-resolver.go:299-455 | For one message with a body of its framing, sized or chunked: its rewritten head and its body, whatever the reads and buffers were. |
| HttpSteps.CaughtUpIsWhole | http-resolver.go:88-465 | Once the source is empty, the output drained and the input found incomplete, the whole rewrite has been delivered. |
| Streams.ReadWriterWithPrefixBuffer.Read | proxy.go:330-339 | A read takes the next bytes of prefix plus connection; nothing is lost between the two, and the connection is asked only when the prefix is used up. |
| Proxy.AskResolvers | proxy.go:392-407 | The first target wins; without one the last resolver's answer stands. |
| Proxy.SelectTarget | proxy.go:363-421 | However the stream is cut, sniffed bytes and unread bytes are the client's stream. A target is the resolvers' answer to the sniffed bytes; without one the client has failed, the resolvers have refused, or they are undecided and the client has sent everything or every round took a byte or asked in vain. |
| Proxy.PipeRewritten | proxy.go:150-215 | What is written is what the reader delivered, up to an error. Without an error no more rounds are made than bytes and asks account for; with the reader drained everything that was due is written; and so it is after a number of rounds computed from the bytes still to come and the times the source gave nothing though it had something. |
| Proxy.PipePlain | proxy.go:150-215 | What is written is what the source sent, up to an error; without one it is all of it after as many rounds as there are bytes and vain asks. |
| Proxy.SelectTargetAndPipe | proxy.go:533-553 | From client to worker: for a wrapping target the worker is sent a prefix of the rewrite of everything the client sends, sniffed bytes included once; otherwise a prefix of the target's head data and the rest of the stream. Without an error it is sent all of that, for any number of rounds above one computed from the lengths of the stream and its rewrite and from how often the client gave nothing though it had something. |
| Proxy.PipeBack | proxy.go:529-551 | From worker to client: the client is sent a prefix of what the worker sends or, with the CORS callback, of its rewrite, and without an error all of it for any number of rounds above one computed in the same way. |
| Proxy.CORSAllows | cors.go:14-33 | What a client finds in a response that passed the CORS callback, field by field and under any spelling: the five fields that are set, and all others as the worker sent them; 405 becomes 200. |
| ProxySignals.AcquiredIsReleased | proxy.go:118-135 | Over every interleaving of a connection's goroutines its slot is acquired at most once and released at most once: never before the end, and at the end exactly as often as it was acquired. |
| ProxySignals.OneReport | proxy.go:137-148 | At most one report comes through, and Closed is called only after it. |
| ProxySignals.FailureEnds | proxy.go:137-148 | Whoever fails first while Start waits can be heard, and then the slot is released. |
| ProxySignals.LateReportBlocks | proxy.go:137-148 | A goroutine past the test when another report comes through stays at its send for ever. |
| ProxySignals.LateReportHappens | proxy.go:137-148 | A run in which that happens. |
| ProxySignals.AllReturnIff | proxy.go:137-148 | When nothing of a connection can happen any more, Start has finished and all goroutines have returned if and only if exactly one of them failed while the error flag was unset; of several such failures all but one stay blocked. |
| ProxySignals.RunsEnd | proxy.go:118-148 | Every connection comes to that point: no interleaving has more than ten of these actions. |

## Left out

- Channel capacity in the transition system: its queues are unbounded sequences, and no send of it waits. Waiting sends are modelled inside the steps of the broker only (`BrokerPieces`, `BrokerVisit`); that a client waits to send on its own slot is not, nor what becomes of the broker once the pool of free slots is over capacity.
- Real time: the clock of a pass is any integer, the sleep between passes and all fairness are left out, and nothing is said about when a waiter is served, which the code does not guarantee.
- Infinite loops: the broker's loop runs once per reading of the clock, sniffing and copying for a given number of rounds; results hold for every number, and say how many rounds are enough.
- BrokerModel.OnRelease: a running source without a link would be a nil dereference; the invariants rule it out, the step leaves the slots alone.
- An Acquire with an empty slot type ends the program (`broker.go:323-326`); clients are assumed not to send one.
- Malformed input on which the code panics (a header line or an environment entry without its separator, a negative Content-Length, a last chunk that does not fit the caller's buffer) ends in an error outcome of the model.
- Once a read has failed, the reader's further behaviour is not described; the copy loops stop at the first error.
- HttpReader.HTTPRewriteHeaderWrapper.Read: a source that is not closable (a fatal log message in the code) is left out; every source here can be closed.
- Bytes above 127: trimming and header canonicalisation treat them as the ASCII rules of the standard library do, white space outside ASCII is not trimmed.
- Proxy.SelectTarget: resolvers are functions of the bytes so far; effects they have besides choosing a target are modelled on the broker's side only.
- The `Referer` fallback of broker-resolver.go:160-180 and percent-decoding, which is an arbitrary function here.
- Which client reads which reply when an old and a new client share a slot: replies are counted, not assigned.
- Proxy.PipeBack: the two directions of a connection are proved each on its own, not as two goroutines that share the connections.
- HttpReader.HTTPRewriteHeaderWrapper.ReadMessage: the number of calls is a parameter, and its bound counts how often the source is asked; a source that never gives a byte and never fails is asked for ever.
- Docker engine, SSH and network code, the host, root, docker and monitor resolvers, logging, configuration and the start-up of goroutines.
