# Kubecc in Dafny

Kubecc distributes C and C++ compile jobs over a cluster. A *consumerd* on the developer's machine
takes compiler invocations, decides which can be compiled remotely, rewrites their command lines and
sends them to the *scheduler*, whose *broker* hands them to *agents* and returns the answers. A
*cache* keeps compiled objects in layers of storage, and a *monitor* tells all components which
others are there. This project models the parts of that system in which the order of steps decides
whether the result is right, and proves what every run of them keeps.

`dafny verify dfyconfig.toml` checks everything; no file needs another project.

## How the model is built

Concurrent parts are transition systems. An event is one atomic action of one goroutine (a table
operation, a channel operation, a counter update); `Next` gives the state after an event, or nothing
where the event cannot happen; `Run` follows a sequence of events from the initial state. A theorem
about `Run(events)` for arbitrary `events` is a theorem about every interleaving. Objects that the
program updates in place by one caller at a time are classes whose methods are proved equal to
functions on values, and the theorems are about those functions.

| Files | Part |
|---|---|
| `Common` | what several parts share |
| `Toolchains`, `Router` | routing keys, routes and the agents attached to them |
| `Broker`, `BrokerSafety`, `BrokerTokens`, `BrokerStreams`, `BrokerKeys`, `BrokerCache`, `BrokerCaching`, `BrokerRouting`, `BrokerProgress`, `BrokerRun`, `BrokerStranded` | the scheduler's broker |
| `Filenames`, `Args`, `ArgsIdempotence`, `ArgsIndices`, `ArgsRemote`, `ArgsActions`, `ArgsLocal`, `ArgsPreprocessor`, `ArgsSend`, `ArgsMode`, `ArgsLost`, `ArgsExact`, `ArgsText`, `ArgsKept`, `ArgsExamples`, `ArgParsing` | command lines: what Parse finds, and the rewrites before a job is sent |
| `Pools`, `PoolsFutures`, `PoolsTasks`, `PoolsResults`, `PoolsLosses`, `PoolsRuns`, `PoolsTelemetry`, `RetryLoop` | consumerd's split queue over two worker pools |
| `ExpirationHeap`, `ExpirationNotifier`, `ExpirationRescan`, `ExpirationTies`, `ExpirationRuns` | expiry of cached objects |
| `ChainStorage`, `ChainReads` | the layered cache |
| `Monitor`, `MonitorMetrics` | the provider table, metrics, and the clients that follow them |

## What is proved, in short

* **Broker.** In every run an accepted request is in exactly one place; the three lookups that would
  panic on a missing request always succeed; a request is answered at most once, by a message to
  the consumerd that sent it, whatever agents answer and however requeues and stale answers
  interleave. After any run an accepted request is answered or can still be, exactly unless it was
  taken off its route for an agent whose send loop takes no more requests. A closed stream makes
  defunct exactly the requests in flight with its agent, and a request whose agent is lost can be
  answered by another. Every response that comes in is handled once; tokens are conserved, the "Token Imbalance" branch is reached exactly in runs where an
  agent has had more answers read than tokens locked, and never with agents that answer only what
  they were asked; such agents have exactly the requests sent to them and not answered, never more
  than their limit. Every Success sent, from the cache or not, carries bytes that some agent returned
  for a request with the same hash, which is the same toolchain, source and arguments, run together.
* **Command lines.** Parse is idempotent exactly when at most one `-o` is joined to its path and no
  output is added after an option still waiting for its value; a second pass keeps the mode exactly
  unless an output was added after a joined `-x`. The indices refer to what they are named after.
  Which command lines may be compiled remotely is characterised by the spelling of their arguments
  alone, and so is what RemoveLocalArgs keeps: options that decide what is compiled reach the agent
  as often and in the order they were given.
  Preprocessing gives the arguments back exactly unless both `-c` and `-S` were recorded. What is
  sent to an agent for a remote command line (overridden outputs apart) has no local-only option
  left, and asks for the same actions, input and output as the command line after its own parsing
  exactly when not both `-c` and `-S` were recorded and the output path is not itself spelled like a
  local option.
* **Split queue.** A task is in one place, is run at most once, and only by a pool it was submitted
  for; after any run a waiting task can be run by every pool it was submitted for, and a submitted
  task can still be completed exactly unless it is in, or held for, the future of a worker that was
  stopped. Each pool has at most one unfilled future. After any run the tasks that can still be lost,
  without another stop signal, are at most as many as there are futures of stopped workers, and can
  be so many; a stop signal adds one exactly when its worker has a future. Lost tasks stay lost. The
  five telemetry counters add up to the number of Exec calls exactly while no worker is between two
  counter updates.
* **Expiry.** The slice is a heap holding pushes minus pops after any operations, and draining it
  sorts. In every run, however Adds overlap: the entry popped is the one waited for exactly when
  nothing in the heap is earlier; the waiter waits past the earliest date for want of a rescan exactly
  when a comparison that was the last to help failed; and the goroutine is dead exactly when some Add
  was issued while it was parked on a non-empty heap with no wake-up there or on its way. After any
  run an entry of the heap can still be popped exactly unless the goroutine is dead. Conditions
  on overlapping Adds are given under which neither happens.
* **Layered cache.** Searches, the steps of the backfills they start, Puts and evictions interleave
  freely. A successful Put is safe in all continuations exactly when no backfill of its key with
  another object is under way. If all Puts are, the cache behaves as one map after all runs exactly
  when no layer but the first is volatile, and keeps expiration dates exactly when, besides, no layer
  is remote. A Get finds the key in the first layer that has it and is not out of date where dates are
  looked at; it never returns anything out of date exactly when all layers are in memory; its
  backfill, undisturbed, reaches every layer above. With backfills as late as they like it is one map exactly if it has at most one layer.
* **Routes.** A route refuses requests exactly when no attachment to it is running. Its set of
  receivers can be empty then and otherwise, and can list agents that are being attached or detached.
* **Monitor.** Bucket names, provider table and stored table agree after every connect, disconnect
  and post under one's own UUID; a post breaks the agreement exactly when it overwrites the stored
  table; after any run the providers, the value of every metric and the values its listeners were
  sent are those the operations ask for; a client that follows the table has live handlers for exactly the connected providers.

## Where the code surprises

Each of these is a lemma with a concrete or general input.

* `Toolchains.RoutingKeyCollisions`: the routing key concatenates fields without separators, so it is
  equivalence only for named kinds and numeric versions.
* `BrokerKeys.DividedAlike`: the cache key runs the arguments together, so `-a` `b` and `-ab` share
  cached results.
* `BrokerStranded.RequestCanBeStranded`: an agent without a token takes requests off a route that
  others serve, and such a request may never be answered.
* `ArgsPreprocessor.OtherWpOptionsAreDropped`: the code tests for the prefix `-Wp` where its comment
  says `-Wp,`, and drops options such as `-Wpointer-arith`. The model follows the code.
* `ArgsIdempotence.JoinedOutputsBreakIdempotence`, `ArgsIdempotence.WaitingBreaksIdempotence`,
  `ArgsExamples.JoinedLanguageBreaksMode`: second passes that differ from the first.
* `ArgsExamples.PreprocessingLosesAssembly`: for `-c -S a.c` the agent is sent `-E -c a.c -o a.s`.
* `ArgsKept.ActionlessIsNotPreprocessed`: a command line with an output and neither `-c` nor `-S` may be
  compiled remotely, and its preprocessing step runs the compiler without `-E`.
* `ArgsExamples.OutputPathIsReplaced`: from `-c a.c -o -Da.o` RemoveLocalArgs drops the path and
  keeps the `-o`.
* `Router.AgentIsHidden`: an agent that is attached twice to a route and detached once takes requests
  and is not listed.
* `ExpirationNotifier.OverlappingAddsLoseWake`: two overlapping Adds can both see two entries, and
  then nothing is ever notified again. `ExpirationTies.TiesLoseRescan`: equal dates can hide an
  earlier expiry. `ExpirationNotifier.EarlierEntryIsDropped`: an entry added between the timer and
  the Pop is dropped while another is notified.
* `PoolsResults.StopLosesTask`: shrinking a pool can lose a task that was never started.
* `ChainStorage.FailedPutIsServed`: with a volatile layer below another, a Put that fails is served.
  `ChainStorage.ReplacedObjectIsServed`: a late backfill brings back an object that was replaced.
  `ChainStorage.RemoteDateIsServed`: the remote store forgets expiration dates.
  `ChainReads.OldObjectIsServed`: only the in-memory store looks at expiration dates.
  `ChainStorage.SuccessWithoutObject`: a chain without layers answers every Get with success and no
  object.
* `Monitor.DeletedTableDisagrees`: any provider can delete the provider table.

## Model

| member | source | states |
|---|---|---|
| `Toolchains.SameBytesExactly` | pkg/types/functions.go:30-51 | for named kinds and langs and architectures without the kind marker, two toolchains feed the same bytes to the hash exactly when they are equivalent or one's version completes "C" to the other's "CXX" |
| `Toolchains.BytesSpelledOut` | pkg/types/types.pb.go:152-230 | the names written for each named kind and lang |
| `Toolchains.RoutingKeyIsEquivalence` | pkg/types/functions.go:30-51 | for unambiguous toolchains the routing key is toolchain equivalence, both ways |
| `Toolchains.RoutingKeyCollisions` | pkg/types/functions.go:46-51 | none of the three conditions can be dropped: three pairs of different toolchains with one key |
| `Toolchains.TryMatch` | pkg/toolchains/store.go:250-257 | returns a stored toolchain equivalent to the given one, and fails only if there is none |
| `Toolchains.OfferedIsMatched` | pkg/scheduler/router.go:183-227 | an agent is on a request's route exactly when its store would match the request's toolchain |
| `Router.AttachedIsOffered` | pkg/scheduler/router.go:242-256 | attachments to a toolchain's route exist exactly when the toolchain is offered |
| `Router.RunIsValid` | pkg/scheduler/router.go:102-122 | after any steps of attachments and of their ends each count is the number of running attachments, and every receiver has an attachment |
| `Router.NoAgentsExactly` | pkg/scheduler/router.go:301-325 | in every run the count tested before a request is sent is zero exactly when no attachment to the route is running; receivers listed then are just being attached or detached |
| `Router.DetachAgreesExactly` | pkg/scheduler/router.go:106-108 | the removal of a receiver leaves the receivers equal to the agents with an attachment exactly when its agent has no other attachment to the route |
| `Router.ListedIsNotAttached` | pkg/scheduler/router.go:104-105 | a run after which a route lists a receiver and has no attachment counted |
| `Router.AgentIsHidden` | pkg/scheduler/router.go:102-122 | a run after which a route has one attachment and no receivers |
| `Router.AttachedAllExactly` | pkg/scheduler/router.go:242-256 | AddReceiver attaches the agent to exactly the routes of its toolchains, once per toolchain, and changes nothing else |
| `Router.Router.RouteForToolchain` | pkg/scheduler/router.go:215-227 | the route found or made is the toolchain's own; nothing else changes |
| `Router.Router.AttachReceiver` | pkg/scheduler/router.go:102-106 | the two steps of an attachment, one after the other |
| `Router.Router.ListReceiver` | pkg/scheduler/router.go:104-104 | the agent is among the receivers, and not counted yet |
| `Router.Router.CountReceiver` | pkg/scheduler/router.go:105-106 | the attachment is counted, and runs |
| `Router.Router.AddReceiver` | pkg/scheduler/router.go:242-256 | the loop makes the attachments of AttachedAllExactly |
| `Router.Router.UncountReceiver` | pkg/scheduler/router.go:108-108 | the first deferred call of an attachment: the state is the next one of the run |
| `Router.Router.UnlistReceiver` | pkg/scheduler/router.go:107-107 | the second one |
| `Router.Router.RouteRequest` | pkg/scheduler/router.go:301-325 | an error for a missing toolchain, an error exactly when no attachment to the route is running, otherwise the request's own route |
| `BrokerSafety.EventMoves` | pkg/scheduler/broker.go:160-386 | every event moves at most one request between the tables in one of nine legal ways; no lookup misses |
| `BrokerSafety.GoodKept` | pkg/scheduler/broker.go:250-357 | each legal move keeps the correspondence of tables, carriers and log |
| `BrokerSafety.ExactlyOnePlace` | pkg/scheduler/broker.go:250-357 | in every run each accepted ID is in exactly one of: pending, between two tables, in flight, answered |
| `BrokerSafety.OneCarrier` | pkg/scheduler/broker.go:250-283 | no ID has two carriers, and the pending IDs are exactly those with a carrier at a listed stage |
| `BrokerSafety.LookupsSucceed` | pkg/scheduler/broker.go:194-282 | the panics on a missing pending entry are unreachable |
| `BrokerSafety.OneResponsePerRequest` | pkg/scheduler/broker.go:312-386 | at most one response per ID, to the consumerd that submitted it, never a defunct notice |
| `BrokerTokens.TokensConserved` | pkg/scheduler/broker.go:168-243 | available, locked and handled tokens always add up to the agent's limit |
| `BrokerTokens.TokenChannelsNeverFull` | pkg/scheduler/broker.go:186-243 | neither send on a token channel ever blocks |
| `BrokerTokens.FullChannelBlocks` | pkg/scheduler/broker.go:168-238 | a send on a full token channel would block |
| `BrokerTokens.SendLoopsAgree` | pkg/scheduler/broker.go:186-211 | a request in a send loop's hands is the one that loop is busy with |
| `BrokerTokens.ConcurrencyBounded` | pkg/scheduler/broker.go:168-243 | requests an honest agent has not answered never exceed its locked tokens, and so its limit |
| `BrokerTokens.LockedIsDifference` | pkg/scheduler/broker.go:186-243 | until an imbalance is seen, the locked channel holds locks minus answers read |
| `BrokerTokens.ImbalanceExactly` | pkg/scheduler/broker.go:236-243 | the imbalance branch is reached exactly in runs where at some point more answers were read from an agent than tokens were locked for it |
| `BrokerTokens.HonestRunsRaiseNoAlarm` | pkg/scheduler/broker.go:194-282 | with agents that answer only what they were asked, none of the four panics happens |
| `BrokerTokens.UnaskedAnswerRaisesAlarm` | pkg/scheduler/broker.go:222-246 | in any run, an answer while no token is locked does raise the alarm |
| `BrokerStreams.EndsExactly` | pkg/scheduler/broker.go:176-247 | in every run a stream is open until closed; its send loop runs until a delivery fails or it stops, its receive loop until it stops, and neither stops before the stream is closed |
| `BrokerStreams.WireExactly` | pkg/scheduler/broker.go:222-246 | each answer an agent has sent was read once or is under way |
| `BrokerStreams.UnansweredExactly` | pkg/scheduler/broker.go:186-246 | with agents that answer only what they were asked, an agent has exactly the requests sent down its stream and not answered by it |
| `BrokerStreams.DeliveriesBounded` | pkg/scheduler/broker.go:168-243 | such an agent is never sent more requests than it has answered plus its limit |
| `BrokerStreams.ResponsesConserved` | pkg/scheduler/broker.go:222-357 | each response read, made by the broker or declaring a request defunct was handled once, is queued, or is in a receive loop's hands |
| `BrokerStreams.MissingIsAlarmed` | pkg/scheduler/broker.go:194-282 | in any state at all each lookup in the pending table raises its own alarm exactly when it misses |
| `BrokerKeys.SameKeyExactly` | pkg/types/functions.go:53-59 | for toolchain bytes and sources of equal length two requests have one key exactly when toolchain bytes, sources and the arguments run together are equal |
| `BrokerKeys.OneArgumentTellsApart` | pkg/types/functions.go:53-59 | requests that differ in one argument, of the same length, have different keys |
| `BrokerKeys.DividedAlike` | pkg/types/functions.go:56-58 | two arguments and their concatenation give one key |
| `BrokerCache.RunIsSound` | pkg/scheduler/broker.go:549-640 | wherever a result is (cache, push, queue, stream, carrier, log), some agent returned it for its ID or hash |
| `BrokerCache.AnswersAreSourced` | pkg/scheduler/broker.go:312-357 | each Success sent carries bytes some agent returned as Success for an accepted request with the same computed hash |
| `BrokerCache.AnswersAreForTheSame` | pkg/scheduler/broker.go:312-357 | that request has the same toolchain bytes, source and arguments run together as the one answered; where toolchain bytes and sources are equally long, each of them is the same |
| `BrokerCaching.ManagedExactly` | pkg/scheduler/broker.go:594-605 | a cache miss, and only a miss, makes the broker remember the key of the request |
| `BrokerCaching.PushedExactly` | pkg/scheduler/broker.go:324-331 | a Success for a request whose key is remembered is pushed once, under that key; nothing else is |
| `BrokerCaching.SuccessIsCached` | pkg/scheduler/broker.go:608-641 | after any run such a Success can be in the cache once its consumerd was sent it |
| `BrokerCaching.StoredIsServed` | pkg/scheduler/broker.go:573-593 | after any run a request whose key is in the cache can be answered with what is stored, without an agent |
| `BrokerCaching.CacheServes` | pkg/scheduler/broker.go:549-641 | for any two requests with one key there is a run in which the first is compiled and the second answered from the cache |
| `BrokerCaching.CacheExactly` | pkg/scheduler/broker.go:608-641 | in every run the object under a key is the one stored last, unless it was evicted since |
| `BrokerCaching.PushesConserved` | pkg/scheduler/broker.go:324-331 | in every run each push, one for every Success for a request whose key is remembered, has ended or is under way |
| `BrokerRouting.RunIsRouted` | pkg/scheduler/router.go:102-122 | past a route's channel a request is only ever with an agent that offers its toolchain |
| `BrokerRouting.DeliveredIsMatched` | pkg/scheduler/router.go:301-325 | every request sent down a stream names a toolchain the agent's store matches |
| `BrokerProgress.WaitingCanBeAnswered` | pkg/scheduler/broker.go:250-283 | after any run a request not yet past its route can be answered with the retry action it was entered with |
| `BrokerProgress.HitCanBeAnswered` | pkg/scheduler/broker.go:573-593 | after any run a request found in the cache can be answered with what was found |
| `BrokerRun.ReadyAgentGets` | pkg/scheduler/broker.go:186-203 | after any run a ready agent can get a request that is on a route it serves |
| `BrokerRun.AgentCanAnswer` | pkg/scheduler/broker.go:222-246 | after any run what an agent returns for a request in flight can reach the consumerd that sent it |
| `BrokerRun.CleanupExactly` | pkg/scheduler/broker.go:360-386 | an ID in flight is declared defunct, by one notice and nothing else, exactly when the stream is closed and the ID is in flight with an agent of its UUID |
| `BrokerRun.LostIsRequeued` | pkg/scheduler/broker.go:332-341 | after any run a request in flight with an agent whose stream is closed can be entered anew |
| `BrokerRun.LostCanBeAnswered` | pkg/scheduler/broker.go:332-386 | and if no agent takes it, its consumerd is told to retry |
| `BrokerRun.NewAgentAnswers` | pkg/scheduler/broker.go:160-248 | after any run a new agent can take a request that is on its route, and answer it |
| `BrokerRun.RequestCanBeAnswered` | pkg/scheduler/broker.go:160-357 | for every request with a toolchain there is a run in which its consumerd is sent what an agent returned |
| `BrokerRun.LostRequestCanBeAnswered` | pkg/scheduler/broker.go:160-386 | for every such request there is a run in which the agent it was delivered to is lost and another's answer is the only one sent |
| `BrokerStranded.AnswerableExactly` | pkg/scheduler/broker.go:160-386 | after any run an accepted request is answered or can still be, exactly unless it was taken off its route for a stream whose send loop has stopped or can get no token any more |
| `BrokerStranded.StrandedForGood` | pkg/scheduler/router.go:109-120 | such a request stays where it is in every continuation |
| `BrokerStranded.RequestCanBeStranded` | pkg/scheduler/router.go:109-120 | for every request with a toolchain there is a run after which it can never be answered |
| `ArgsIdempotence.ScanAppend` | pkg/cc/args.go:245-375 | a scan that does not end waiting goes on over appended arguments as if it had been resumed |
| `ArgsIdempotence.LocalIsFinal` | pkg/cc/args.go:418-421 | Parse always decides, and never leaves RunLocal once set |
| `ArgsIdempotence.NormalizedFacts` | pkg/cc/args.go:184-227 | no unsupported argument is left, exactly one joined output is split, and a normal list is left alone |
| `ArgsKept.NormalizedByText` | pkg/cc/args.go:184-227 | before the scan the first "-o" glued to an absolute path is separated, "-pedantic", "-pedantic-errors", "-Wpedantic" and "-flto..." are dropped, and everything else stays in its order |
| `ArgsIdempotence.IdempotentExactly` | pkg/cc/args.go:232-421 | Parse is idempotent on arguments and indices exactly when at most one output is joined and none is added after an option waiting for its value |
| `ArgsIdempotence.ReparsedFlags` | pkg/cc/args.go:232-421 | of the flags, a second pass only learns about the "-o" the first one added |
| `ArgsIdempotence.JoinedOutputsBreakIdempotence` | pkg/cc/args.go:184-196 | two joined outputs break idempotence |
| `ArgsIdempotence.WaitingBreaksIdempotence` | pkg/cc/args.go:393-416 | so does an output added after a trailing "-D" |
| `Filenames.ExtIsLast` | pkg/cc/filename.go:98-101 | the extension is the shortest suffix that starts with a dot within the last path element, and there is none only if every dot is followed by a slash |
| `Filenames.ExtensionReplaced` | pkg/cc/filename.go:98-101 | only the extension is replaced, and a path without one gets one |
| `Filenames.ProbesRunLocal` | pkg/cc/filename.go:86-95 | the files build systems compile to try the compiler are compiled locally, in whatever directory, and no others |
| `ArgsRemote.ForcedExactly` | pkg/cc/args.go:245-375 | the scan rules out remote compilation exactly for a blocking argument, a second input, or an object file named after another output |
| `ArgsRemote.RemoteExactly` | pkg/cc/args.go:232-421 | Parse allows remote compilation exactly when it was not ruled out before, nothing blocks it, there is one ordinary input file, and the command compiles, generates assembly or names an output |
| `ArgsText.BlockedByText` | pkg/cc/args.go:245-375 | an argument rules out remote compilation exactly for the spellings listed in the lemma, options that need the developer's machine among them |
| `ArgsText.ScanByText` | pkg/cc/args.go:245-375 | the scan finds the last input and the last "-o" path among the arguments looked at, and the actions among them |
| `ArgsText.RemoteByText` | pkg/cc/args.go:232-421 | Parse allows remote compilation exactly for a condition on the spelling of the arguments alone |
| `ArgsText.HostRunsLocal` | pkg/cc/args.go:277-324 | "-march=native" and every other option that needs the developer's machine, looked at anywhere, makes the command line local |
| `ArgsText.NamesByText` | pkg/cc/args.go:330-416 | input and output index name the last input, and the last "-o" path or the one made from the input |
| `ArgsText.RecordedByText` | pkg/cc/args.go:245-375 | an option recorded under its own name is recorded exactly when it is looked at |
| `ArgsIndices.ParseDescribes` | pkg/cc/args.go:245-416 | indices are in range and pairwise distinct, point at what they are named after, and name the input and the output found or added |
| `ArgsActions.ActionKeepsIndices` | pkg/cc/args.go:434-450 | replacing the action keeps all indices right |
| `ArgsActions.OutputKeepsIndices` | pkg/cc/args.go:467-473 | replacing the output path keeps all indices right |
| `ArgsActions.OutputSwapCancels` | pkg/cc/preprocess.go:51-56 | swapping the output path out and back in changes nothing |
| `ArgsActions.PreprocessorSees` | pkg/cc/preprocess.go:50-58 | by position, what the preprocessor is run with: "-E" for the recorded action, "-" for the output path, all else as it was |
| `ArgsKept.ActionlessIsNotPreprocessed` | pkg/cc/controller/send.go:143-153 | a remote command line with neither "-c" nor "-S" is run without "-E" where it is to be preprocessed |
| `ArgsActions.PreprocessingRestoresExactly` | pkg/cc/controller/send.go:145-153 | preprocessing gives the arguments back exactly unless both "-c" and "-S" were recorded |
| `ArgsActions.PreprocessingMixesUpBoth` | pkg/cc/controller/send.go:145-153 | with both, "-S" comes back as "-c" and "-c" as "-E" |
| `ArgsActions.ActionReadBack` | pkg/cc/args.go:434-463 | the action set is the one read back exactly when no action looked for before it was recorded besides the one replaced |
| `ArgsLocal.KeptScansAlike` | pkg/cc/args.go:528-550 | the skipping of RemoveLocalArgs stays in step with that of Parse |
| `ArgsLocal.LocalOptionsAgree` | pkg/cc/args.go:528-550 | the options RemoveLocalArgs drops mean nothing to Parse, and both agree on which take a value |
| `ArgsLocal.NothingLocalLeft` | pkg/cc/args.go:528-550 | after RemoveLocalArgs, its Parse included, no argument is a local-only option |
| `ArgsLocal.RemovalKeepsMeaning` | pkg/cc/args.go:528-550 | input file, output path and actions survive as the same strings |
| `ArgsKept.KeptByText` | pkg/cc/args.go:528-550 | what RemoveLocalArgs keeps is exactly the arguments that are not the value of one of the 19 options with values, nor spelled like one of the local options |
| `ArgsKept.LocalIsDropped` | pkg/cc/args.go:70-123 | each of the 19 options with values, the 7 without and everything with one of the 12 prefixes is dropped |
| `ArgsKept.CompileOptionsKept` | pkg/cc/args.go:528-550 | options that start with "-std=", "-O", "-g", "-f", "-m" or "-W" other than "-Wp," and "-Wl," are kept as often and in the same order |
| `ArgsKept.PicByText` | pkg/cc/args.go:554-576 | "-fPIE" and "-fPIC" are prepended, each exactly when it is the toolchain's default and no option of its own four is looked at |
| `ArgsKept.SentKeeps` | pkg/cc/controller/send.go:143-167 | those options reach the agent as often and in the order the command line has them after its own parsing, behind at most "-fPIE" and "-fPIC" |
| `ArgsLost.LocalOutputIsLost` | pkg/cc/args.go:528-550 | an output path spelled like a local option is not the output path after RemoveLocalArgs, and is not even there |
| `ArgsLost.OnlyOutputsAreLost` | pkg/cc/args.go:310-361 | where nothing rules out remote compilation, only values of "-o" can be lost |
| `ArgsLost.RequestKeptExactly` | pkg/cc/args.go:528-550 | for remote command lines whose overridden "-o" paths are kept, RemoveLocalArgs keeps action, input and output exactly when the output path is not spelled like a local option |
| `ArgsExact.RecordedIsLookedAt` | pkg/cc/args.go:245-375 | every index FlagIndexMap records is that of an argument the loop looks at, never of a value |
| `ArgsExact.BothIsWrong` | pkg/cc/controller/send.go:143-167 | with both "-c" and "-S" recorded, what is sent has an "-E" the command line did not have |
| `ArgsExact.SentRightExactly` | pkg/cc/controller/send.go:143-167 | for remote command lines whose overridden "-o" paths are kept, what is sent asks for the same actions, input and output exactly when not both "-c" and "-S" were recorded and the output path is not spelled like a local option |
| `ArgsMode.ModeKeptExactly` | pkg/cc/args.go:310-421 | where Parse is idempotent on the arguments, a second pass keeps the mode exactly unless remote compilation was allowed and an output was added after a joined "-x" |
| `ArgsExamples.JoinedLanguageBreaksMode` | pkg/cc/args.go:310-421 | for "-c a.c -xc" the first pass allows remote compilation and the second forbids it |
| `ArgsExamples.PreprocessingLosesAssembly` | pkg/cc/controller/send.go:143-167 | for "-c -S a.c", which Parse allows to be compiled remotely, what is sent is "-E -c a.c -o a.s" |
| `ArgsExamples.OutputPathIsReplaced` | pkg/cc/args.go:528-550 | for "-c a.c -o -Da.o", which Parse allows to be compiled remotely, RemoveLocalArgs leaves "-c a.c -o -o a.o" |
| `ArgsPreprocessor.PiecesSplit` | pkg/cc/args.go:505-505 | splitting at commas: joining gives the argument back, and no piece has one |
| `ArgsPreprocessor.ExpandedExactly` | pkg/cc/args.go:506-517 | by position: each piece at its place, "-MF" behind exactly those "-MD" and "-MMD" that a path follows, and nothing else |
| `ArgsPreprocessor.ExpandedLength` | pkg/cc/args.go:506-517 | and the expanded list ends where the last of these places does |
| `ArgsPreprocessor.WrappedCarries` | pkg/cc/args.go:500-521 | "-Wp," and some text is replaced by the pieces of that text, expanded |
| `ArgsPreprocessor.OthersStay` | pkg/cc/args.go:502-504 | an argument that does not start with "-Wp" is left alone |
| `ArgsPreprocessor.InsertDependencyFiles` | pkg/cc/args.go:506-517 | the inserting loop ends, and puts "-MF" exactly between "-MD" or "-MMD" and a path |
| `ArgsPreprocessor.UnwrappedAppend` | pkg/cc/args.go:499-521 | unwrapping is a flat map: it distributes over concatenation |
| `ArgsPreprocessor.NothingWrappedLeft` | pkg/cc/args.go:499-521 | no "-Wp," option is left |
| `ArgsPreprocessor.OtherWpOptionsAreDropped` | pkg/cc/args.go:502-505 | an argument disappears exactly when it has prefix "-Wp" and no comma |
| `ArgsSend.ParseRecordsActions` | pkg/cc/args.go:254-329 | FlagIndexMap holds an action option exactly when the scan saw it |
| `ArgsSend.PicKeepsMeaning` | pkg/cc/args.go:554-576 | prepending PIC options changes neither input, output nor actions |
| `ArgsSend.SentAsksTheSame` | pkg/cc/controller/send.go:143-167 | what is sent has no local-only option and asks for the same actions, input and output; preprocessing in between left the command line as it was |
| `ArgsSend.CompileCommandIsSendable` | pkg/cc/controller/send.go:143-167 | an ordinary compile command meets the conditions of SentAsksTheSame |
| `ArgParsing.RemoteArgs` | pkg/cc/args.go:529-547 | the loop of RemoveLocalArgs keeps exactly the remote arguments |
| `ArgParsing.ArgParser.constructor` | pkg/cc/args.go:169-174 | a parser starts with the arguments and no mode |
| `ArgParsing.ArgParser.Standardize` | pkg/cc/args.go:184-196 | shifting in place splits the first joined output |
| `ArgParsing.ArgParser.StripUnsupportedArgs` | pkg/cc/args.go:216-227 | deleting in place removes exactly the unsupported arguments |
| `ArgParsing.ArgParser.TakeOutput` | pkg/cc/args.go:330-361 | "-o" and its value: index and mode |
| `ArgParsing.ArgParser.LookAt` | pkg/cc/args.go:251-374 | one argument changes fields and flags as the scan says |
| `ArgParsing.ArgParser.ScanLoop` | pkg/cc/args.go:245-375 | the loop, skipping values one turn late, computes the scan and the mode |
| `ArgParsing.ArgParser.AddOutput` | pkg/cc/args.go:393-416 | an output path is added exactly when one is missing and needed |
| `ArgParsing.ArgParser.Parse` | pkg/cc/args.go:232-430 | the object afterwards is what the specification says and is well indexed |
| `ArgParsing.ArgParser.CurrentAction` | pkg/cc/args.go:454-463 | an action that was recorded, with none before it in the order "-c", "-S", "-E"; none exactly when none was; in a parsed command line the option stands where it was recorded |
| `ArgParsing.ArgParser.SetActionOpt` | pkg/cc/args.go:434-450 | replaces the recorded action or fails without change; indices stay right |
| `ArgParsing.ArgParser.ReplaceOutputPath` | pkg/cc/args.go:467-473 | replaces the output path or fails without change; indices stay right |
| `ArgParsing.ArgParser.UnwrapArgs` | pkg/cc/args.go:500-521 | the splicing loop ends and equals the flat map |
| `ArgParsing.ArgParser.ConfigurePreprocessorOptions` | pkg/cc/args.go:499-523 | unwraps and parses |
| `ArgParsing.ArgParser.RemoveLocalArgs` | pkg/cc/args.go:528-550 | drops the local options, parses, and leaves none |
| `ArgParsing.ArgParser.PrependExplicitPICArgs` | pkg/cc/args.go:554-576 | prepends what the defaults ask for and parses |
| `ArgParsing.ArgParser.DeepCopy` | pkg/cc/args.go:590-603 | a new object with the same contents |
| `ArgParsing.ArgParser.SwapOutput` | pkg/cc/preprocess.go:51-58 | the preprocessor is run with "-" for the output path, and the parser is as before afterwards |
| `ArgParsing.ArgParser.PreprocessAndRestore` | pkg/cc/controller/send.go:145-153 | the action and output changes around preprocessing, and what the preprocessor is run with |
| `ArgParsing.ArgParser.Process` | pkg/cc/controller/send.go:143-167 | for every command line no stage of which panics: refused exactly when parsing finds and adds no output; otherwise the output path is the one found, whatever preprocessing did to the action, and the arguments end as the ones of SentAsksTheSame and PreprocessingLosesAssembly |
| `PoolsFutures.RunOwned` | pkg/run/workerpool.go:125-152 | in every run each future has exactly one owner: the pool of futures, a manager, a manager and a worker, a worker, or nobody after a stop |
| `PoolsTasks.RunLocated` | pkg/run/workerpool.go:125-210 | in every run each task has one place and has been run exactly if its place says so |
| `PoolsResults.TaskInOnePlace` | pkg/consumerd/queue.go:231-246 | a submitted task is in exactly one of: its Exec call, a queue, a manager's hand, a future's buffer, a worker's hands, completed |
| `PoolsResults.RunAtMostOnce` | pkg/consumerd/queue.go:217-229 | at most one of a task's Local and Remote is run; a task a pool has completed was run by that pool exactly once |
| `PoolsResults.ExclusiveTasksStay` | pkg/consumerd/queue.go:201-246 | a task submitted for one pool is never run by the other |
| `PoolsRuns.TakesExactly` | pkg/consumerd/queue.go:159-207 | after any run a manager that has a worker to serve can take a queued task exactly when the task's exclusivity allows its pool |
| `PoolsRuns.WaitingCanRun` | pkg/consumerd/queue.go:159-246 | after any run a waiting task can be run and completed, alone, in every pool its exclusivity allows |
| `PoolsRuns.TaskCanRun` | pkg/consumerd/queue.go:159-246 | for every task, exclusivity and pool it allows there is a run after which that task has been run there, and nothing else |
| `PoolsRuns.CompletableExactly` | pkg/run/workerpool.go:125-210 | after any run a submitted task can still be completed exactly unless it is in the future of a stopped worker or held for it |
| `PoolsRuns.StillCompletes` | pkg/run/workerpool.go:125-210 | and then without another stop signal |
| `PoolsRuns.WorkersExactly` | pkg/run/workerpool.go:159-210 | the workers are those started and not stopped since |
| `PoolsRuns.StepsInOrder` | pkg/consumerd/queue.go:217-229 | in every run each task a worker was given takes the steps of its runner once each and in their order |
| `PoolsResults.OneUnfilledFuture` | pkg/run/workerpool.go:125-152 | at most one worker of a pool waits for an empty future |
| `PoolsResults.LossesBounded` | pkg/run/workerpool.go:159-210 | lost tasks never exceed stop signals; any other buffered task has a worker waiting for it |
| `PoolsResults.NothingLostWithoutStops` | pkg/run/workerpool.go:125-210 | without stop signals nothing is lost, and a task taken has a worker of its pool waiting |
| `PoolsResults.LostForever` | pkg/run/workerpool.go:191-210 | a lost task stays lost after any continuation |
| `PoolsResults.StopLosesTask` | pkg/run/workerpool.go:191-210 | one stop signal can cost one task |
| `PoolsLosses.LossesExactly` | pkg/run/workerpool.go:125-210 | after any run the most tasks that can be lost without another stop signal are as many as there are futures of stopped workers |
| `PoolsLosses.LossPossibleExactly` | pkg/run/workerpool.go:125-210 | after any run a task can be lost without another stop signal exactly when some stopped worker had a future |
| `PoolsLosses.StopCostsExactly` | pkg/run/workerpool.go:191-210 | a stop signal adds one to that number exactly when its worker has a future, and nothing when it is idle |
| `PoolsLosses.StopIsSafeExactly` | pkg/run/workerpool.go:191-210 | where no stopped worker had a future, stopping a worker can cost a task exactly when that worker has one |
| `PoolsTelemetry.CountersExact` | pkg/consumerd/telemetry.go:146-170 | in every run each counter is exact: workers with a task under way in each pool, tasks each pool completed, and all others as queued |
| `PoolsTelemetry.CountersConserved` | pkg/consumerd/telemetry.go:146-170 | the counters add up to the number of Exec calls exactly while no worker is between two updates |
| `RetryLoop.RunRequest` | pkg/consumerd/server.go:324-360 | attempts go on exactly while asked for; the answer is the first that does not ask again; exclusivity is Local from the first attempt that must be, and never goes back |
| `ExpirationHeap.SiftDownRepairs` | pkg/storage/local.go:543-561 | sifting down repairs the order below its start and keeps the entries |
| `ExpirationHeap.HeapifyRepairs` | pkg/storage/local.go:536-540 | heapify makes a heap of any slice, with the same entries |
| `ExpirationHeap.PushKeepsHeap` | pkg/storage/local.go:569-581 | a heap with one entry more |
| `ExpirationHeap.PopKeepsHeap` | pkg/storage/local.go:603-615 | a heap without the entry that was on top |
| `ExpirationHeap.RunsKeepHeap` | pkg/storage/local.go:536-615 | after any operations a heap holding pushes minus pops |
| `ExpirationHeap.PopReturnsMinimum` | pkg/storage/local.go:603-615 | in any run Pop returns the earliest entry pushed and not popped, and nothing exactly when there is none |
| `ExpirationHeap.DrainSorts` | pkg/storage/local.go:603-615 | draining gives all entries, sorted by date |
| `ExpirationHeap.ExpirationHeap.constructor` | pkg/storage/local.go:529-533 | empty |
| `ExpirationHeap.ExpirationHeap.SiftDown` | pkg/storage/local.go:543-561 | the loop ends and computes the sifted slice |
| `ExpirationHeap.ExpirationHeap.Heapify` | pkg/storage/local.go:536-540 | the loop ends and computes the heap |
| `ExpirationHeap.ExpirationHeap.Push` | pkg/storage/local.go:569-581 | the new slice, a heap with one entry more |
| `ExpirationHeap.ExpirationHeap.Peek` | pkg/storage/local.go:584-592 | an earliest entry, or none exactly when empty |
| `ExpirationHeap.ExpirationHeap.Pop` | pkg/storage/local.go:603-615 | removes and returns an earliest entry, or none exactly when empty |
| `ExpirationNotifier.RescanNeverLost` | pkg/storage/local.go:419-473 | while the waiter waits for a later date than the earliest and no Add may still signal, the rescan token is there |
| `ExpirationNotifier.PoppedExactly` | pkg/storage/local.go:448-473 | in every run the entry popped has the date waited for exactly when nothing in the heap is earlier, and with distinct dates it is then and only then the one notified |
| `ExpirationNotifier.PoppedIsNotified` | pkg/storage/local.go:448-473 | orderly runs meet that condition with no token and no Add that may still signal |
| `ExpirationNotifier.WakeNeverLost` | pkg/storage/local.go:481-493 | with Adds that do not overlap, Monitor is never parked on a non-empty heap without a token |
| `ExpirationNotifier.SequentialIsOrderly` | pkg/storage/local.go:419-440 | Adds that do not overlap meet the condition of RescanNeverLost |
| `ExpirationNotifier.DeadStep` | pkg/storage/local.go:419-493 | an event leaves the goroutine dead exactly when it was, or the event is an Add issued while it is parked on a non-empty heap, with no token and no Add about to send one |
| `ExpirationNotifier.DeadExactly` | pkg/storage/local.go:419-493 | in every run the goroutine is dead exactly when the run has such an Add |
| `ExpirationNotifier.ParkedIsAwakeOrDead` | pkg/storage/local.go:481-493 | in every run, parked on a non-empty heap with no Add under way, the token is missing exactly when the run has such an Add |
| `ExpirationNotifier.KillersOverlap` | pkg/storage/local.go:433-439 | the Add that kills finds one entry, and overlaps an Add that has not counted yet |
| `ExpirationNotifier.DeadForever` | pkg/storage/local.go:481-493 | then no continuation notifies anything |
| `ExpirationRuns.PoppableExactly` | pkg/storage/local.go:443-493 | after any run an entry of the heap can still be popped exactly unless the goroutine is dead |
| `ExpirationRuns.EntriesConserved` | pkg/storage/local.go:419-473 | in every run each entry added is in the heap or was popped, as often as it was added |
| `ExpirationRuns.TokensExactly` | pkg/storage/local.go:425-493 | in every run each of the two channels holds a token exactly when one was sent since the last was taken |
| `ExpirationNotifier.OverlappingAddsLoseWake` | pkg/storage/local.go:433-439 | two overlapping Adds lead there |
| `ExpirationNotifier.EarlierEntryIsDropped` | pkg/storage/local.go:460-468 | an earlier entry added before the Pop is dropped in place of the one notified |
| `ExpirationRescan.LostStep` | pkg/storage/local.go:419-473 | an event loses the rescan exactly when it is the comparison of an Add with a top of another hash, while the waiter waits past the top with no token and no other Add may signal; lost, it stays so until the timer or the next Add |
| `ExpirationRescan.RescanLostExactly` | pkg/storage/local.go:419-473 | in every run the rescan is lost exactly when the run has such a comparison, and neither the timer nor an Add since |
| `ExpirationRescan.LostExactly` | pkg/storage/local.go:419-473 | lost means: waiting past an entry of the heap, with no token and no Add that may still signal |
| `ExpirationTies.TiesLoseRescan` | pkg/storage/local.go:425-431 | overlapping Adds with equal dates can leave the waiter waiting past the earliest date |
| `ChainStorage.PutIsAtomic` | pkg/storage/chain.go:74-85 | with the volatile layer first, Put changes all layers or none, and fails exactly when that layer has the key |
| `ChainStorage.RunAgrees` | pkg/storage/chain.go:74-121 | after any run in which no Put succeeds during a backfill of its key with another object, all layers and backfills that have a key have the data of its last successful Put, and without a remote layer its date |
| `ChainStorage.OneMapExactly` | pkg/storage/chain.go:74-121 | in all such runs every object a Get finds has the data of the last successful Put exactly when no layer below the first is volatile |
| `ChainStorage.DatesKeptExactly` | pkg/storage/s3.go:160-280 | and its expiration date exactly when, besides, no layer is remote |
| `ChainStorage.SuccessWithoutObject` | pkg/storage/chain.go:91-104 | Get reports success without an object exactly when the chain has no layers |
| `ChainStorage.FailedPutIsServed` | pkg/storage/chain.go:79-83 | a run for each chain with a volatile layer below the first: a Put that fails is served |
| `ChainStorage.RemoteDateIsServed` | pkg/storage/s3.go:160-280 | a run for each chain with a remote layer: Get returns the object with the bucket's date |
| `ChainStorage.LatePutIsUndone` | pkg/storage/chain.go:107-116 | after any run, a Put that succeeds during a backfill of its key with another object can be undone by that backfill and evictions alone |
| `ChainStorage.PutIsSafeExactly` | pkg/storage/chain.go:74-121 | after any such run, a Put is what every Get of every such continuation finds exactly when no backfill of its key with another object is under way |
| `ChainStorage.ReplacedObjectIsServed` | pkg/storage/chain.go:107-116 | a run for each chain of two or more layers, the first one only volatile: Get returns an object that was replaced |
| `ChainStorage.LateBackfillsExactly` | pkg/storage/chain.go:74-121 | every object a Get finds is that of the last successful Put in all runs whatever exactly when the chain has at most one layer |
| `ChainReads.SearchExactly` | pkg/storage/chain.go:91-104 | a Get finds the key in the first layer that has it and, if in memory, not out of date; layers passed over lose what is out of date, and nothing else changes |
| `ChainReads.PutThenGet` | pkg/storage/chain.go:74-104 | with the volatile layer first, what was put is what is got next while it is not out of date |
| `ChainReads.BackfillReaches` | pkg/storage/chain.go:107-116 | the backfill of a Get, alone, puts the object into every layer above, refused nowhere, and the next Get finds it in the first |
| `ChainReads.StepsFinish` | pkg/storage/chain.go:107-116 | after any run the steps of a backfill, with nothing in between, complete it and end it |
| `ChainReads.GetExactly` | pkg/storage/chain.go:87-121 | after any run a Get: what each layer has afterwards, and that a backfill is under way exactly if the object was found below the first layer |
| `ChainReads.GetThenBackfill` | pkg/storage/chain.go:87-121 | and its backfill, undisturbed: every layer above the one that answered has the object, and no backfill is left |
| `ChainReads.OldObjectIsServed` | pkg/storage/local.go:273-305 | an object out of date is served from any layer that is not in memory |
| `ChainReads.FreshExactly` | pkg/storage/volatile.go:113-128 | no Get returns an object out of date, after any run, exactly when all layers are in memory |
| `ChainStorage.ChainStorageProvider.constructor` | pkg/storage/chain.go:45-55 | starts with empty layers |
| `ChainStorage.ChainStorageProvider.Put` | pkg/storage/chain.go:74-85 | the loop stores in order up to the first refusal |
| `ChainStorage.ChainStorageProvider.Get` | pkg/storage/chain.go:87-121 | the loop finds the first layer with the key, and the backfill that is started has the object and the layers above |
| `ChainStorage.ChainStorageProvider.Backfill` | pkg/storage/chain.go:107-116 | the goroutine's loop, alone, fills the layers above up to the first refusal |
| `Monitor.ConnectAgrees` | pkg/monitor/server.go:291-307 | connecting is refused exactly for a known identity, and keeps the agreement |
| `Monitor.DisconnectAgrees` | pkg/monitor/server.go:339-348 | disconnecting keeps the agreement |
| `Monitor.PostAgreesExactly` | pkg/monitor/server.go:369-398 | a post keeps the agreement exactly when it does not overwrite the stored table |
| `Monitor.DeletedTableDisagrees` | pkg/monitor/server.go:371-375 | deleting the stored table breaks it |
| `Monitor.AnnounceSeen` | pkg/monitor/server.go:239-256 | listeners are sent the table when it changed, never twice in a row, and end up with it |
| `Monitor.Run` | pkg/monitor/server.go:271-350 | after any operations under one's own UUID everything agrees and the last table sent is the current one |
| `Monitor.StartsAndCancels` | pkg/clients/monitor.go:262-302 | one start per appearance, one cancel per removal, live exactly the last update |
| `Monitor.ClientFollowsServer` | pkg/clients/monitor.go:262-302 | a client that followed all tables has live handlers for exactly the connected providers |
| `MonitorMetrics.PostedExactly` | pkg/monitor/server.go:369-398 | a post to a known bucket sets or deletes that metric and no other, and sends it to listeners exactly when it was another before |
| `MonitorMetrics.RunReflects` | pkg/monitor/server.go:271-398 | after any run the providers listed, the value of every metric outside the monitor's own bucket, and the values its listeners were sent are those read off the operations |
| `Monitor.MonitorServer.constructor` | pkg/monitor/server.go:73-117 | starts with the monitor as its own provider, in agreement |
| `Monitor.MonitorServer.ProvidersUpdated` | pkg/monitor/server.go:239-256 | posts the table |
| `Monitor.MonitorServer.PostMetric` | pkg/monitor/server.go:369-398 | stores, deletes or refuses, and notifies only on a change |
| `Monitor.MonitorServer.Attach` | pkg/monitor/server.go:291-307 | adds bucket and provider together, or refuses without change |
| `Monitor.MonitorServer.Detach` | pkg/monitor/server.go:339-348 | removes bucket and provider together |
| `Monitor.ProviderWatch.constructor` | pkg/clients/monitor.go:262-264 | no handlers |
| `Monitor.ProviderWatch.DoUpdate` | pkg/clients/monitor.go:266-295 | the two loops cancel exactly the removed and start exactly the added |

## Left out

- Liveness ("every request is eventually answered"): AnswerableExactly and CompletableExactly say which requests and tasks can still be answered or completed; fairness of the goroutines, and so when they are, is not modelled.
- Route closing and UpdateSenderToolchains: a route can be cancelled while others are attached to it, so nothing is claimed about when its channel closes.
- The counters requestCount, completedTasks and failedTasks of the broker: they are not read by the protocol, and requestCount is incremented twice per request.
- Goroutines, mutexes and contexts as such: concurrent parts are transition systems over atomic actions, so data races inside one action, aliasing of shared requests and cancellation order are not modelled. ManagedFields, which requests share by reference, are kept by request ID.
- Connecting an agent with a limit above MaxTokens: filling its token channel would block, so no such stream is served in the model.
- Toolchain and request digests: MD5 is taken as injective, the bytes hashed stand for the digest. Equal request hashes are not claimed to mean equal requests, since arguments are hashed without separators.
- UUIDs are natural numbers in the broker and strings in the monitor; only their equality matters.
- ArgParsing.ArgParser.Parse: requires that no argument it looks at is empty, because the code indexes the first character of each.
- ArgParsing.ArgParser.ConfigurePreprocessorOptions: requires that no empty piece follows "-MD" or "-MMD", because the code indexes its first character.
- ArgsSend.SentAsksTheSame: is stated for command lines on which Parse is idempotent, without both "-c" and "-S", and whose "-o" and "-x" values are not local options; SentRightExactly says of remote ones that these conditions are the right ones. What is sent otherwise is still what Sent says.
- ArgsExact.SentRightExactly and ArgsLost.RequestKeptExactly: that a local output path is lost holds for every command line (LocalOutputIsWrong, LocalOutputIsLost); that nothing else is lost is not shown where Parse is not idempotent, nor where an "-o" that a later one overrides has a local path, since it then depends on which argument the first "-o" takes instead.
- ArgParsing.ArgParser.Process: requires that no stage panics, that is, the conditions of Parse and ConfigurePreprocessorOptions at each of the three parses.
- ReplaceInputPath and PrependLanguageFlag of the parser, which sending a job does not use; running the preprocessor and compilers; the early return when preprocessing fails.
- Worker pools: the size of the worker set during Resize, pausing, channel capacities and order, and the closing of an upstream queue. Stop signals may arrive at any time and number, which includes those of every Resize.
- Telemetry counters are unbounded integers, not 32-bit; recording, filtering and regression of their history are left out.
- ExpirationNotifier.RescanNeverLost: Orderly, a condition on the Adds of a run, is sufficient and not necessary; the exact condition, on the comparisons of the run, is RescanLostExactly.
- The clock of the expiration notifier: the timer and ForceExpiration may be chosen at any time; context cancellation is left out.
- Size accounting and file operations of the local store, and the remote store's client: both are maps that overwrite, and the remote one returns any date. The buffer the remote store returns and gives back to a pool at once is taken as a value. ChainStorageProvider.Query, which indexes the providers by key, and I/O errors are left out.
- A Put of the layered cache and the search of a Get are one step each: Puts of one key that interleave layer by layer are not modelled, the steps of backfills are.
- The monitor's Stream returns with its mutex held when an identity is in use; locking, late joins of listeners and message order per listener are left out, each write-locked section is one step.
- Logging, tracing, metrics export, health updates, key parsing, the Kubernetes operator, command-line tools, gRPC and protobuf encodings.
