# A verified model of the trading-evaluation platform

This project models the parts of the platform on which its verdicts rest, and proves what they promise.

- **One engine, three books.** `FlatBook` specifies price-time priority as one sequence of resting orders a side.
  `OrderBook` (sorted levels of FIFO queues with an id index), `SampleBook` (the C++ server's ordered maps of deques)
  and `BotBook` (levels without an index) are the imperative programs, each proved to compute it for every order,
  including ones the platform would not send: repeated ids, non-positive quantities, unknown kinds. `Answers` says
  what every order does in prices and quantities alone, `MatchingLaws` what greedy execution promises; `Lockstep`
  exactly when the C++ server and the Go book go on answering alike, and that the server is then never accused;
  `FreshIds` that fresh ids are enough; `LongRuns` composes this over tests, contestants and flushed batches.
- **The judge.** `Validator` replays telemetry through one book per contestant and acquits exactly the acceptable
  replies; `Replay` and `Pipeline` prove that grouping by contestant, map iteration order and cutting into batches
  change no verdict.
- **The test lifecycle.** `Orchestrator` is a state machine over any number of instances with calls in flight, one
  database, Redis or Kafka operation a step; `Exclusion`, `Lifecycle` and `SharedTopic` prove mutual exclusion and
  its history properties. `Alone` writes StartTest, StopTest and FailTest as sequential programs, which `Outcomes`
  proves every call that runs alone to come to; `Echoes` says what an instance's own events do when they come back,
  and `Scenarios` holds the runs that show where the guarantees end.
- **Latency.** `Latency` and `SlidingWindow`: a counting histogram refines sort-and-index, a ring of histograms
  refines the window of the last n epochs.
- **The hub.** `Hub`: an event loop over queues whose relative order is up to the scheduler; `Disconnection`: when a
  client that leaves stays out.
- **Numbers and text.** `Anomaly` (Welford), `Prediction` (least squares), `Scoring` (leaderboard) and `Fix` (FIX 4.2
  messages), over `Reals`, `StableSort` and `Common`.

Programs that change state are classes or methods on arrays, proved against specification functions; the laws are
lemmas about those functions and invariants over whole runs. Prices, quantities, latencies in scores and statistics
are exact reals; counts and microseconds are unbounded integers.

## Findings

- A START_TEST that comes back to the orchestrators is harmless as long as taking the Redis lock works. If that call
  returns an error, the consumer answers by failing the test (`services/orchestrator/consumer.go:117-119`): one that
  is running or stopping is ended, one that is over is left alone. `Echoes.EchoExactly` is the exact condition,
  `Scenarios.EchoEndsRunningTest` a run that meets it.
- The Go and the C++ book can part when an id rests more than once, which ids of four random bytes
  (`services/bot-fleet/bots/base_bot.go:41-45`) do not rule out. Go cancels the first copy, bids before asks; C++
  cancels at the side and price of the last one to rest. They part exactly at a cancel for which those differ
  (`Lockstep.LockstepExactly`); a copy at the same price, or a newer one at a better price, does no harm. Once
  parted, the validator can call a right price wrong (`Lockstep.RepeatedIdAccused`). Orders of an unknown type are
  always held against the contestant (`Lockstep.UnknownKindAccused`).
- A WebSocket client's disconnection takes effect for good exactly when the client is not still waiting in the
  register queue (`Disconnection.SticksExactly`). If it is, the client is let in afterwards, room permitting, and
  since it posts no second disconnection it stays until a broadcast finds its buffer full, and no longer
  (`Disconnection.LateRegistration`).
- A latency outlier is absorbed before it is scored, so with n samples no z-score can exceed (n - 1) / sqrt(n)
  (`Anomaly.ScoreBounded`).

## Model

| member | source | states |
|---|---|---|
| `ShadowBook.OrderBook.ProcessOrder` | `services/telemetry-ingester/shadowbook/order_book.go:57-86` | For every order whatsoever, the level-and-queue book and the flat price-time sequence answer with the same fill and stay the same book; level order and spread are kept |
| `Answers.StepAnswers` | `services/telemetry-ingester/shadowbook/order_book.go:57-185` | Every order of every kind, in prices and quantities alone: what rests at prices it accepts decides how much it trades, at which price, with which status, what is left of both sides and where it rests; a limit order never trades beyond its limit and leaves nothing within it while it has something left; a cancel deletes the first order with its id |
| `Answers.ExecTakes` | `services/telemetry-ingester/shadowbook/order_book.go:88-140` | Greedy execution takes what is available at accepted prices, up to what is wanted, from the front |
| `Answers.OnlyAccepted` | `services/telemetry-ingester/shadowbook/order_book.go:119-124` | From the first order beyond the limit on, the side is as it was |
| `Answers.InsertRests` | `services/telemetry-ingester/shadowbook/order_book.go:150-165` | An order rests behind every order at its own or a better price and in front of every worse one |
| `ShadowBook.OrderBook.Sweep` | `services/telemetry-ingester/shadowbook/order_book.go:88-140` | Both match loops, empty levels present: they end, execute exactly the flat greedy execution, take exactly the used-up ids out of the index, and leave no crossing level while something remains |
| `ShadowBook.OrderBook.DrainLevel` | `services/telemetry-ingester/shadowbook/order_book.go:92-103` | The inner loop over one queue: trading against it is trading against the front of the flat side |
| `ShadowBook.OrderBook.MatchMarket` | `services/telemetry-ingester/shadowbook/order_book.go:88-115` | The three reports of a market order, tied to the flat execution, whole new book stated |
| `ShadowBook.OrderBook.MatchLimit` | `services/telemetry-ingester/shadowbook/order_book.go:117-148` | The three reports of a limit order and what is left of it; if something is left no level, empty or not, crosses it |
| `ShadowBook.OrderBook.Insert` | `services/telemetry-ingester/shadowbook/order_book.go:150-165` | Resting by level search, append and stable sort is insertion behind every order at no worse a price, and keeps the spread |
| `ShadowBook.OrderBook.Cancel` | `services/telemetry-ingester/shadowbook/order_book.go:167-185` | Succeeds exactly for indexed ids, and takes one order out of the flat book although its level stays |
| `ShadowBook.OrderBook.ValidSpread` | `services/telemetry-ingester/shadowbook/order_book.go:43-49` | Neighbouring levels in order and best levels apart is the same as all levels in order and every bid level below every ask level |
| `ShadowBook.OrderBook.ValidIsSound` | `services/telemetry-ingester/shadowbook/order_book.go:43-49` | Whatever empty levels there are, the resting orders are sorted by price, positive and uncrossed |
| `Levels.HeadBlocks` | `services/telemetry-ingester/shadowbook/order_book.go:119-124` | Stopping at a head level that does not cross is right even when that level is empty |
| `Levels.ExecOne` | `services/telemetry-ingester/shadowbook/order_book.go:93-102` | One trade against the head of a queue is one step of the flat execution |
| `Levels.AppendInserts` | `services/telemetry-ingester/shadowbook/order_book.go:152-156` | Appending to the level at the price is price-time insertion in the flattened book |
| `Levels.NewLevelInserts` | `services/telemetry-ingester/shadowbook/order_book.go:158-164` | Appending a level and sorting is price-time insertion in the flattened book |
| `Levels.NewLevelOrdered` | `services/telemetry-ingester/shadowbook/order_book.go:158-164` | A new level sorted into place keeps level prices strictly ordered |
| `Levels.RemoveFrom` | `services/telemetry-ingester/shadowbook/order_book.go:173-182` | The nested search deletes the first order with the id, reports whether there was one, and changes no level price |
| `Levels.FlattenSorted` | `services/telemetry-ingester/shadowbook/order_book.go:43-49` | Ordered levels flatten to a sequence sorted by price |
| `MatchingLaws.ExecLeaves` | `services/telemetry-ingester/shadowbook/order_book.go:90-107` | Execution leaves the book less the greedy allocation, defined without the loop |
| `MatchingLaws.ExecFills` | `services/telemetry-ingester/shadowbook/order_book.go:90-107` | Execution fills the greedy allocation's sum |
| `MatchingLaws.Conservation` | `services/telemetry-ingester/shadowbook/order_book.go:90-107` | Filled plus remaining is the order's quantity, and the opposite side loses exactly what was filled |
| `MatchingLaws.FillsInPriority` | `services/telemetry-ingester/shadowbook/order_book.go:90-107` | Only orders at prices the incoming one accepts trade, an order trades only once all ahead of it are used up, and only the last can be partial; one at an accepted price that is not used up means the order is complete |
| `MatchingLaws.FillsTheMost` | `services/telemetry-ingester/shadowbook/order_book.go:117-148` | No other choice of orders at accepted prices fills more |
| `MatchingLaws.LastIsWorst` | `services/telemetry-ingester/shadowbook/order_book.go:96` | The reported price is that of the last order touched, the worst one traded at |
| `MatchingLaws.BestExecution` | `services/telemetry-ingester/shadowbook/order_book.go:88-148` | No other way to take the same total is cheaper for a buyer or pays a seller more |
| `MatchingLaws.Marginal` | `services/telemetry-ingester/shadowbook/order_book.go:88-148` | There is an order such that all ahead are used up at no worse a price and none behind is touched |
| `MatchingLaws.StepKeepsSound` | `services/telemetry-ingester/shadowbook/order_book.go:57-185` | Every order keeps both sides sorted, positive and uncrossed |
| `MatchingLaws.StepKeepsIndexed` | `services/telemetry-ingester/shadowbook/order_book.go:57-185` | While new limit orders bring new ids, the index is exactly the set of resting ids and none rests twice |
| `MatchingLaws.RunKeepsSound` | `services/telemetry-ingester/shadowbook/order_book.go:57-185` | The same over every run |
| `MatchingLaws.RunKeepsIndexed` | `services/telemetry-ingester/shadowbook/order_book.go:57-185` | The same over every run of fresh orders |
| `SampleBook.Book.HandleOrder` | `testdata/sample-orderbook/main.cpp:57-118` | The map-of-deques book answers every order as the flat book with a lookup table does, erased deques included |
| `SampleBook.Book.HandleCancel` | `testdata/sample-orderbook/main.cpp:120-146` | Cancel by looked-up side and price deletes the first order with that id and price, and the entry |
| `SampleBook.Book.Reset` | `testdata/sample-orderbook/main.cpp:148-151` | Reset empties both sides and the table |
| `SampleBook.Book.MatchAndRest` | `testdata/sample-orderbook/main.cpp:67-99` | The buy and sell branches: matching loop, then resting what is left of a limit order |
| `SampleBook.Book.Consume` | `testdata/sample-orderbook/main.cpp:68-78` | The outer loop over the first deque of a map is the flat execution, and no empty deque is left |
| `SampleBook.Book.DrainDeque` | `testdata/sample-orderbook/main.cpp:72-76` | The inner loop over one deque is the flat execution of its front |
| `SampleBook.PushInserts` | `testdata/sample-orderbook/main.cpp:79-82` | `push_back` at a map key is price-time insertion in iteration order |
| `SampleBook.Erase` | `testdata/sample-orderbook/main.cpp:126-143` | Erasing from the deque at a price, and the deque once empty, deletes the first order with that id and price and keeps the map filed |
| `Lockstep.SameRemoval` | `testdata/sample-orderbook/main.cpp:126-143` | Deleting the first order with an id (Go) and the first with an id and price (C++) are the same exactly when the first with the id has that price, or there is none |
| `Lockstep.CancelAlike` | `testdata/sample-orderbook/main.cpp:120-146` | A cancel is always answered alike, and leaves the same books exactly when the table entry names side and price of the first resting copy, bids first, or no copy rests |
| `Lockstep.StepInLockstep` | `testdata/sample-orderbook/main.cpp:57-146` | From the same books, any order whatsoever: the replies agree exactly when its kind is known, and the books stay the same exactly when it is not a cancel whose table entry points past the first copy |
| `Lockstep.OnePlaceResolves` | `testdata/sample-orderbook/main.cpp:120-146` | An id whose every copy rests at the side and price in the table does no harm, however often it rests |
| `Lockstep.LockstepExactly` | `testdata/sample-orderbook/main.cpp:57-146` | Over every run of any orders: the programs agree on every reply and every book if and only if no order is of an unknown kind and no cancel is pointed past the first copy |
| `Lockstep.RunInLockstep` | `testdata/sample-orderbook/main.cpp:57-146` | Reply by reply, over every such run, repeated ids included |
| `FreshIds.FreshIsProper` | `testdata/sample-orderbook/main.cpp:57-146` | Fresh ids are enough: if no limit order brings an id that is still resting, no cancel is pointed past the first copy, over every run |
| `Lockstep.AgreementAccepted` | `services/telemetry-ingester/shadowbook/correctness_validator.go:58-119` | The comparison accepts every agreeing reply, of whatever status |
| `Lockstep.EventAccepted` | `services/telemetry-ingester/shadowbook/correctness_validator.go:34-54` | One event of a server in lockstep is judged correct and keeps the books the same, across the reset at a new test |
| `Lockstep.TestAccepted` | `services/telemetry-ingester/shadowbook/correctness_validator.go:34-54` | The rest of a test, from any point in it, is judged correct event by event |
| `Lockstep.NoFalseAccusation` | `services/telemetry-ingester/shadowbook/correctness_validator.go:26-119` | One test of a contestant on the reference server, judged as one batch whatever sessions there are, gets only correct verdicts, over every run in lockstep |
| `Lockstep.UnknownKindAccused` | `testdata/sample-orderbook/main.cpp:101-110` | An order of an unknown kind, pending in C++ and rejected in Go, is always held against the contestant |
| `Lockstep.RepeatedIdAccused` | `services/telemetry-ingester/shadowbook/order_book.go:167-185` | That parting matters: a run in which the newer copy is worse priced, so that the two books cancel different orders and the server is accused of a wrong price |
| `Lockstep.ServeOn` | `testdata/sample-orderbook/main.cpp:57-146` | The C++ book, from whatever state, driven order by order gives the replies of the specification |
| `Lockstep.ServeAll` | `testdata/sample-orderbook/main.cpp:57-146` | The same from a new book |
| `Lockstep.ServeAndJudge` | `services/telemetry-ingester/shadowbook/correctness_validator.go:26-56` | Both programs together: serve any run in lockstep, validate its telemetry, and every verdict is correct |
| `LongRuns.StreamAccepted` | `services/telemetry-ingester/shadowbook/correctness_validator.go:34-54` | Test after test of one contestant, each on an emptied book, every event is judged correct |
| `LongRuns.RecordsAreStream` | `services/telemetry-ingester/pipeline.go:40-74` | However the stream is cut into flushed batches and the contestants visited, one contestant is recorded with the verdicts of its own stream judged event by event |
| `LongRuns.NeverAccused` | `services/telemetry-ingester/pipeline.go:40-74` | Over any number of tests, batches and other contestants, one on the reference server is recorded correct for every event of every test, and nothing of it is missing |
| `LongRuns.PlayAll` | `testdata/sample-orderbook/main.cpp:148-151` | One server, reset before each test, gives the telemetry of tests each served from an empty book |
| `LongRuns.Drive` | `services/telemetry-ingester/reorder_buffer.go:26-61` | Buffer, flush and pipeline, tick by tick, record what the specification of the flushes does |
| `LongRuns.DriveAndJudge` | `services/telemetry-ingester/pipeline.go:40-74` | The programs together: everything the pipeline adds to its records about such a contestant is correct and complete |
| `BotBook.ShadowBook.AddOrder` | `services/bot-fleet/bots/shadow_book.go:43-68` | The index-free book computes its flat specification for every order |
| `BotBook.Sweep` | `services/bot-fleet/bots/shadow_book.go:70-120` | Its match loops are the flat execution |
| `BotBook.ShadowBook.Insert` | `services/bot-fleet/bots/shadow_book.go:131-145` | Resting with an unstable sort is still price-time insertion |
| `BotBook.OnlySorting` | `services/bot-fleet/bots/shadow_book.go:138-144` | With distinct prices any sorted permutation is the stable one |
| `BotBook.ShadowBook.Cancel` | `services/bot-fleet/bots/shadow_book.go:147-159` | Reports whether the id rested and deletes its first order |
| `BotBook.SameFill` | `services/bot-fleet/bots/shadow_book.go:43-159` | For the four order types it returns the indexed book's fill, a cancel always reports success, and the books stay the same exactly when it is not a cancel of an id that rests but is no longer indexed |
| `BotBook.SameExactly` | `services/bot-fleet/bots/shadow_book.go:43-159` | Over every run of any orders, the books are the same throughout if and only if no such cancel is among them |
| `BotBook.FreshNeverMissed` | `services/bot-fleet/bots/shadow_book.go:147-159` | With fresh ids there is none |
| `BotBook.SameFills` | `services/bot-fleet/bots/shadow_book.go:43-159` | The same fills over every run without such a cancel |
| `Validator.CorrectnessValidator.ValidateBatch` | `services/telemetry-ingester/shadowbook/correctness_validator.go:26-56` | Sorts a copy, judges event by event on per-contestant books that reset at a new test, leaves exactly the sessions of that replay, and every verdict it returns is the just one |
| `Validator.VerdictsJust` | `services/telemetry-ingester/shadowbook/correctness_validator.go:26-119` | A verdict is correct if and only if the reply is acceptable, by statuses and numbers, against the fill that the contestant's own orders of that test lead to expect; and the reason given is true |
| `Validator.JustVerdict` | `services/telemetry-ingester/shadowbook/correctness_validator.go:58-119` | The comparison accepts exactly the acceptable replies: never a missing one, the three cancel replies for a cancel, the tolerated pairs of statuses, no negative quantity, no overfill beyond 1e-9, no price off by more than 0.01 |
| `Validator.ReplayedBook` | `services/telemetry-ingester/shadowbook/correctness_validator.go:34-54` | The book an event is judged by is what the contestant's own orders make of an empty book since the last event of another test |
| `Validator.CorrectnessValidator.ValidateOne` | `services/telemetry-ingester/shadowbook/correctness_validator.go:34-54` | One event changes its own contestant's session only |
| `Validator.CorrectnessValidator.OpenBook` | `services/telemetry-ingester/shadowbook/correctness_validator.go:38-44` | A new contestant or a new test starts from an empty book, otherwise the book goes on |
| `Replay.Local` | `services/telemetry-ingester/shadowbook/correctness_validator.go:33-55` | A contestant's verdicts and session depend on its own events and session only |
| `Replay.Confluence` | `services/telemetry-ingester/pipeline.go:45-53` | Any order of visiting contestants gives each the session and verdicts of the whole batch judged at once |
| `Replay.BatchSplit` | `services/telemetry-ingester/shadowbook/correctness_validator.go:26-56` | Two batches in turn give a contestant the session and verdicts of their concatenation, resets included, when its events in them are in sequence |
| `Pipeline.ReorderBuffer.Add` | `services/telemetry-ingester/reorder_buffer.go:26-30` | Appends to what is pending |
| `Pipeline.ReorderBuffer.Flush` | `services/telemetry-ingester/reorder_buffer.go:47-61` | Hands on the stable sort of what is pending, nothing when that is empty, and clears it |
| `Pipeline.FlushSortsStably` | `services/telemetry-ingester/reorder_buffer.go:57-59` | A flushed batch is a sorted permutation in which equal numbers keep their arrival order |
| `StableSort.SortStable` | `services/telemetry-ingester/reorder_buffer.go:57-59` | Sorting commutes with every filter, so every group is sorted as if alone |
| `StableSort.SortIdentity` | `services/telemetry-ingester/shadowbook/correctness_validator.go:29-31` | The re-sort changes nothing exactly when the batch is sorted |
| `Pipeline.VerdictsAligned` | `services/telemetry-ingester/shadowbook/correctness_validator.go:26-56` | Verdict i belongs to event i for every i exactly when the batch came in sorted |
| `Pipeline.Pipeline.ProcessBatch` | `services/telemetry-ingester/pipeline.go:40-74` | In whatever order the map yields the groups, each contestant with events is visited once, and sessions and records are those of pairing by position in that order |
| `Pipeline.Group` | `services/telemetry-ingester/pipeline.go:41-44` | Each contestant's entry is its events in order |
| `Pipeline.RecordedRightly` | `services/telemetry-ingester/pipeline.go:45-53` | Pairing by position records every event with its own verdict exactly when every group is sorted |
| `Pipeline.FlushedBatchRecorded` | `services/telemetry-ingester/pipeline.go:40-74` | From buffer to records: whatever was added and whatever the visiting order, each contestant is recorded with its events' own verdicts of the whole batch judged at once |
| `Exclusion.NextKeeps` | `services/orchestrator/state_machine.go:58-254` | The invariant over rows, locks and all calls in flight is kept by every step of every instance, errors, crashes and lock expiry included |
| `Exclusion.CommitStep` | `services/orchestrator/db.go:32-42` | A compare-and-set that takes effect keeps it, despite stale reads elsewhere |
| `Exclusion.UnlockStep` | `services/orchestrator/state_machine.go:235-239` | An unconditional delete keeps it |
| `Exclusion.LockStep` | `services/orchestrator/state_machine.go:92-100` | Taking a free lock keeps it |
| `Exclusion.RecoveryKeeps` | `services/orchestrator/crash_recovery.go:68-102` | Finding orphans and reinstalling timers, however stale, keep it |
| `Exclusion.RunKeeps` | `services/orchestrator/state_machine.go:58-254` | The invariant holds in every reachable state |
| `Outcomes.BegunAlone` | `services/orchestrator/state_machine.go:84-194` | From every reachable state, a StartTest, StopTest or FailTest that runs alone leaves exactly the state that the sequential program leaves, whichever of its operations return an error |
| `Outcomes.ConsumedAlone` | `services/orchestrator/consumer.go:79-93` | So does the next event of the topic: START_TEST starts its test, any other stops it |
| `Alone.StartsAlone` | `services/orchestrator/state_machine.go:84-146` | The single operations of StartTest, and of the FailTest its failure leads to, add up to the sequential program |
| `Alone.StopsAlone` | `services/orchestrator/state_machine.go:148-180` | The same for StopTest |
| `Alone.FailsAlone` | `services/orchestrator/state_machine.go:182-194` | The same for FailTest |
| `Outcomes.RefusedStart` | `services/orchestrator/state_machine.go:93-100` | In any interleaving, a start that finds its contestant's lock taken returns and changes nothing else |
| `Outcomes.LoserReturns` | `services/orchestrator/state_machine.go:67-73` | In any interleaving, a call that loses the race for a row does nothing more, but that a start gives its lock back |
| `Outcomes.StartWorks` | `services/orchestrator/state_machine.go:84-146` | StartTest without errors, in rows, locks, topic and changes: a pending test whose contestant's lock is free starts, and nothing else changes anything |
| `Outcomes.StopWorks` | `services/orchestrator/state_machine.go:148-180` | StopTest: a running test completes, and its lock is freed when its contestant is known |
| `Outcomes.FailWorks` | `services/orchestrator/state_machine.go:182-194` | FailTest: a test that is not over fails, likewise |
| `Outcomes.RecoveredTestEnds` | `services/orchestrator/crash_recovery.go:84-91` | A running orphan that is found and taken over is stopped by its new timer, completes and frees its contestant |
| `Outcomes.ExpiryUnblocks` | `services/orchestrator/state_machine.go:90-100` | A lock that nobody is left to release blocks its contestant only until its TTL runs out |
| `Outcomes.PublishedIsActedOn` | `services/orchestrator/consumer.go:35-47` | An event somebody publishes is acted on once its turn has come |
| `Outcomes.CrashForgets` | `services/orchestrator/state_machine.go:38-41` | A crash takes an instance's calls, running tests and findings, and nothing that is shared |
| `Exclusion.MutualExclusion` | `services/orchestrator/state_machine.go:85-146` | At most one test of a contestant is running or stopping, and it is the value in the contestant's lock |
| `Exclusion.ReleaseIsOwn` | `services/orchestrator/state_machine.go:226-239` | The delete in `releaseLock` takes away no lock but its own test's, and only once that test is not live |
| `Lifecycle.SwapsAreLegal` | `services/orchestrator/state_machine.go:59-73` | What a successful compare-and-set commits is legal from the status the row has then |
| `Lifecycle.LegalHistory` | `services/orchestrator/state_machine.go:22-26` | In every run a test's committed changes are a legal path, at most three, with exactly one ending once it is over |
| `Lifecycle.FinishedOnce` | `services/orchestrator/state_machine.go:149-194` | However timers, recovered timers, crash events and stops race, one call at most reaches `finish` for a test |
| `SharedTopic.PublishedOnce` | `services/orchestrator/state_machine.go:130-189` | Each test has at most one START_TEST and two STOP_TEST publications, and no others |
| `SharedTopic.TopicQuiesces` | `services/orchestrator/consumer.go:35-47` | Consumption is bounded by the events others publish plus the sum of status ranks, three at most per test |
| `Echoes.EchoChangesNothing` | `services/orchestrator/consumer.go:79-93` | In any interleaving, an echoed event for a test past that point changes no status, provided taking the lock returned no error |
| `Echoes.EchoExactly` | `services/orchestrator/consumer.go:111-121` | Alone, from any reachable state, an echo changes a status if and only if it is a START_TEST, taking the lock returns an error, the test is running or stopping, and the read and the swap of `FailTest` work; then it fails that test, and nothing else |
| `Echoes.OwnEventsAreEchoes` | `services/orchestrator/consumer.go:35-47` | Every event an instance published comes back for a test past the point it leads to |
| `Echoes.OwnEventExactly` | `services/orchestrator/consumer.go:79-93` | So consuming one of their own events changes a status in that one case and in no other |
| `Scenarios.EchoEndsRunningTest` | `services/orchestrator/consumer.go:111-121` | A run from the empty system that gets there: one test is submitted and started, its own START_TEST comes back, and the running test is failed |
| `Scenarios.ExpiryUnderDelete` | `services/orchestrator/state_machine.go:235-239` | Why a lock must not run out under a pending delete: a run in which the contestant's next test then takes it, and the delete frees it under that running test |
| `Latency.HDRHistogram.RecordValue` | `services/telemetry-ingester/latency/hdr_histogram.go:27-43` | Adds the sample to what the counters count, as it is when it is below ten seconds |
| `Latency.BucketIsNearest` | `services/telemetry-ingester/latency/hdr_histogram.go:27-33` | A latency from 0 to 9 999 999 is recorded as itself, any other as the nearest of these |
| `Latency.PercentileByCounts` | `services/telemetry-ingester/latency/hdr_histogram.go:46-62` | The percentile by counting, against n p itself: the one sample with none, or at most n p - 1, below it and more than n p - 1 up to it; zero without samples |
| `Latency.HDRHistogram.Percentile` | `services/telemetry-ingester/latency/hdr_histogram.go:46-62` | The scan returns the element of rank max(1, floor(n p)) of the sorted samples, for every p; for p up to 1 the final fallback is unreachable |
| `Latency.HDRHistogram.Reset` | `services/telemetry-ingester/latency/hdr_histogram.go:76-84` | Nothing is counted any more |
| `Latency.HDRHistogram.MergeFrom` | `services/telemetry-ingester/latency/hdr_histogram.go:88-97` | Counts the samples of both |
| `Latency.ScanFindsRank` | `services/telemetry-ingester/latency/hdr_histogram.go:54-60` | The value at which the running count reaches a rank is the element of that rank in sorted order |
| `Latency.RankWithin` | `services/telemetry-ingester/latency/hdr_histogram.go:50-53` | For p between 0 and 1 the rank lies within the samples |
| `Latency.PercentileOrderFree` | `services/telemetry-ingester/latency/hdr_histogram.go:88-97` | A percentile depends on the multiset of samples only, so merging gives that of the union |
| `Latency.PercentileMonotone` | `services/telemetry-ingester/latency/hdr_histogram.go:46-62` | A higher p never gives a lower value |
| `SlidingWindow.SlidingWindowHistogram.Record` | `services/telemetry-ingester/latency/sliding_window.go:25-29` | The history grows by the sample; every slot of the ring still holds its epoch |
| `SlidingWindow.SlidingWindowHistogram.Advance` | `services/telemetry-ingester/latency/sliding_window.go:32-37` | The history grows by an advance; the reused slot is empty and every other still holds its epoch |
| `SlidingWindow.SlidingWindowHistogram.GetPercentiles` | `services/telemetry-ingester/latency/sliding_window.go:41-54` | The three percentiles are those of the samples recorded since the n-th last advance, by a definition without a ring, for any ring of n slots; with every latency below ten seconds, of the latencies as they came |
| `SlidingWindow.WindowAsItCame` | `services/telemetry-ingester/latency/sliding_window.go:25-29` | Latencies below ten seconds are in the window as they came |
| `SlidingWindow.MergedPercentile` | `services/telemetry-ingester/latency/sliding_window.go:44-52` | Merging every slot with the current one last counts exactly the window |
| `SlidingWindow.RecentIsRange` | `services/telemetry-ingester/latency/sliding_window.go:41-54` | The window is the current epoch and the n - 1 before it |
| `SlidingWindow.Expiry` | `services/telemetry-ingester/latency/sliding_window.go:32-37` | After k advances without records the window of n is what a window of n - k was, and empty once k reaches n |
| `WebSocketHub.StepKeeps` | `services/leaderboard-api/hub/websocket_hub.go:46-87` | The invariant over clients, channels and queues is kept by every event, in any order |
| `WebSocketHub.ChannelSafety` | `services/leaderboard-api/hub/websocket_hub.go:46-87` | In every run no channel is closed twice or sent to after its close, and clients stay within the limit |
| `WebSocketHub.GapFree` | `services/leaderboard-api/hub/websocket_hub.go:49-83` | From registration on, a live client has been sent the last broadcast then and every later one; a dropped one a prefix of that; a refused one nothing |
| `WebSocketHub.DropReasons` | `services/leaderboard-api/hub/websocket_hub.go:68-83` | A live client is dropped only by its own disconnection or by a broadcast that finds its buffer full, and has missed none before |
| `WebSocketHub.PostsInOrder` | `services/leaderboard-api/hub/websocket_hub.go:90-95` | Accepted posts are processed in order, none twice and none lost |
| `WebSocketHub.WrittenInOrder` | `services/leaderboard-api/hub/websocket_hub.go:124-135` | Over any run the write pump takes every message once and in order |
| `WebSocketHub.CatchesUp` | `services/leaderboard-api/hub/websocket_hub.go:124-135` | A pump that goes on taking comes to the end of what was enqueued |
| `Disconnection.SticksExactly` | `services/leaderboard-api/hub/websocket_hub.go:65-71` | A disconnection takes the client out for good, however the run goes on, if and only if the client is not still waiting in the register queue when it is processed (or the hub lets nobody in) |
| `Disconnection.LeaverLeaves` | `services/leaderboard-api/hub/websocket_hub.go:110-122` | The browser of a live client disconnects: in every run in which the hub then turns to the unregister queue once for everyone ahead and once more, the client is out with its channel closed |
| `Disconnection.NewcomerIsServed` | `services/leaderboard-api/hub/websocket_hub.go:147-153` | A new client stands behind everyone waiting to register, is next after as many turns, and after one more waits no longer |
| `Disconnection.DisconnectionSticks` | `services/leaderboard-api/hub/websocket_hub.go:65-71` | The same of every run from the start |
| `Disconnection.LateRegistration` | `services/leaderboard-api/hub/websocket_hub.go:49-83` | Otherwise, once let in, it is a client after any run exactly when no broadcast has found its buffer full |
| `Disconnection.LingersUntilOverrun` | `services/leaderboard-api/hub/websocket_hub.go:72-83` | A client whose one disconnection is past is dropped by such a broadcast and by nothing else, and then for good |
| `Disconnection.QueuedGetsIn` | `services/leaderboard-api/hub/websocket_hub.go:49-64` | A queued client can come to be let in, wherever it stands in the queue and however full the hub is, if the hub lets anybody in |
| `Disconnection.EarlyLeaveLingers` | `services/leaderboard-api/hub/websocket_hub.go:110-153` | It does happen: a connection that ends at once, the unregister queue being read first |
| `WebSocketHub.Hub.OnRegister` | `services/leaderboard-api/hub/websocket_hub.go:49-67` | The register case; its closes and sends meet an open channel |
| `WebSocketHub.Hub.OnUnregister` | `services/leaderboard-api/hub/websocket_hub.go:68-74` | The unregister case; it closes only an open channel |
| `WebSocketHub.Hub.OnBroadcast` | `services/leaderboard-api/hub/websocket_hub.go:75-83` | The broadcast case gives the same result in whatever order the clients are visited, and sends to and closes only open channels |
| `WebSocketHub.Hub.Serve` | `services/leaderboard-api/hub/websocket_hub.go:46-87` | The event loop under any schedule is the run of the state machine |
| `Anomaly.WelfordIsBatch` | `services/telemetry-ingester/anomaly/ml_detector.go:37-40` | After any observations the mean is the arithmetic mean and m2 the sum of squared deviations from it |
| `Anomaly.AbsorbIsBatch` | `services/telemetry-ingester/anomaly/ml_detector.go:37-40` | One update is one more sample of the batch |
| `Anomaly.ZScoreDetector.Observe` | `services/telemetry-ingester/anomaly/ml_detector.go:29-49` | Absorbs the value for its own contestant and no other, and scores it by the batch statistics |
| `Anomaly.ZScoreDetector.IsWarm` | `services/telemetry-ingester/anomaly/ml_detector.go:54-57` | The first locked section: whether more than 100 values came before |
| `Anomaly.ZScoreDetector.Judge` | `services/telemetry-ingester/anomaly/ml_detector.go:58-63` | The rest, on either path and whatever other calls did in between: absorbs the value exactly once, and flags it exactly when the call found a warm baseline and the score, by the statistics it now finds, exceeds the threshold |
| `Anomaly.ZScoreDetector.IsAnomaly` | `services/telemetry-ingester/anomaly/ml_detector.go:53-64` | The two sections with nothing in between: flags exactly when more than 100 came before and the score exceeds the threshold |
| `Anomaly.SquaredTest` | `services/telemetry-ingester/anomaly/ml_detector.go:44-63` | Comparing squares decides as dividing by the square root does |
| `Anomaly.DecisionIs` | `services/telemetry-ingester/anomaly/ml_detector.go:41-63` | A value is flagged exactly when its deviation from the mean of all values, over the root of their variance with n - 1, exceeds the threshold; one sample or no variance scores zero |
| `Anomaly.ScoreBounded` | `services/telemetry-ingester/anomaly/ml_detector.go:44-48` | Since a value is absorbed before it is scored, z squared is at most (n - 1) squared over n |
| `Prediction.Predictor.Record` | `services/leaderboard-api/scorer/prediction.go:19-29` | Every entry appends to its contestant, and the history is always the last 60 recorded |
| `Prediction.RecordAllGets` | `services/leaderboard-api/scorer/prediction.go:19-29` | A contestant's scores grow by its own entries in order and by no others |
| `Prediction.Predictor.Predict` | `services/leaderboard-api/scorer/prediction.go:42-88` | The loop and the closing arithmetic give the forecast of the last 60 scores |
| `Prediction.DenominatorIs` | `services/leaderboard-api/scorer/prediction.go:69-71` | The denominator is n squared times (n squared - 1) over 12, positive, so its guard never decides |
| `Prediction.LeastSquares` | `services/leaderboard-api/scorer/prediction.go:59-74` | No line has a smaller sum of squared residuals than the computed one, and no other line the same |
| `Prediction.AffineExact` | `services/leaderboard-api/scorer/prediction.go:59-74` | Scores on a line are fitted by that line |
| `Prediction.ForecastIs` | `services/leaderboard-api/scorer/prediction.go:75-86` | Whatever line has the least squares, the forecast is its value at ten past the number of samples, cut to 0 to 100 and rounded to hundredths, with the trend of its slope against 0.05 and confidence n over 60 |
| `Prediction.ShortForecast` | `services/leaderboard-api/scorer/prediction.go:49-57` | Until there are three scores the last one is projected unchanged |
| `Prediction.AffineForecast` | `services/leaderboard-api/scorer/prediction.go:75-77` | Scores on a line are projected along it |
| `Prediction.SteadyForecast` | `services/leaderboard-api/scorer/prediction.go:75-87` | A constant score of whole hundredths is projected unchanged |
| `Scoring.ComputeScores` | `services/leaderboard-api/scorer/scorer.go:169-186` | The loops score every entry in place under the common span |
| `Scoring.Rank` | `services/leaderboard-api/scorer/scorer.go:147-164` | Scoring, stable sort and rank loop in place give the leaderboard |
| `Scoring.RanksCount` | `services/leaderboard-api/scorer/scorer.go:158-164` | Every rank is one more than the number of entries with a strictly higher score |
| `Scoring.ScoreIs` | `services/leaderboard-api/scorer/scorer.go:169-215` | Forty points for throughput, forty for tail latency and twenty for correctness, in proportion to where the row lies between the extremes of the board; with equal extremes full marks for throughput and none for latency; cut to 0 to 100 and rounded to hundredths |
| `Scoring.RowsInOrder` | `services/leaderboard-api/scorer/scorer.go:149-157` | Rows come by score, then by correctness, then by tail latency |
| `Scoring.RanksFollowScores` | `services/leaderboard-api/scorer/scorer.go:158-164` | Ranks order the entries exactly as scores do, ties included |
| `Scoring.LeaderboardOrderFree` | `services/leaderboard-api/scorer/scorer.go:130-164` | Entries in any other order give the same rows, scores and ranks included |
| `Scoring.NoWorseRanksNoWorse` | `services/leaderboard-api/scorer/scorer.go:169-215` | A row no worse in throughput, tail latency and correctness scores no lower and ranks no worse, through normalising, clamping and rounding; scores lie between 0 and 100 |
| `Fix.FIXBot.BuildFIXMessage` | `services/bot-fleet/bots/fix_bot.go:83-94` | Takes the next sequence number and builds the message |
| `Fix.ParseFIXMessage` | `services/bot-fleet/bots/fix_bot.go:106-114` | The loop computes the reading of all pieces in order |
| `Fix.ComputeChecksum` | `services/bot-fleet/bots/fix_bot.go:97-103` | The loop computes the three-digit sum of bytes modulo 256 |
| `Fix.SumBytesAdds` | `services/bot-fleet/bots/fix_bot.go:97-103` | In that sum every byte counts once with its own value |
| `Fix.BuiltRoundTrip` | `services/bot-fleet/bots/fix_bot.go:83-114` | For separator-free values and distinct tags, parsing a built message gives back every header, body and trailer field |
| `Fix.HeaderComesBack` | `services/bot-fleet/bots/fix_bot.go:83-114` | A receiver reads message type, sender, target, sequence number and time as they were given |
| `Fix.MessageParses` | `services/bot-fleet/bots/fix_bot.go:83-114` | Without distinct tags, the last value of each tag |
| `Fix.SurvivesIffClean` | `services/bot-fleet/bots/fix_bot.go:106-114` | Exactly when: with well-formed distinct tags, everything comes back if and only if no value contains the separator |
| `Fix.MessageChecksumOk` | `services/bot-fleet/bots/fix_bot.go:93-103` | Every built message passes the checksum test of FIX 4.2, Appendix B (CheckSum Calculation), whatever its fields |
| `Fix.MessageBodyLengthOk` | `services/bot-fleet/bots/fix_bot.go:91-93` | Its tag 9 is the number of bytes from behind its own separator to tag 10, whatever its fields |

## Left out

- `services/shadow-orderbook/orderbook.go`: the library has the loops and branches of the telemetry ingester's book,
  with the crossing test written negated and cancel as its own entry point, so it would repeat `OrderBook`.
- Pointers to resting orders: the queues hold values, and the id index is a set of ids, since its values are never
  read. That the map and a queue share one order object is not captured.
- Floating-point rounding and the C++ server's JSON text, which prints six digits; lockstep is about the fields in
  memory.
- Locking inside one process (mutexes): a method under one lock is one step. `IsAnomaly` takes its lock twice, so its
  two sections are methods of their own, and the contract of the second holds whatever happens in between.
- Orchestrator calls are steps on values, not a class: what matters is their interleaving. Liveness is left out: an
  orphan in `stopping` that `StopTest` cannot finish, and the lock of a test whose contestant is unknown when it
  fails, which is left to its TTL. So are timers (a call may begin at any time), heartbeats, scores, failure reasons,
  and the recovery lock, without which there are only more interleavings. Redis is taken to be configured.
- Exclusion.MutualExclusion: assumes that a lock's TTL does not run out while its test is live or a call has still to
  release it (`MayExpire`), that an operation that returns an error has had no effect, and that an event names the
  contestant in the test's row (the `owner` function). The first cannot be dropped (`Scenarios.ExpiryUnderDelete`).
- Echoes.EchoChangesNothing: holds where taking the lock returned no error; `EchoExactly` covers the other case for
  the call running alone.
- Lockstep.NoFalseAccusation: for runs in lockstep (`Proper`). That is exact for books and replies together
  (`LockstepExactly`); for the verdicts it is enough but not needed, since books that have parted need not show in
  any later reply.
- LongRuns.NeverAccused: for telemetry whose flushed batches hold the contestant's events in processing order
  (`Delivers`). Sequence numbers restart with a test, so a batch that mixes two tests of one contestant can sort them
  into each other; nothing is claimed there.
- `minObserved` of the histogram, which merging does not merge, the mean, and the aggregator's other counters.
- SlidingWindow.SlidingWindowHistogram.constructor: the ring size is a parameter, at least one; the source's is 30.
- The hub's write errors, pings and deadlines; a client may stop draining at any time, which covers them.
- Anomaly.ZScoreDetector.Observe: returns the deviation and the variance instead of their quotient by a square root;
  `SquaredTest` ties the comparison to any exact root.
- `Classify` and the rule-based detectors, which are short case analyses.
- Reading metrics from Redis, the leaderboard's display fields, commentary and publishing.
- Fix: a character stands for one byte; the clock is a parameter; `SubmitOrder`'s socket and number formatting are
  left out.
- HTTP, Kafka, Docker, object storage and SQL text; the TPS counter, offset tracker, circuit breaker and bot
  personas; frontend and infrastructure files.
