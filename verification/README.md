# Proofs about TraderOS

A Dafny model of the durable and fail-closed parts of TraderOS, with proofs of what they promise
over whole runs: crashes, restarts and interleavings included. `dafny verify dfyconfig.toml`
verifies it.

Code that overwrites state is a class here, with the same fields, branches and loops, and every
method is tied to a specification function; the theorems are about those functions and about runs of
atomic actions over them.

- `JournaledBroker`: write-ahead order submission. The class is one call from beginning to end;
  `World` is the same code cut into one action per SQL statement or broker call, run by any number of
  threads that may die, over a table that survives. `SubmissionIsARun` joins the two.
- `Journal`: the durable order-event table. Each operation is one committed statement.
- `TradeEntity`, `OrderEventEngine`, `Outbox`: the trade lifecycle, the engine that applies broker
  events idempotently, and its commit-publish-mark protocol under crashes.
- `Lease`: leadership over a shared append-only log, and takeover after a crash. Its three hypotheses
  (an acquire is atomic, clocks agree, a live leader's last record is never stale) are explicit, and
  for each there is a run that splits leadership while the other two hold.
- `CandleAggregator`, `CandleRuns`, `CandleBatch`, `CandleTicks`: tick-to-candle aggregation as a fold,
  its equality with a batch group-by, and what each candle says of its ticks.
- `StreamConsumer`: the reconnecting consumer, with or without a message limit.
- `RateLimiter`, `CircuitBreaker`, `CircuitHistory`, `Cache`: pruned and lazy forms against the full
  history.
- `CanonicalJson`, `JsonReader`, `AuditChain`: the hashed text and its reader, the hash chain, what its
  last hash fixes, and which purges keep it verified.
- `CycleExecutor`: the trading cycle and the retail order, with every service around them an oracle,
  and the automaton their audit records follow.
- `Money`, `Correlation`: scaled integers under a 28-digit decimal context; the return correlation.

`Wrappers`, `OrderedDict`, `Sequences` and `TimeOrder` are helpers. An `OrderedDict` is a dictionary
that keeps insertion order, which is what both a Python dictionary and a table read back by rowid are.

Prices and quantities are reals, money is integers, bucket times are integers of microseconds. Clocks
do not go back. Time, random ids, and the outcome of each foreign call (the broker, a callback, a
gate) are parameters, and the theorems hold for all of them.

## Where the code and its own words differ

The model follows the code.

- The engine notes an event as seen before its journal insert. If the insert raises, the event is
  acknowledged as a duplicate from then on and never published, until a restart forgets it; so a
  restart is visible exactly when such an event is delivered again
  (`OrderEventEngine.RestartsAreInvisible`, and `OrderEventEngine.LostInsertShows` for a run).
- The cycle counts a signal and a trade before it records them. If the record raises, the counters
  exceed the trail (`CycleExecutor.TrailAccountsForTheCycle`, `CycleExecutor.UnrecordedFillShows`).
- `exact=True` promises that an amount needing more precision is refused. `scaleb` rounds to the
  context's 28 digits before the comparison, so a longer amount can be accepted and changed
  (`Money.ExactRoundsSilently`, and `Money.ExactIsFaithfulIff` for exactly when).
- A partial fill without a quantity or price is validated as if it had the order's, and recorded as
  zero (`OrderEventEngine.PartialFillRecordsWhatItValidated`).
- A replayed event is the journaled one except for its uuid, which is drawn again
  (`OrderEventEngine.DecodeEncode`).
- A stored order id that was missing is replayed as the text "None" (`JournaledBroker.ReplayIsTextual`).
- Inexact conversion rounds twice for amounts beyond 28 digits, and can then miss the nearest unit
  (`Money.InexactIsNearest` for exactly when, `Money.DoubleRoundingMisses`).
- Load shedding must not open the breaker, and does not. But a call that will be shed still reads the
  state, and with other calls in flight that can show (`CircuitBreaker.SheddingShowsIff`).
- The outbox replays what is pending. Nothing keeps `replay` and `apply` apart, and a replay that runs
  between an event's insert and its publication publishes it a second time with no fault at all
  (`Outbox.OverlappingReplayRepeats`); the outbox theorems are about replays that do not overlap.
- "Exactly one process wins at a time" needs the three hypotheses of `Lease`; nothing in the file
  locks the log or reads it again once leading.
- The breaker's half-open state is described as a single trial call; the code admits any number, and
  two successes close it. Nothing here claims a single trial.
- That no protected function starts while the breaker is freshly open is true of admission only
  (`CircuitBreaker.BreakerIsSafe`); `CircuitBreaker.StartsTooEarlyIff` says exactly when a start
  is late enough to break it.
- The tick's bucket is computed by truncation, so before 1970 a bucket need not span its tick
  (`CandleAggregator.BucketSpansItsTick`).

## Model

| member | source | states |
|---|---|---|
| `JournaledBroker.AtMostOnce` | src/traderos/infrastructure/journaled_broker.py:95-131 | over every interleaving of submitters, deaths, broker exceptions and restarts, the broker is invoked at most once per key, and exactly once for a confirmed key |
| `JournaledBroker.OneCallPerOrderId` | src/traderos/infrastructure/journaled_broker.py:91-116 | over every interleaving, whatever nonces are drawn, the broker is asked at most once for the orders that carry one nonempty client order id; what is pending under that id describes the order it was asked for, and a call it raised on stays pending |
| `JournaledBroker.InvokedIsNeverLost` | src/traderos/infrastructure/journaled_broker.py:103-130 | an invoked key is either confirmed or listed as pending, never both and never neither |
| `JournaledBroker.PendingIsTheUnconfirmed` | src/traderos/infrastructure/journaled_broker.py:133-141 | in every reachable state the pending list is exactly the intent-only keys in insertion order, also between the confirmation and its published mark |
| `JournaledBroker.LaterCallsReplay` | src/traderos/infrastructure/journaled_broker.py:97-101 | after any further run, every later call with the client order id of a confirmed fill, whatever else it asks for and whatever nonce it draws, is answered with that fill, field by field, its order id as text, and changes nothing else |
| `JournaledBroker.ConfirmedStays` | src/traderos/infrastructure/journaled_broker.py:97-101 | a confirmed row keeps its status and its payload for the rest of any run |
| `JournaledBroker.AnswersAreTrue` | src/traderos/infrastructure/journaled_broker.py:97-131 | every answer ever given is the broker's fill for that key, its textual replay, or a demand to reconcile a key that has a row, which fills nothing |
| `JournaledBroker.ReplayIsTextual` | src/traderos/infrastructure/journaled_broker.py:55-63 | storing a fill and reading it back keeps every field and turns the order id into text; a missing one becomes "None" |
| `JournaledBroker.JournaledBroker.Submit` | src/traderos/infrastructure/journaled_broker.py:79-131 | the method changes table and broker history, and answers, as the sequential specification says, in every branch; without a journal it only forwards |
| `JournaledBroker.SubmissionIsARun` | src/traderos/infrastructure/journaled_broker.py:88-131 | the sequential specification is the five interleaving actions of one undisturbed thread, from any state |
| `JournaledBroker.ResubmissionReplays` | src/traderos/infrastructure/journaled_broker.py:97-116 | a second submission under the same client order id, with any two nonces, never reaches the broker: it replays the first fill or, if the broker raised, answers that nothing was filled and the whole quantity needs to be reconciled |
| `JournaledBroker.AnonymousSubmissionReaches` | src/traderos/infrastructure/journaled_broker.py:95-116 | a submission without an id, or with an empty one, reaches the broker whenever its nonce is new, and its answer is the caller's |
| `JournaledBroker.SubmissionReachesIff` | src/traderos/infrastructure/journaled_broker.py:95-131 | from any state, a whole submission reaches the broker if and only if no row has its id, or the nonce that stands in for one; its row is then confirmed and published if and only if the broker answered, no other row changes, and an unconfirmed row of the id is answered with an unfilled order to reconcile |
| `JournaledBroker.NameFindsMethod` | src/traderos/infrastructure/journaled_broker.py:86-112 | the method name an intent row keeps is that of the broker method that was called |
| `JournaledBroker.RunKeeps` | src/traderos/infrastructure/journaled_broker.py:95-131 | the invariant of the interleaved protocol: one owner per key, each row as its owner left it, each answer backed by a call |
| `JournaledBroker.OverwritingSubmitsTwice` | src/traderos/infrastructure/journal.py:40-49 | with an insert that overwrites instead of failing, two racing submitters of one key reach the broker twice: the primary key is needed |
| `Journal.OrderEventJournal.Record` | src/traderos/infrastructure/journal.py:83-95 | an insert under the primary key succeeds exactly when the id is new, and otherwise changes nothing |
| `Journal.OrderEventJournal.UpdateRow` | src/traderos/infrastructure/journal.py:75-81 | one row gets the new status and payload and keeps its trade, its place and whether it was published; every other row stays, and an absent id changes nothing |
| `Journal.OrderEventJournal.Mark` | src/traderos/infrastructure/journal.py:97-101 | one row is published afterwards and otherwise as it was, every other row stays; marking again, or an absent id, changes nothing |
| `Journal.PendingInOrder` | src/traderos/infrastructure/journal.py:103-107 | the pending ids are exactly those of the unpublished rows, each once, in insertion order |
| `TradeEntity.TransitionsLowerRank` | src/traderos/domain/entities/trade.py:29-57 | every transition of the table lowers a rank that starts at four, and each positive rank can be lowered by one |
| `TradeEntity.EdgesByTarget` | src/traderos/domain/entities/trade.py:29-57 | the table read backwards: for each status, which ones it may follow |
| `TradeEntity.OpenMeansUnfinished` | src/traderos/domain/entities/trade.py:59-66 | the open statuses are exactly those with a successor |
| `TradeEntity.GuardsTell` | src/traderos/domain/entities/trade.py:90-136 | each guarded method is refused exactly when its status may not follow, and otherwise sets that status, what it is given, and nothing else |
| `TradeEntity.TextTellsStatus` | src/traderos/domain/entities/trade.py:18-26 | the text stored for a status is that status's own |
| `TradeEntity.Trade.Submit` | src/traderos/domain/entities/trade.py:97-101 | submission succeeds exactly from a status that allows it and then records the external id; a refusal leaves the trade as it was |
| `TradeEntity.Trade.PartialFill` | src/traderos/domain/entities/trade.py:103-108 | the same for a partial fill, with its quantity and price |
| `TradeEntity.Trade.Fill` | src/traderos/domain/entities/trade.py:115-121 | the same for a complete fill |
| `TradeEntity.Trade.Acknowledge` | src/traderos/domain/entities/trade.py:110-113 | the same for an acknowledgement |
| `TradeEntity.Trade.Close` | src/traderos/domain/entities/trade.py:123-136 | the same for cancelling, rejecting and expiring |
| `OrderEventEngine.OrderEventEngine.Dispatch` | src/traderos/application/order_event_engine.py:99-116 | the validation and the lifecycle dispatch: a refused event leaves the trade alone, a followed one leaves it with the event's status |
| `OrderEventEngine.TransitionIff` | src/traderos/application/order_event_engine.py:56-116 | an event is followed if and only if its fill, if it is one, is positive and within the order and its status may follow the trade's, or is pending or submitted and the trade's already; the trade then has the event's status and, of a fill, what it carries, and nothing else changes; a bad fill is refused before the lifecycle is asked |
| `OrderEventEngine.OrderEventEngine.Apply` | src/traderos/application/order_event_engine.py:80-156 | seen set, table, published events, trade and result after one broker event, whichever step after the transition raises: the journal insert, the persist, the publication, the mark or what follows |
| `OrderEventEngine.ApplyTells` | src/traderos/application/order_event_engine.py:91-144 | what one call journals, publishes, notes and answers, field by field: from the old status to the event's, with the trade's own fill, under the event's id or the composed key, at whatever step it stops |
| `OrderEventEngine.JournalTells` | src/traderos/application/order_event_engine.py:117-138 | every row a run adds to the journal, with raises and rebuilds anywhere, is that of an event some call followed: the status and external id the trade had, the status asked for, the fill it then had |
| `OrderEventEngine.JournaledIdIsDuplicate` | src/traderos/application/order_event_engine.py:90-98 | once an event id is journaled, every later event with it, whatever else it says and on whichever trade, is a duplicate that changes nothing, after any further run and rebuilds |
| `OrderEventEngine.OrderEventEngine.Replay` | src/traderos/application/order_event_engine.py:158-171 | the loop republishes and marks the pending rows in insertion order, up to the row at which publishing raises, or marking after it |
| `OrderEventEngine.RestartsAreInvisible` | src/traderos/application/order_event_engine.py:44-49 | rebuilding the engine from its journal, at any call boundaries of any run, changes no result, trade, row or published event if and only if no event is delivered again whose journal insert had raised before a rebuild; otherwise a result changes, and otherwise the seen sets differ by the forgotten keys alone |
| `OrderEventEngine.RestartsForgetNothing` | src/traderos/application/order_event_engine.py:44-49 | the run with rebuilds ends in the same whole state, seen set included, if and only if no rebuild comes while an event is lost |
| `OrderEventEngine.SeenIsJournaledOrLost` | src/traderos/application/order_event_engine.py:91-138 | between calls the seen set is exactly the journaled ids and, apart from them, the lost ones |
| `OrderEventEngine.RedeliveryTells` | src/traderos/application/order_event_engine.py:95-98 | a restart changes the answer to a delivery if and only if its event is lost |
| `OrderEventEngine.LostInsertShows` | src/traderos/application/order_event_engine.py:117-138 | a run that shows it: the insert raises, and the redelivery is a duplicate without a restart and is dispatched again after one |
| `OrderEventEngine.PublishedIsJournaled` | src/traderos/application/order_event_engine.py:135-144 | only journaled events are ever published, each exactly as its row has it, so a lost one never is |
| `OrderEventEngine.AcceptedAtMostOnce` | src/traderos/application/order_event_engine.py:91-138 | over any deliveries and restarts an event key is accepted once for its journal row and once more for each time its insert raised, so at most once if none did |
| `OrderEventEngine.OnlyAcceptanceCommits` | src/traderos/application/order_event_engine.py:95-138 | a call changes the seen set exactly when it accepts its event, and the journal exactly when its insert goes through as well; a duplicate or refused event changes nothing at all |
| `OrderEventEngine.LifecycleIsRanked` | src/traderos/application/order_event_engine.py:99-117 | over every run of submissions and events: at most four status changes, the fill within the order, a filled trade with a positive quantity and price |
| `OrderEventEngine.LifecycleStepLegal` | src/traderos/application/order_event_engine.py:99-117 | each status change is one of the transition table |
| `OrderEventEngine.ClosedForGood` | src/traderos/domain/entities/trade.py:29-57 | no run changes a trade in a terminal status |
| `OrderEventEngine.PartialFillRecordsWhatItValidated` | src/traderos/application/order_event_engine.py:64-65 | an accepted partial fill records the quantity (the price) that was validated if and only if the event carries one; an omitted one is validated as the order's and recorded as zero (see also line 104) |
| `OrderEventEngine.OmittedFillIsRecordedAsZero` | src/traderos/application/order_event_engine.py:103-104 | an input where they differ: quantity and price omitted, the order validated, zero recorded |
| `OrderEventEngine.FullFillRecordsWhatItValidated` | src/traderos/application/order_event_engine.py:105-106 | a complete fill always records what was validated |
| `OrderEventEngine.DecodeEncode` | src/traderos/infrastructure/journal.py:119-146 | an event decoded from the journal differs from the original exactly in its own uuid |
| `Outbox.NothingLostNothingRepeated` | src/traderos/application/order_event_engine.py:91-144 | over every run with crashes and faults, and with calls on several trades presenting one id at once: a journaled event is either marked and published, or pending; it is published at most once more than faults fell between its publish and its mark |
| `Outbox.CrashForgetsTheUnjournaled` | src/traderos/application/order_event_engine.py:44-53 | after a crash at any point of any run the process knows exactly the journaled events, and looks again at every other |
| `Outbox.ReplayDrainsInOrder` | src/traderos/application/order_event_engine.py:158-171 | from any reachable state with no apply in flight, an uninterrupted replay publishes the pending events once each in insertion order and leaves none |
| `Outbox.OverlappingReplayRepeats` | src/traderos/application/order_event_engine.py:158-171 | when a replay may overlap an apply, there is a run without any fault that publishes one event twice: the replay starts between the insert and the publication |
| `Outbox.ApplyIsTheProtocol` | src/traderos/application/order_event_engine.py:91-144 | the engine's apply, refused, or stopped by any of its steps, has the seen set, the table and the published keys of the protocol's actions in a row |
| `Outbox.PendingAfterMark` | src/traderos/infrastructure/journal.py:97-107 | marking the first pending row removes exactly it from the pending rows |
| `Outbox.RunKeeps` | src/traderos/application/order_event_engine.py:117-144 | the conservation law behind it: publications of a key = faults in its gap + the one marked or about to be |
| `Lease.MutualExclusion` | src/traderos/infrastructure/ha_failover.py:154-190 | in every run with atomic acquire, one clock and prompt leaders, at most one live process leads, and it owns the last record, which is no release |
| `Lease.NoTakeoverWhileFresh` | src/traderos/infrastructure/ha_failover.py:148-161 | while the last record of a leaderless log is fresh, no run of others wins or writes anything |
| `Lease.TakeoverAfterCrash` | src/traderos/infrastructure/ha_failover.py:148-173 | from boot to takeover: after a leader crashes and any run whose attempts all come while its last record is fresh, nobody leads, and the next attempt wins if and only if that record is older than `stale_after` |
| `Lease.FirstPollDecides` | src/traderos/infrastructure/ha_failover.py:154-173 | the same from any leaderless world: after any run of attempts that come too early, the next one wins if and only if the log is empty or its last record released or stale |
| `Lease.AcquiredTells` | src/traderos/infrastructure/ha_failover.py:148-173 | a leader renews and stays; anybody else wins if and only if there is no record, the last is a release, or it is older than the bound; a winner appends its own record of the moment and a loser nothing |
| `Lease.CrashLeavesTheLease` | src/traderos/infrastructure/ha_failover.py:148-161 | a crashed leader leaves its own fresh record at the end of the log |
| `Lease.LateRenewalSplits` | src/traderos/infrastructure/ha_failover.py:154-158 | without prompt renewal two processes lead: a late leader only renews |
| `Lease.NonAtomicAcquireSplits` | src/traderos/infrastructure/ha_failover.py:159-165 | without an atomic acquire two processes lead, though clocks agree and leaders are always prompt |
| `Lease.SkewedClockSplits` | src/traderos/infrastructure/ha_failover.py:148-152 | without a common clock two processes lead, though acquire is atomic and leaders are always prompt |
| `Lease.FailoverManager.TryAcquireLeadership` | src/traderos/infrastructure/ha_failover.py:154-173 | renews when leading, refuses before a valid lease, otherwise appends and leads |
| `Lease.FailoverManager.Renew` | src/traderos/infrastructure/ha_failover.py:175-180 | appends a renewal exactly when leading |
| `Lease.FailoverManager.Release` | src/traderos/infrastructure/ha_failover.py:182-190 | appends a release exactly when leading, and never leads after |
| `Lease.FailoverManager.PollTakeover` | src/traderos/infrastructure/ha_failover.py:192-201 | a leader's poll changes nothing, unlike its acquire; a standby's is an acquire |
| `CandleBatch.IncrementalIsBatch` | src/traderos/infrastructure/market_stream.py:296-361 | for any interleaving of symbols' ticks flushed at the end, each symbol's candles are the batch grouping of its own in-time ticks, and its refused ticks are, in order, the others |
| `CandleTicks.CandlesTellTheirTicks` | src/traderos/infrastructure/market_stream.py:296-361 | under any adds and flushes, the ticks of a symbol that were not refused are, in order of arrival, those of its candles one after another and then those of the open bucket; each candle opens at the price of its first tick and closes at that of its last, its high and low are attained bounds, its end, count and volume are theirs, and all of them fall into its bucket |
| `CandleTicks.BatchCandlesTell` | src/traderos/infrastructure/market_stream.py:296-361 | without flushes before the end, the same of every candle and the in-time ticks of its bucket, by arrival |
| `CandleTicks.RefusedIff` | src/traderos/infrastructure/market_stream.py:296-316 | after any adds and flushes, a tick is refused if and only if its bucket is below the open one or was among the last `limit` candles of its symbol |
| `CandleTicks.StaleFlushesIff` | src/traderos/infrastructure/market_stream.py:338-346 | after any adds and flushes, a stale flush closes a symbol's bucket if and only if its last tick is more than the idle bound old, and does nothing else to it |
| `CandleTicks.VolumeAdds` | src/traderos/infrastructure/market_stream.py:348-361 | volume is additive, and of one tick its quantity |
| `CandleBatch.ClosedMemoryIsExact` | src/traderos/infrastructure/market_stream.py:318-328 | under any adds and flushes, the closed deque is exactly the last `limit` emitted starts of its symbol, and any `limit` + 1 consecutive candles have distinct starts |
| `CandleBatch.NothingIsLost` | src/traderos/infrastructure/market_stream.py:296-361 | under any adds and flushes, the ticks fed in for a symbol are those of its candles, its open bucket and its late ones, in number and in volume, and every candle has low <= open, close <= high |
| `CandleRuns.SymbolsAreIndependent` | src/traderos/infrastructure/market_stream.py:287-346 | every symbol's state and candles in an interleaved run are those of the run seen by that symbol alone |
| `CandleRuns.LateIsCounted` | src/traderos/infrastructure/market_stream.py:300-311 | the late counter counts exactly the refused ticks |
| `CandleAggregator.BucketSpansItsTick` | src/traderos/infrastructure/market_stream.py:291-294 | buckets start at multiples of the interval, and one contains its tick if and only if the tick is not before 1970 within the last fraction of a second before a boundary (`int` truncates toward zero) |
| `CandleAggregator.BucketMissesItsTick` | src/traderos/infrastructure/market_stream.py:291-294 | half a second before the epoch is such a tick; ticks that old do not pass the staleness bound of `validate_tick`, so not `ingest` |
| `CandleAggregator.ExtremePrices` | src/traderos/infrastructure/market_stream.py:348-361 | high and low bound every price of the bucket and occur in it |
| `CandleBatch.GroupsAreFull` | src/traderos/infrastructure/market_stream.py:296-316 | the batch form has one nonempty group per start |
| `CandleAggregator.CandleAggregator.Add` | src/traderos/infrastructure/market_stream.py:296-316 | the dictionaries change as the per-symbol specification says |
| `CandleAggregator.CandleAggregator.Flush` | src/traderos/infrastructure/market_stream.py:323-328 | the same for flushing one symbol |
| `CandleAggregator.CandleAggregator.FlushAll` | src/traderos/infrastructure/market_stream.py:330-336 | the loop flushes every open symbol in dictionary order |
| `CandleAggregator.CandleAggregator.FlushStale` | src/traderos/infrastructure/market_stream.py:338-346 | the loop flushes exactly the symbols whose last tick is older than the idle limit, judged before any of them is flushed |
| `StreamConsumer.RunEndsForAReason` | src/traderos/infrastructure/market_stream.py:494-543 | after any number of connections the loop is over if and only if all messages are received, it was stopped (by its handler or by another thread, at any point), or there were exactly `reconnect_limit` + 1 failures in a row; resyncs rise by the connections that delivered after a failed one; ticks are handled, queued or dropped |
| `StreamConsumer.LimitedRunEnds` | src/traderos/infrastructure/market_stream.py:499-543 | with a limit every run ends, whatever the connections do, within (max + 1) * (`reconnect_limit` + 1) of them |
| `StreamConsumer.UnlimitedRunsOnIff` | src/traderos/infrastructure/market_stream.py:494-543 | without a limit the loop is still running after n connections if and only if none of them stopped the service and at no point more than `reconnect_limit` of them failed in a row, each judged by itself; its history is then theirs |
| `StreamConsumer.StreamingMarketDataService.Run` | src/traderos/infrastructure/market_stream.py:494-543 | the reconnect loop, with or without a message limit, returns at the first point where it is over, in the state of its specification there; with a limit it always returns |
| `StreamConsumer.StreamingMarketDataService.Connect` | src/traderos/infrastructure/market_stream.py:500-536 | one connection: what is taken from it, whether it counts as an outage, attempts reset and resync counted |
| `StreamConsumer.StreamingMarketDataService.Ingest` | src/traderos/infrastructure/market_stream.py:445-476 | malformed frames are counted and refused; a full queue drops the tick and still counts it as ingested |
| `StreamConsumer.StreamingMarketDataService.Drain` | src/traderos/infrastructure/market_stream.py:478-485 | the loop hands over the oldest ticks in order, at most `limit` |
| `StreamConsumer.ScanTakesAPrefix` | src/traderos/infrastructure/market_stream.py:502-529 | a connection delivers a prefix of its valid frames, and all of them unless it is cut or stopped |
| `StreamConsumer.FailsIff` | src/traderos/infrastructure/market_stream.py:500-543 | a connection counts as an outage if and only if nothing was taken from it, or it raised and was read to that point, not cut by the limit or a stop before; how far it is read, and what is taken, is told by its frames |
| `StreamConsumer.ReachedAccounts` | src/traderos/infrastructure/market_stream.py:499-543 | the accounting kept over every connection of a run |
| `RateLimiter.NoWindowOverflows` | src/traderos/infrastructure/rate_limiter.py:13-28 | with a clock that does not go back, over every run of calls, every window of every key, at any time, holds at most `max_requests` admissions |
| `RateLimiter.PruningIsExact` | src/traderos/infrastructure/rate_limiter.py:13-28 | over every run of `check` and `remaining`, the limiter that keeps only pruned buckets answers each call exactly as counting over the full history does |
| `RateLimiter.PrunedCountIsExact` | src/traderos/infrastructure/rate_limiter.py:17-18 | the size of a pruned bucket is the number of admissions in (now - window, now] |
| `RateLimiter.WithinCounts` | src/traderos/infrastructure/rate_limiter.py:13-28 | what a window holds is the number of admissions after its start, up to and including its end |
| `RateLimiter.RemainingForecastsChecks` | src/traderos/infrastructure/rate_limiter.py:23-28 | of any number of further requests at one instant exactly the first `remaining` are admitted, if and only if the window is positive or nothing remains |
| `RateLimiter.RateLimiter.Check` | src/traderos/infrastructure/rate_limiter.py:13-21 | admits if and only if fewer than `max_requests` admissions of the key in its whole history lie in (now - window, now], and keeps every window of every key within the bound |
| `RateLimiter.RateLimiter.Remaining` | src/traderos/infrastructure/rate_limiter.py:23-28 | tells what the full history leaves, and consumes nothing |
| `RateLimiter.Pruned` | src/traderos/infrastructure/rate_limiter.py:17 | keeps exactly the timestamps after the window's start, in order |
| `RateLimiter.BudgetsAreSeparate` | src/traderos/infrastructure/broker_rate_limiter.py:45-83 | only a flatten is never throttled, and no two other methods share a budget |
| `RateLimiter.RateLimitedBroker.Call` | src/traderos/infrastructure/broker_rate_limiter.py:45-83 | flatten orders and a disabled limiter are never refused and consume nothing; every other method is decided by its own key |
| `CircuitBreaker.BreakerIsSafe` | src/traderos/infrastructure/resilience.py:80-143 | with any number of calls in flight: closed means failures below the threshold (or none counted, if the threshold is not positive), the success counter is 1 only half-open, and no call is admitted through an open breaker within the recovery time of the last counted failure |
| `CircuitHistory.MovesExactly` | src/traderos/infrastructure/resilience.py:80-151 | over every interleaving and for any threshold, told by the history of actions: a closed breaker opens exactly at a counted failure that is at least the threshold-th since the last success or reset; a half-open one opens at any counted failure and closes exactly at the second success in a row or a reset; an open one turns half-open exactly when read a full recovery time after the last counted failure |
| `CircuitHistory.OpensAtTheThreshold` | src/traderos/infrastructure/resilience.py:137-143 | from closed, actions without a success or reset leave it no longer closed if and only if a counted failure was among them and they are now at least the threshold in a row |
| `CircuitHistory.AdmittedIff` | src/traderos/infrastructure/resilience.py:103-115 | a call is admitted if and only if reading the state does not leave it open |
| `CircuitHistory.CallIsARun` | src/traderos/infrastructure/resilience.py:103-124 | one call alone is the run of its admission, start and end |
| `CircuitBreaker.StartsTooEarlyIff` | src/traderos/infrastructure/resilience.py:105-115 | an admitted call starts inside the recovery time of an open breaker if and only if another call's failure opened it between the admission and the start, less than the recovery time ago and not reset since |
| `CircuitBreaker.StartMayFollowOpening` | src/traderos/infrastructure/resilience.py:105-115 | two calls admitted while closed, one of which fails and opens the breaker before the other starts |
| `CircuitBreaker.SheddingIsInvisible` | src/traderos/infrastructure/resilience.py:118-121 | in sequential runs, erasing every load-shedding call changes neither any other call's admission nor the state observed later |
| `CircuitBreaker.SheddingShowsIff` | src/traderos/infrastructure/resilience.py:105-121 | with overlapping calls, a call that will be shed makes the breaker read differently at some point if and only if it was let through an open breaker and the first of the others' actions to touch the breaker after it is a success |
| `CircuitBreaker.SheddingShowsWithOverlap` | src/traderos/infrastructure/resilience.py:105-135 | two runs from a new breaker that differ only in the shed call's actions and end closed and half-open |
| `CircuitBreaker.CircuitBreaker.State` | src/traderos/infrastructure/resilience.py:80-88 | reading the state performs the lazy recovery |
| `CircuitBreaker.CircuitBreaker.Call` | src/traderos/infrastructure/resilience.py:103-124 | whether the call ran, and the breaker after each outcome |
| `CircuitBreaker.CircuitBreaker.RecordSuccess` | src/traderos/infrastructure/resilience.py:126-135 | the counters after a success |
| `CircuitBreaker.CircuitBreaker.RecordFailure` | src/traderos/infrastructure/resilience.py:137-143 | the counters after a counted failure |
| `CircuitBreaker.CircuitBreaker.Reset` | src/traderos/infrastructure/resilience.py:145-151 | a fresh breaker |
| `Cache.InMemoryCache.Fetch` | src/traderos/infrastructure/cache.py:41-50 | a value is the key's last write since any delete or clear, unexpired; before the first eviction every such write is found, and at any time what is held, up to and including the moment it expires; no other key moves |
| `Cache.InMemoryCache.Store` | src/traderos/infrastructure/cache.py:52-59 | after it the key holds the write; the size bound is kept by evicting one least-expiring entry exactly when a new key meets a full cache |
| `Cache.InMemoryCache.HasKey` | src/traderos/infrastructure/cache.py:69-77 | agrees with Fetch, and counts no hit |
| `Cache.InMemoryCache.Delete` | src/traderos/infrastructure/cache.py:61-63 | forgets exactly one key |
| `Cache.InMemoryCache.Clear` | src/traderos/infrastructure/cache.py:65-67 | forgets every key |
| `Cache.InMemoryCache.Evict` | src/traderos/infrastructure/cache.py:79-81 | removes exactly one entry, of least expiry |
| `Cache.Oldest` | src/traderos/infrastructure/cache.py:80 | an earliest-expiring key among the first n |
| `Cache.LiveEntriesOutlast` | src/traderos/infrastructure/cache.py:79-81 | an eviction takes an expired entry if and only if there is one |
| `AuditChain.LastHashDeterminesLog` | src/traderos/infrastructure/audit.py:40-49 | two verified logs ending in the same hash: the shorter is a suffix of the longer, for a collision-free digest |
| `AuditChain.ChainAlwaysVerifies` | src/traderos/infrastructure/audit.py:56-87 | every interleaving of records and purges from the oldest on keeps the chain verified |
| `AuditChain.PurgeLeavesASuffix` | src/traderos/infrastructure/archiver.py:9-45 | a purge by age leaves a suffix without an old entry |
| `AuditChain.PurgeVerifiesIff` | src/traderos/infrastructure/archiver.py:9-45 | with a collision-free digest, scalar texts and distinct ids, a purge of a verified log leaves it verified if and only if the entries it keeps are one piece of the log |
| `AuditChain.RunVerifiesIff` | src/traderos/infrastructure/audit.py:56-87 | for such a digest and new ids, every log of a run of records and purges verifies if and only if each purge keeps one piece of the log it meets |
| `AuditChain.HashDeterminesEntry` | src/traderos/infrastructure/audit.py:19-49 | one hash fixes all fields of its entry |
| `AuditChain.AuditService.Record` | src/traderos/infrastructure/audit.py:56-76 | appends one entry chained to the last, or to "genesis" |
| `AuditChain.AuditService.VerifyChain` | src/traderos/infrastructure/audit.py:81-87 | the loop is true if and only if every entry has its own hash and its predecessor's |
| `CanonicalJson.EncodeInjective` | src/traderos/infrastructure/audit.py:15-16 | the JSON array of strings of Unicode scalar values determines its fields |
| `JsonReader.EncodeReads` | src/traderos/infrastructure/audit.py:15-16 | read as JSON by section 7 of RFC 8259, the hashed text gives back every field, in UTF-16 units and in order, for any strings |
| `CanonicalJson.EscapeIsPrefixCode` | src/traderos/infrastructure/audit.py:15-16 | the escapes of section 7 of RFC 8259, as written with ASCII output, form a prefix code |
| `CanonicalJson.EncodesAlikeIff` | src/traderos/infrastructure/audit.py:15-16 | for any strings, lone surrogates included, two tuples encode alike if and only if they are equal after every adjacent surrogate pair is merged |
| `CanonicalJson.LoneSurrogatesCollide` | src/traderos/infrastructure/audit.py:15-16 | an adjacent high and low surrogate encode like the supplementary character they would make |
| `Money.ExactConversion` | src/traderos/domain/entities/money.py:68-91 | for amounts of at most 28 digits, exact conversion succeeds if and only if the amount is a whole number of units, and then converts back to it |
| `Money.ExactSucceedsIff` | src/traderos/domain/entities/money.py:84-91 | for any amount, exact conversion succeeds if and only if the scaled amount has no fraction or lies within half of its last kept digit (its own last, up to 28) of a whole number of units |
| `Money.ExactIsFaithfulIff` | src/traderos/domain/entities/money.py:84-91 | for any amount at all, a successful exact conversion is the amount if and only if its digits beyond the 28th are zeros |
| `Money.ExactRoundsSilently` | src/traderos/domain/entities/money.py:84-91 | an amount of 29 digits that exact conversion accepts and changes |
| `Money.IntegerRoundTrip` | src/traderos/domain/entities/money.py:94-105 | integer to amount to integer always succeeds, and is the identity if and only if the digits beyond the 28th are zeros |
| `Money.InexactIsNearest` | src/traderos/domain/entities/money.py:84-91 | inexact conversion is off by at most half a unit, ties going to even (roundTiesToEven, section 4.3.1 of IEEE 754-2008), if and only if the context's rounding to 28 digits does not add up with it, which it never does for amounts of at most 28 digits |
| `Money.DoubleRoundingMisses` | src/traderos/domain/entities/money.py:84-91 | an amount of 29 digits just below one and a half that is converted to two |
| `Money.InexactIsMonotone` | src/traderos/domain/entities/money.py:84-91 | inexact conversion preserves the order of all amounts, of any length |
| `Money.FixedMonotone` | src/traderos/domain/entities/money.py:84 | rounding to the 28-digit context preserves the order of all decimals |
| `Money.FixedKeepsValue` | src/traderos/domain/entities/money.py:84 | what shifting the scale keeps under a 28-digit context: the value, if and only if only zeros are dropped |
| `Correlation.CauchySchwarz` | src/traderos/domain/services/correlation_service.py:47-49 | cov^2 <= var_a * var_b |
| `Correlation.ComputesPearson` | src/traderos/domain/services/correlation_service.py:16-57 | the outcome is the correlation coefficient of the relative changes between common timestamps in ascending order, in the formula without means: undefined for fewer than two changes or no variation, else of the covariance's sign, its square times the variances being the covariance's |
| `Correlation.LastCandleCounts` | src/traderos/domain/services/correlation_service.py:23-24 | of candles with one timestamp the last counts |
| `Correlation.ClampIsIdle` | src/traderos/domain/services/correlation_service.py:51-55 | the clamp never changes a result: value times the root is the covariance, and the value is within [-1, 1] |
| `Correlation.Symmetric` | src/traderos/domain/services/correlation_service.py:16-57 | swapping the series changes nothing, failures included |
| `Correlation.ScaleInvariant` | src/traderos/domain/services/correlation_service.py:33-57 | scaling either series by a positive constant changes nothing, failures included |
| `Correlation.ProportionalIsOne` | src/traderos/domain/services/correlation_service.py:33-57 | proportional series correlate with 1 whenever they correlate at all |
| `Correlation.DivisionFailsIff` | src/traderos/domain/services/correlation_service.py:33-38 | division by zero happens if and only if a common timestamp before the last has a zero close in either series |
| `CycleExecutor.CycleTrailObeys` | src/traderos/application/cycle_executor.py:245-492 | for arbitrary gate verdicts and fills, and exceptions from any service or audit record, wherever the cycle stopped, the records about any signal id follow the causal automaton, with client order id, side and quantities carried through |
| `CycleExecutor.EverySignalTellsItsStory` | src/traderos/application/cycle_executor.py:245-492 | each signal's records in the interleaved trail are its own strategy's, undisturbed |
| `CycleExecutor.StrategyTrailObeys` | src/traderos/application/cycle_executor.py:279-456 | one strategy's records follow the automaton; they stop at an allowed order exactly when the broker or the record of its answer raised, and at a placed one exactly when no fill was booked and recorded |
| `CycleExecutor.TrailAccountsForTheCycle` | src/traderos/application/cycle_executor.py:279-456 | the broker calls are exactly the allowed decisions in order, whatever raises; the two counters are the numbers of generated signals and fills in the trail if and only if no record of a counted one raised |
| `CycleExecutor.UnrecordedFillShows` | src/traderos/application/cycle_executor.py:445-456 | a cycle that counts one trade and whose trail has no fill |
| `CycleExecutor.OrdersPassedEveryGate` | src/traderos/application/cycle_executor.py:302-406 | an order reaches the broker if and only if one of the strategies was known, evaluated and processed, its signal recorded and announced, the feed not stale, preflight, `can_trade` and the re-check answered yes, sizing and quantity came back positive, the order was authorized and its decision recorded; it is a buy if the signal is long and a sell otherwise, of that quantity and id |
| `CycleExecutor.RecordsTellWhatHappened` | src/traderos/application/cycle_executor.py:279-456 | the trail holds exactly the records that the services' answers call for, each with its strategy's side, quantity, price, id and fill |
| `CycleExecutor.CountersTell` | src/traderos/application/cycle_executor.py:266-445 | the cycle's counters are the numbers of strategies that gave a signal and of those whose fill was booked |
| `CycleExecutor.InterruptedIff` | src/traderos/application/cycle_executor.py:246-492 | a strategy ends in an exception if and only if a service it came as far as raised it |
| `CycleExecutor.BreaksTell` | src/traderos/application/cycle_executor.py:482-502 | only an unhandled exception, or one raised while another is reported, ends the cycle |
| `CycleExecutor.NoOrderInADataGap` | src/traderos/application/cycle_executor.py:159-186 | a live cycle whose data is missing or stale orders nothing (the skip is at lines 302-303) |
| `CycleExecutor.RetailTrailObeys` | src/traderos/application/cycle_executor.py:556-648 | a retail order's records follow the automaton from its retail start |
| `CycleExecutor.RetailRecordsTell` | src/traderos/application/cycle_executor.py:556-648 | the retail trail holds exactly the records its answers call for, and the broker is called exactly for an authorized and recorded order, under the caller's id unless that is absent or empty |
| `CycleExecutor.RetailIsAccountedFor` | src/traderos/application/cycle_executor.py:556-607 | a retail order reaches the broker exactly when it was authorized and its decision recorded, as its trail says |
| `CycleExecutor.CycleExecutor.RunStrategy` | src/traderos/application/cycle_executor.py:246-480 | the body of the loop, with every early exit, leaves the records, the calls and the counts of the table of outcomes, and ends in the exception that was raised |
| `CycleExecutor.CycleExecutor.Submit` | src/traderos/application/cycle_executor.py:367-480 | its tail from authorization on |
| `CycleExecutor.CycleExecutor.Run` | src/traderos/application/cycle_executor.py:126-518 | the loop over strategies: it comes to the first strategy that ends the cycle and no further, or to all, and says whether an exception left it |
| `CycleExecutor.CycleExecutor.SubmitRetailOrder` | src/traderos/application/cycle_executor.py:520-668 | trail, broker calls and answer of a retail order; an empty client order id counts as absent |

## Left out

- SQL, files, JSON text of lease lines, corrupt tails and partial writes: a table is an ordered map with atomic statements, a lease log a sequence of whole records.
- Retention purge of `order_events`: submission and outbox claims are for keys still retained.
- One table shared by `JournaledBroker` and `OrderEventEngine`: each has its own journal here.
- An engine without a journal or without an event bus.
- Metrics, notifications, health reports, bus events and evidence records beside the modelled effects, other than that they may raise where the cycle calls them.
- CycleExecutor.RunStrategy: the services are oracles with one verdict per strategy, so what they read (positions, equity, exposure) is not modelled, nor are orders the flatten service places itself.
- The backtest cycle, and the text of error messages.
- Binary floating point, NaN and infinities: prices and quantities are reals, and the square root is any function that is one on non-negative reals.
- Decimal infinities and exponent limits, `_as_decimal`'s parsing, and the shortest text of a float in `from_legacy_real`.
- The rounding of volume sums by the decimal context.
- StreamConsumer.StreamingMarketDataService.Run: each connection is a finite stream, and handlers do not raise.
- Clock drift, the replay recorder, latencies and backoff sleeps of the consumer; which frames are valid is a parameter.
- AuditChain.ChainAlwaysVerifies: a purge compares timestamps as text; here it is any predicate that is true of the oldest entries only, and in `AuditChain.RunVerifiesIff` any predicate.
- The digest itself: it is a parameter, assumed free of collisions only where a theorem says so.
- The breaker's decorators and their timeout threads, the Redis cache, and the other broker, vault and database wrappers.
- The correlation matrix, which calls `compute_correlation` for each pair.
- Exclusion of trading: the lease theorem is about the leading flag; a stopped daemon may still be finishing a cycle.
