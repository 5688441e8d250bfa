# A verified model of otel-logger's bookkeeping

otel-logger receives OTLP logs, metrics and traces, appends every batch to a JSONL file before it
acknowledges it, adds up what coding agents used, prints what it saw, and forwards batches to other
collectors. This project models the parts of it that keep books, and proves that the books balance:
over every order of events, every interleaving of tasks and every pattern of failures.

`dafny verify dfyconfig.toml` checks everything. Every lemma has automatic induction switched off: each
induction is written out in its body.

## How it is organised

**The usage aggregator** (`UsageStats`, `BucketKeys`, `UsageLedger`, `LedgerSums`, `LedgerInvariants`,
`CodexAttribution`, `CodexConfluence`, `CodexHistory`, `ClaudeAccounting`, `ClaudeTotals`,
`ClaudeHistory`, `AggregatorMaps`, `AggregatorSteps`, `UsageAggregator`, `AggregatorTotals`,
`UsageHistory`).
`UsageLedger` says what is meant to be counted: a ledger with one entry per contribution, each in the
bucket it currently belongs to, and one pure step per decoded event. Confluence, isolation, single
sources and independence of order are proved there, for all event sequences. `ClaudeHistory` and
`CodexHistory` tell the same ledger without its tables, from the events alone: entry by entry, what each
event is counted as, where it stood on arrival, and what moved it since. `UsageAggregator` is the
program: a class whose maps are updated in place with saturating arithmetic, method by method as in
the source. Its invariant `Valid` says that as long as everything ever offered fits 64 bits, every map
holds exactly the sums of its part of the ledger and no subtraction was cut off at zero; `Ingest` keeps
it and follows the pure step. `AggregatorTotals` and `UsageHistory` draw the conclusions a reader of
`/stats` relies on: every total and every bucket shown is the sum of what the history counts there.

**The JSONL store** (`JsonlStore`, `DailyFiles`). `TransactionalAppend` and `DailyWriter` are classes
over file contents. Each operation takes what the disk does to it as a parameter: how many bytes it
accepts, whether a flush, sync or open fails, how much of a batch a failed flush leaves, and whether a
failed truncation had cut the file already.
The theorems are about all runs, with crashes at any moment of an append and with days in any order.

**Protocols** (`ShutdownGate`, `PrettyQueue`, `ProxyWorker`, `ProxyRouter`, `Diagnostics`, `Admission`,
`WriteHealth`, `Tally`). Where tasks interleave, the program is a state machine whose steps are the
atomic operations between which another task can run; the theorems hold for every run of enabled steps.
Loops that one task runs on its own (retrying, draining, writing, notifying) are methods.

**Text** (`PrettyText`). Escaping for the terminal, its decoder, and the size of rendered attributes.

`Basics` holds the few types that several components use.

## Findings

- The order in which a conversation's reports arrive does not matter, with one exception. A completion
  that spells out the effort `unknown`, in a conversation of another effort, stays in the `unknown` bucket
  if and only if no start, and no span with an effort, of its conversation follows it at a point where
  the effort is known; otherwise it is moved to the conversation's effort, because
  src/aggregator.rs:1079-1083 cannot tell a spelled `unknown` from a missing effort. The exact condition,
  completion by completion, is part of `CodexConfluence.Confluence`; `OrderMattersIff` compares two
  orders of the same events, and `SpelledUnknownMoves` gives three short runs.
- A metric is reported as a change for its own value only. One that names a new variant of a model moves
  what was counted under the bare name, and that move goes unreported when the point itself is not
  counted (`UsageHistory.PointMovesIff` says exactly when something moves, `UnreportedMove` gives an
  input; src/aggregator.rs:784-791).
- A diagnostic line starts at the start of an output line exactly when the one before it broke off or
  ended in a newline (`Diagnostics.StartsLineIff`); the writer ends broken lines itself but relies on its
  callers to end whole ones.
- `retry_max` at the top of its 32-bit range gives `retry_max` attempts, not one more, because the
  addition saturates; the bound `retry_max + 1` holds throughout.

## Model

| member | source | states |
|---|---|---|
| UsageStats.Add | src/aggregator.rs:71-86 | Saturating addition is exact whenever the exact sum fits 64 bits. |
| UsageStats.Subtract | src/aggregator.rs:88-103 | Saturating subtraction can be undone by adding if and only if no field had to be cut off at zero. |
| UsageStats.CountersSaturate | src/aggregator.rs:71-103 | Each counter by itself becomes the sum or all that 64 bits hold, and the difference or zero. |
| UsageStats.ExactIffFits | src/aggregator.rs:71-86 | Saturating addition is exact if and only if the sum fits 64 bits. |
| BucketKeys.EscapeComponent | src/aggregator.rs:164-176 | The escaping loop computes `Escape`, whose result never contains the separator. |
| BucketKeys.EscapeDecoded | src/aggregator.rs:164-176 | Percent-decoding undoes the escaping, for every string. |
| BucketKeys.PlainUnescaped | src/aggregator.rs:164-176 | Only the separator and `%` are escaped. |
| BucketKeys.BareIsPrefix | src/aggregator.rs:972-978 | The bare name is what stands before the first `[`, or the whole name if there is none. |
| BucketKeys.KeyInjective | src/aggregator.rs:153-161 | Two buckets with the same key are the same bucket, for all provider, model and effort strings. |
| BucketKeys.PrefixFindsModel | src/aggregator.rs:1316-1325 | Among Claude buckets a key starts with the bare name's prefix if and only if its model is that name. |
| BucketKeys.ScanPrefix | src/aggregator.rs:1326-1331 | The ordered range scan that stops at the first mismatch finds exactly the keys with the prefix, once each and in order: the fast merge visits what a full scan would. |
| BucketKeys.Sandwich | src/aggregator.rs:1326-1331 | In key order, whatever lies between a prefix and a key that starts with it starts with it too. |
| LedgerInvariants.PromoteKeepsKey | src/aggregator.rs:972-978 | Folding a bare name into a full one never moves usage to another source key. |
| LedgerInvariants.RunKeeps | src/aggregator.rs:245-251 | After every run: metric usage stands only under names metrics used, log and metric usage only under their key's current source, pending usage only under its conversation's current provider. |
| CodexAttribution.Isolation | src/aggregator.rs:1048-1111 | An event that does not concern a conversation leaves its session and every completion counted for it, its bucket and pending mark included, unchanged. |
| CodexAttribution.SessionsOnlyLearn | src/aggregator.rs:992-1038 | Once confirmed a provider stays confirmed and only another confirmed report changes it; a known model and effort never become empty. |
| CodexAttribution.PendingShape | src/aggregator.rs:741-751 | In every reachable state a completion with a conversation id is pending if and only if its provider is unconfirmed or its effort unknown, and then stands under the session's current provider or the default. |
| CodexAttribution.TokenSourceSticks | src/aggregator.rs:828-872 | A model's token source, once chosen, never changes. |
| CodexAttribution.SingleTokenSource | src/aggregator.rs:361-386 | In every reachable state all tokens counted for a model come from completion logs, or all come from turn metrics. |
| CodexAttribution.SourceMeansTokens | src/aggregator.rs:854-864 | A model has a token source if and only if some of its tokens are counted: points without a value never choose one. |
| CodexAttribution.CodexEntriesStay | src/aggregator.rs:1143-1168 | The counted Codex contributions with their models, amounts and origins are, in order and each as often as before, a beginning of those counted after the next event, which adds one at most. |
| CodexConfluence.Confluence | src/aggregator.rs:671-757 | For every interleaving in which a conversation's reports agree on a provider and an effort and give each at least once, each of its completions ends up counted once under that provider and its model; and under its own effort, or else the session's, if and only if it does not spell out `unknown`, or that is the session's effort, or no report follows it once the effort is known. Otherwise it is under the session's. |
| CodexConfluence.RunFollows | src/aggregator.rs:1089-1111 | At every point of such a run every completion stands where what is known so far, and whether the conversation was reported on after it, puts it. |
| CodexConfluence.OrderMattersIff | src/aggregator.rs:1079-1083 | Two orders of the same events place a completion alike if and only if it does not spell out `unknown` in a conversation of another effort, or both or neither report on the conversation after it once the effort is known. |
| CodexConfluence.SpelledUnknownMoves | src/aggregator.rs:741-751 | For every completion that spells out `unknown`: a start before it leaves it there, a start after it moves it, and so does a span after both. |
| CodexHistory.SessionsAreReports | src/aggregator.rs:992-1038 | After every run the tables hold, for each conversation, the provider, model and effort its reports named last, and for each service its last report: the conversation started last as known then, or what a report without conversation said. |
| CodexHistory.CodexLedgerIs | src/aggregator.rs:671-933 | After every run the Codex part of the ledger is, entry by entry and in order, what the events alone say: which completions and turn metrics are counted, with which amounts, where each stood on arrival, and where each report since has moved it. |
| CodexHistory.TurnMetricsFollowStart | src/aggregator.rs:935-944 | Whatever came before, after a start that names provider and effort the turn metrics of its service stand under them and their own model, until the next start or span of the service. |
| CodexHistory.SampleAdds | src/aggregator.rs:361-386 | A sample adds exactly its entry if it is counted, reports whether it was, and chooses the token source of its model if it is the first. |
| CodexHistory.CountableIs | src/aggregator.rs:690-711 | A completion is counted unless all it carries is input and that is none or only tool context. |
| ClaudeAccounting.CanonicalKeepsKey | src/aggregator.rs:1351-1361 | Reading a log's model under its canonical name never changes its source key. |
| ClaudeAccounting.Refinement | src/aggregator.rs:527-568 | After every run the Claude samples counted are those offered, in order, minus the metric samples of the keys for which some log reported usage. |
| ClaudeTotals.UsagePerKey | src/aggregator.rs:527-543 | The usage counted for a source key, over all its buckets, is the sum of its logs if any carried usage and else the sum of its metrics. |
| ClaudeTotals.StatsPerKey | src/aggregator.rs:527-568 | Everything counted for a source key is every request of the key and the usage of its logs if any carried usage, else of its metrics. |
| ClaudeTotals.UsageOfAgent | src/aggregator.rs:333-350 | The agent's counted total is the sum of all requests, all logged usage, and the metrics of the keys no log covers. |
| ClaudeTotals.OrderIndependence | src/aggregator.rs:527-568 | Neither the usage of any source key nor the agent's total depends on the order in which the events arrive. |
| ClaudeHistory.CanonicalIs | src/aggregator.rs:1351-1361 | A log is read under its own name if metrics have used that or no longer one, and else under the latest longer name metrics have used for it. |
| ClaudeHistory.ClaudeLedgerIs | src/aggregator.rs:527-609 | After every run the Claude part of the ledger is, entry by entry and in order, what the events alone say: each request, and its usage if it carries any, under the name metrics had given or have since given its model; and each metric point with a value under its own name, unless a log of its key carries usage. |
| ClaudeHistory.BareNameEmptied | src/aggregator.rs:1278-1349 | Once metrics have named a variant of a name they do not use themselves, nothing is counted under the bare name. |
| ClaudeHistory.CoveredIff | src/aggregator.rs:972-978 | A metric point is covered if and only if some log with usage has the same effort and the same name up to the first `[`. |
| AggregatorSteps.RetractOne | src/aggregator.rs:527-539 | Giving back one bucket's metric usage, where it was recorded, subtracts exactly and leaves the sums of the ledger without those samples. |
| AggregatorSteps.FoldAll | src/aggregator.rs:1332-1349 | When every bucket of the bare name has been poured, the maps are the sums of the promoted ledger. |
| AggregatorSteps.ResolveOne | src/aggregator.rs:1076-1105 | Moving one pending bucket keeps the maps equal to the sums of the ledger with exactly the buckets handled so far resolved, even when a target is itself still to be handled. |
| AggregatorSteps.MovesIffTarget | src/aggregator.rs:1101-1104 | Some bucket's resolved place differs from its own if and only if resolving the conversation moves some entry: the return value is right. |
| AggregatorSteps.PendingIsPart | src/aggregator.rs:371-382 | A bucket holds its settled usage plus the pending usage of all conversations. |
| AggregatorSteps.SettledMoveLeavesPending | src/aggregator.rs:1113-1140 | After the move for telemetry without conversation ids the source bucket holds exactly the pending sum, the target gains exactly the rest, and no other bucket changes. |
| UsageAggregator.Aggregator.constructor | src/aggregator.rs:312-328 | A new aggregator is valid and empty. |
| UsageAggregator.Aggregator.RecordInto | src/aggregator.rs:500-509 | Adds a sample to the agent's total and to one bucket, and to nothing else. |
| UsageAggregator.Aggregator.SubtractFrom | src/aggregator.rs:511-525 | Subtracts a sample from the total and one bucket, drops an empty bucket, and records whether anything was cut off at zero. |
| UsageAggregator.Aggregator.RetractMetricUsage | src/aggregator.rs:531-539 | Takes all metric usage of a key out of maps and ledger; exact if the maps were. |
| UsageAggregator.Aggregator.RecordClaudeLogUsage | src/aggregator.rs:527-543 | Usage of a log is counted after the metric usage of its key has been given back, and makes logs the source of the key; without usage nothing changes. |
| UsageAggregator.Aggregator.RecordClaudeMetricUsage | src/aggregator.rs:546-568 | Metric usage is counted if and only if it has a value and no log covers its key. |
| UsageAggregator.Aggregator.BucketsOfModel | src/aggregator.rs:1316-1331 | Finds every bucket of a model that holds something, once per effort. |
| UsageAggregator.Aggregator.MergeBareIntoFull | src/aggregator.rs:1332-1349 | Every bucket of the bare name is poured into the same effort of the full name; the agent's sums stay exact. |
| UsageAggregator.Aggregator.RegisterCanonicalModel | src/aggregator.rs:1278-1314 | Registers a metric's model name, and folds the bare name in unless metrics use it themselves or it is folded there already. |
| UsageAggregator.Aggregator.IngestClaudeLog | src/aggregator.rs:573-609 | An API request log is one step of the ledger, exact while it fits. |
| UsageAggregator.Aggregator.IngestClaudeMetric | src/aggregator.rs:766-826 | A token or cost point is one step of the ledger, exact while it fits, with the right return value. |
| UsageAggregator.Aggregator.MoveBucketStats | src/aggregator.rs:1143-1168 | Moves a sample from one Codex bucket to another and leaves the total and all other buckets alone. |
| UsageAggregator.Aggregator.MovePending | src/aggregator.rs:1073-1106 | Moves what waits for a conversation to where its session says and returns what must go on waiting, for any order of the buckets. |
| UsageAggregator.Aggregator.SumPendingForBucket | src/aggregator.rs:1170-1180 | Sums the usage pending in a bucket over all conversations. |
| UsageAggregator.Aggregator.MoveLegacy | src/aggregator.rs:1119-1140 | Moves everything in the source bucket that waits for no conversation, and says whether that was anything. |
| UsageAggregator.Aggregator.MergePendingSse | src/aggregator.rs:1048-1141 | A session's report resolves its conversation's pending usage, or the unknown-effort bucket when it names none. |
| UsageAggregator.Aggregator.UpdateSession | src/aggregator.rs:992-1038 | A report is completed from what is known, remembered, and used to resolve. |
| UsageAggregator.Aggregator.IngestStart | src/aggregator.rs:638-660 | A conversation start is one step of the ledger; one that says nothing is ignored. |
| UsageAggregator.Aggregator.UpdateLastEffort | src/aggregator.rs:1245-1273 | A span without conversation id only changes the last session's effort, and moves usage only if that session has no id either. |
| UsageAggregator.Aggregator.IngestSpan | src/aggregator.rs:1194-1233 | A span's effort updates its conversation, and the last session only if that is the same conversation or there is none. |
| UsageAggregator.Aggregator.IngestSse | src/aggregator.rs:671-757 | A completion is one step of the ledger: ignored without usage, with only tool context, or when metrics are the model's source. |
| UsageAggregator.Aggregator.IngestTokens | src/aggregator.rs:828-872 | A token point is one step of the ledger: ignored when logs are the model's source, for other types, and without value. |
| UsageAggregator.Aggregator.IngestTurnSample | src/aggregator.rs:874-933 | Turn counts and durations are one step of the ledger; zero is ignored. |
| UsageAggregator.Aggregator.Ingest | src/aggregator.rs:333-390 | Every event keeps the invariant and follows the ledger; the return value is right while everything offered fits 64 bits. |
| UsageAggregator.Aggregator.IngestAll | src/aggregator.rs:333-390 | A batch follows the ledger event by event and returns how many events changed the breakdown. |
| AggregatorTotals.TotalsAreSums | src/aggregator.rs:500-525 | Below saturation each agent's total is the field-wise sum of its buckets, no bucket is empty, and no subtraction was ever cut off. |
| AggregatorTotals.PendingWithinBucket | src/aggregator.rs:1170-1180 | The pending usage of a bucket, summed over all conversations, is at most what the bucket shows. |
| AggregatorTotals.ClaudeTotalShown | src/aggregator.rs:484-491 | The Claude total shown after any run is the order-independent sum over its events. |
| AggregatorTotals.ClaudeKeyShown | src/aggregator.rs:484-491 | All fields of the shown buckets of a source key, added up, are that order-independent sum over the events of the run. |
| AggregatorTotals.BucketShowsView | src/aggregator.rs:484-491 | What a conversation's completions hold in a bucket is part of what the bucket shows. |
| UsageHistory.HitsAreChanges | src/aggregator.rs:333-390 | An event is reported as a change if and only if it is a request log, a metric point with a value whose key no log has covered, a counted sample, or a report that moves something counted to another bucket. |
| UsageHistory.CountsAreChanges | src/aggregator.rs:333-390 | What a batch returns is the number of those changes. |
| UsageHistory.OfferIs | src/aggregator.rs:593-607 | What an event is taken to offer, field by field, for the bound below which everything is exact. |
| UsageHistory.PointMovesIff | src/aggregator.rs:1278-1314 | A metric point moves something counted if and only if it renames its model. |
| UsageHistory.UnreportedMove | src/aggregator.rs:784-791 | A request for a bare name and then an uncounted point for its variant: the request moves and no change is reported. |
| UsageHistory.ShownIsHistory | src/aggregator.rs:484-491 | Below saturation every total and every bucket shown is the sum of what the history counts there. |
| UsageHistory.BareNameNotShown | src/aggregator.rs:1332-1349 | No bucket of a bare name is shown once metrics have named a variant of it and not the name itself. |
| JsonlStore.CompleteLenUnique | src/storage.rs:111-136 | One past the last newline is the only place with a newline before it and none behind it. |
| JsonlStore.TransactionalAppend.Repair | src/storage.rs:42-50 | An outstanding rollback is repeated first and forgotten only when it succeeds. |
| JsonlStore.TransactionalAppend.Append | src/storage.rs:52-63 | Answers Ok if and only if the outstanding rollback was made good, the end was found, every byte was taken and the flush succeeded; then the file has gained exactly the batch, and otherwise nothing or a remembered rollback; names every content the file had on the way. |
| JsonlStore.TransactionalAppend.LastNewline | src/storage.rs:125-127 | Finds the last newline of a chunk. |
| JsonlStore.TransactionalAppend.FindCompleteLen | src/storage.rs:111-129 | The backward scan in chunks of 8192 bytes ends, at one past the last newline for every content and length. |
| JsonlStore.TransactionalAppend.RecoverTail | src/storage.rs:111-136 | Cuts off exactly what follows the last newline and does not touch a file that ends in one. |
| JsonlStore.RecoveredTail | src/storage.rs:109-136 | Recovery drops a torn line behind complete ones and keeps a complete one. |
| JsonlStore.NoAppendWhileRollingBack | src/storage.rs:52-54 | No append succeeds while a rollback is outstanding; the next that does starts where the failed one began. |
| JsonlStore.StepSafe | src/storage.rs:36-64 | Every append, crash and restart keeps the file made of submitted lines, in order, and each accounted for. |
| JsonlStore.CrashSafety | src/storage.rs:36-80 | Over every run with failures and crashes at any point, the file holds submitted lines in the order of submission, the acknowledged ones all among them; any other was the last line when the file was reopened, at most one per restart; and behind them stands at most a beginning of one line submitted later. |
| DailyFiles.DailyWriter.OpenFile | src/storage.rs:71-80 | Opening creates the file and recovers its tail; what it leaves when it fails. |
| DailyFiles.DailyWriter.Settle | src/storage.rs:181-187 | Before a day is left its rollback is made good and, for JSONL, its file synced. |
| DailyFiles.DailyWriter.Rotate | src/storage.rs:180-197 | The writer moves on only when the old file is settled and the new one open. |
| DailyFiles.DailyWriter.AppendAt | src/storage.rs:180-199 | A batch goes to the file of its own day, or nowhere; and it is stored if and only if, on another day, the old file was repaired and (if asked) synced and the new one opened and recovered, and the append succeeded. |
| DailyFiles.SettledSound | src/storage.rs:181-187 | The file that is left holds exactly its day's acknowledged bytes and, with sync, is on disk as it is. |
| DailyFiles.FoundSound | src/storage.rs:188-195 | The file of the day that is entered, even one left before, loses no complete line. |
| DailyFiles.StoredSound | src/storage.rs:198-198 | A batch is added to the current file if and only if its write succeeds; otherwise at most a torn tail with an outstanding rollback remains. |
| DailyFiles.RotationSafe | src/storage.rs:148-199 | Over every run, clock going back included, each day's file holds its initial complete lines and then its acknowledged batches; only the current file may carry a torn tail; with sync on rotation every file left is synced as it is. |
| ShutdownGate.AnswersMean | src/sink.rs:835-890 | In every interleaving a batch answered Ok is appended, ingested and forwarded exactly once, and a batch whose append failed or that was answered with an error is in none of them. |
| ShutdownGate.AnswerIff | src/sink.rs:835-890 | A call is answered Ok if and only if its append succeeded and it was carried to its end; with an error only when its append failed, the gate was closed or its handler went away; and the handler hears the answer unless it went away. |
| ShutdownGate.OpenGateServes | src/sink.rs:835-890 | While the gate is open a call can always go through, and is answered as its append went. |
| ShutdownGate.ClosedGateRefuses | src/sink.rs:840-841 | A call that arrives after the gate has closed is answered with an error and leaves no trace. |
| ShutdownGate.CloseWaits | src/sink.rs:921-925 | While an admitted record is under way the gate is open and cannot be closed, its handler cancelled or not. |
| ShutdownGate.ClosedMeansSettled | src/sink.rs:921-925 | Once the gate is closed, file, aggregate and proxy queues hold the same batches and a final sync covers them all. |
| ShutdownGate.NothingAfterClose | src/sink.rs:840-841 | However a run goes on after the gate has closed, nothing is appended, ingested or forwarded. |
| WriteHealth.Health.OnFailure | src/sink.rs:225-245 | The notice and the new state after a failure. |
| WriteHealth.Health.OnSuccess | src/sink.rs:247-263 | The notice and the new state after a success. |
| WriteHealth.Health.Watch | src/sink.rs:224-264 | A run of writes gives the notices the theorems speak of. |
| WriteHealth.EveryReportDeserved | src/sink.rs:173-263 | Told from the history alone, every write gets exactly the notice it deserves: a start, a reminder when the last notice is ten minutes old, a recovery when the last failure is a minute old, each with the failures and time since the start. |
| WriteHealth.NoticesFormGroups | src/sink.rs:183-192 | The notices are complete outages (started, reminders, recovered) one after the other, the last perhaps unfinished. |
| PrettyQueue.Accounting | src/sink.rs:545-573 | In every interleaving the queue keeps within its byte budget and depth, the byte counter equals what is queued, in hand, lost or being decided, batches are written in order of acceptance, and every finished call was accepted once or counted as dropped once. |
| PrettyQueue.NothingLeaks | src/sink.rs:569-572 | When all callers have returned and the writer has caught up the byte counter is zero. |
| PrettyQueue.MarkerMeansWritten | src/sink.rs:620-650 | When shutdown's marker has been handled, everything accepted before it has been. |
| PrettyQueue.WriterCatchesUp | src/sink.rs:659-689 | A writer that has not stopped can always write everything that was accepted, in that order. |
| PrettyQueue.PrettyOutput.Enqueue | src/sink.rs:545-575 | One uninterrupted call is those steps of the machine: exactly when it reports a stopped writer, the byte budget of 64 MiB or the depth of 256; an accepted batch is queued with its bytes, a rejected one leaves queue and counter as they were and is counted. |
| ProxyWorker.SendWithRetry | src/forward/worker.rs:170-220 | Which try is the last and what it met decide how sending ends, if and only if: sent when accepted within `retry_max + 1` attempts, failed when rejected or when no attempt is left, cancelled when the token interrupts; each pause is the doubled delay or what the upstream asks if longer. |
| ProxyWorker.EndsAt | src/forward/worker.rs:179-215 | How sending ends is told by the first try that does not lead to another, whichever of the `retry_max + 1` it is. |
| ProxyWorker.SendingIsRun | src/forward/worker.rs:170-220 | That retry loop is a run of the worker's machine: its steps are enabled and leave the batch sent, failed or interrupted exactly as the loop ends. |
| ProxyWorker.BackoffGrows | src/forward/worker.rs:177-215 | The delay starts at 200 ms, never shrinks and stops at 30 s. |
| ProxyWorker.BooksBalance | src/forward/worker.rs:37-164 | At every step the batches notified are those sent, failed, dropped, skipped, abandoned, queued and in hand. |
| ProxyWorker.EveryBatchCountedOnce | src/forward/worker.rs:92-164 | When the worker has stopped, sent + failed + dropped is the number of non-empty batches ever notified, an interrupted one counted once. |
| ProxyWorker.SentInOrder | src/forward/worker.rs:117-147 | What was sent is a subsequence of what was notified, and what was finished a beginning of what was accepted; no attempt beyond the limit begins. |
| ProxyWorker.QueuedIff | src/forward/worker.rs:89-93 | A notified batch is queued if and only if the channel is not closed and has room; otherwise it is counted as dropped. |
| ProxyWorker.CountersMean | src/forward/worker.rs:60-84 | A batch is counted as sent exactly when the upstream accepted it, and as failed exactly when it was rejected or given up. |
| ProxyWorker.CancelStops | src/forward/worker.rs:37-164 | Once cancelled the worker is never stuck: by its own steps alone, one attempt for each batch, it stops, whatever the upstream answers. |
| ProxyWorker.NothingSentLate | src/forward/worker.rs:182-192 | Once the worker is cancelled nothing is counted as sent or failed but while draining, and nothing at all once the grace period is over. |
| ProxyWorker.NothingBegunLate | src/forward/worker.rs:41-48 | Once the worker is cancelled it begins no batch but while draining. |
| ProxyWorker.DrainTriesOnce | src/forward/worker.rs:127-147 | What a batch meets in the drain is one attempt of the retry loop, without retry. |
| ProxyWorker.RouteWorker.DrainRemaining | src/forward/worker.rs:99-164 | The drain handles the interrupted batch first and then the whole queue, one attempt each, and counts every outcome once. |
| ProxyWorker.DrainIsRun | src/forward/worker.rs:92-164 | That drain is a run of the worker's machine: its steps are enabled and stop it with those batches, outcomes and counts. |
| ProxyRouter.CheckRoutes | src/cli.rs:640-661 | The configuration check succeeds if and only if all service names are non-empty and claimed once. |
| ProxyRouter.BuildMatcher | src/forward/router.rs:46-56 | The nested loops build the map from name to the last route that claims it. |
| ProxyRouter.MatcherNamesOwner | src/forward/router.rs:46-56 | With well-formed routes the map says exactly which route lists a name. |
| ProxyRouter.MatchesOwn | src/forward/router.rs:208-235 | Comparing lane indices is the same as asking whether the route lists the resource's name. |
| ProxyRouter.FirstNameDecides | src/forward/router.rs:237-250 | The first attribute called `service.name` decides, even one that is no text; without one a resource has no name. |
| ProxyRouter.OwnOfBoth | src/forward/router.rs:138-158 | A route's part of two batches of resources is its part of the first and then its part of the second. |
| ProxyRouter.OwnOfOne | src/forward/router.rs:208-224 | A single resource is a route's own if and only if the route lists its name. |
| ProxyRouter.RoutesDeliver | src/forward/router.rs:138-158 | Every route gets exactly the resources that name it, in order, and no request if there are none; a resource goes to one route at most, and to none without a name. |
| ProxyRouter.SharesAddUp | src/forward/router.rs:208-224 | Nothing is duplicated or lost: the routes' shares add up to the resources whose name some route lists. |
| ProxyRouter.Router.constructor | src/forward/router.rs:46-56 | A router starts with the routes' matcher and an empty, receiving queue for each. |
| ProxyRouter.Router.Notify | src/forward/router.rs:82-124 | A route's queue gains its own part of the request if and only if it takes the signal, the part is not empty, the worker receives and there is room; it counts one drop if and only if the first two hold and one of the others does not; otherwise it is unchanged. |
| Diagnostics.Stderr.WriteCounting | src/diagnostics.rs:166-177 | Writes all if and only if there is room for it before the first failure, and else reports just how many bytes reached the output; interruptions are retried. |
| Diagnostics.WritesMade | src/diagnostics.rs:166-177 | Just as many writes are made as it takes: up to the one that takes the last byte, or up to the first failure. |
| Diagnostics.Stderr.WriteLine | src/diagnostics.rs:149-163 | A line that broke off is ended before the next one; what the output then holds, and whether the line counts as broken off. |
| Diagnostics.Stderr.HandleLine | src/diagnostics.rs:119-137 | A line is written only after the note about the lines lost before it; what cannot be written is counted again, the note's count included. |
| Diagnostics.HandlingIsSteps | src/diagnostics.rs:119-137 | That code, run without interference, is the machine's steps. |
| Diagnostics.LinedKeepsLines | src/diagnostics.rs:149-163 | A whole line that is written stands at the start of an output line, whatever broke off before. |
| Diagnostics.StartsLineIff | src/diagnostics.rs:149-163 | A written line starts an output line if and only if the previous one broke off or ended in a newline. |
| Diagnostics.NoLineForgotten | src/diagnostics.rs:119-141 | At every step each submitted line is written, queued, in hand, or counted exactly once, reported counts included. |
| Diagnostics.WrittenLinesStart | src/diagnostics.rs:143-163 | While callers submit whole lines, every line counted as written stands in the output, complete, at the start of a line. |
| Diagnostics.FlushMeansHandled | src/diagnostics.rs:135-138 | When a flush is answered every line accepted before it has been written or counted. |
| Diagnostics.WrittenInOrder | src/diagnostics.rs:116-141 | Lines are written in the order in which they were accepted. |
| Diagnostics.RefusedWhenFull | src/diagnostics.rs:45-51 | Every submitted line is accepted, save those submitted to a queue of 1024. |
| Admission.SlotsConserved | src/admission.rs:101-117 | In every interleaving free slots and held slots add up to the limit, no one waits in line while one is free, and each slot given comes back exactly once, with the last clone or the cancelled waiter. |
| Admission.WaitersBounded | src/admission.rs:127-146 | Those let in to wait are at most eight times the limit, and the counter is their number plus the requests being turned away. |
| Admission.SlotsAtRest | src/admission.rs:51-58 | When no one waits every slot is free or behind a permit with a live clone. |
| Admission.AdmittedIff | src/admission.rs:101-117 | A request finds a slot at once if and only if fewer than the limit are held, and is let in to wait if and only if the counter is below eight times the limit. |
| Admission.FreedSlotGoesToFirst | src/admission.rs:51-58 | When the last clone of a permit is dropped the first in line has the slot in the same step; with no one in line it is free. |
| Admission.FirstComeFirstServed | src/admission.rs:107-116 | As long as a request stands in line, none that stood behind it has been given a slot. |
| Admission.RejectedIff | src/admission.rs:60-66 | A request is turned away as busy if and only if it was denied at the limit, and as timed out if and only if its time ran out in line. |
| PrettyText.QuoteForPretty | src/format.rs:464-489 | The loops compute `Quoted`. |
| PrettyText.QuotedBack | src/format.rs:464-489 | A decoder undoes quoting, for every string. |
| PrettyText.QuotedInjective | src/format.rs:464-489 | Different strings are printed differently. |
| PrettyText.QuotedSafe | src/format.rs:464-502 | Whatever is printed consists of characters that are no C0 control, DEL, C1 control or bidirectional control, by their codes; and a string grows eightfold at most, plus its quotes. |
| PrettyText.UnchangedIff | src/format.rs:464-468 | A text is printed as it is if and only if it is not empty and holds no such character, space, quote or equals sign. |
| PrettyText.Hex | src/format.rs:451-457 | Two digits for each byte. |
| PrettyText.HexOfRead | src/format.rs:451-457 | The digits can be read back, for all bytes. |
| PrettyText.LeafRead | src/format.rs:365-381 | Each kind of leaf can be read back from what is printed for it; a missing value is printed as an empty text. |
| PrettyText.ItemsJoined | src/format.rs:369-372 | An array is printed item by item, in order, with separators between them only. |
| PrettyText.PairsJoined | src/format.rs:383-396 | So is a list of pairs. |
| PrettyText.Punctuation | src/format.rs:365-396 | What encloses arrays and lists of pairs, and what stands between a key and its value. |
| PrettyText.PrettyFits | src/format.rs:365-396 | Any nested value is printed safely, with at most 8 bytes per byte of text and 22 per node, however deep it is nested. |

## Left out

- CodexConfluence.Confluence: takes completions that name their model and models whose tokens no turn metric has claimed; without a model a completion takes the one its session has when it arrives.
- JsonlStore.CrashSafety: a failed `read_exact` or `metadata` in recovery leaves the file as it is, like a failed truncation; the disk's own write-back is not modelled, so a crash is one of the process.
- DailyFiles.RotationSafe: takes batches that end in a newline, as src/sink.rs:895 makes them; removing files older than the retention period is not modelled.
- Diagnostics.WrittenLinesStart: takes whole lines from its callers; `StartsLineIff` says what happens otherwise.
- ProxyRouter.RoutesDeliver: takes the unique, non-empty service names that `CheckRoutes` enforces at start-up.
- PrettyText.PrettyFits: a double is given with its printed digits, which count as text.
- ShutdownGate.AnswersMean: tasks do not panic, and the fair order in which the lock serves its waiters is not modelled, so more interleavings are covered than can happen; rendering for people is in `PrettyQueue`.
- ProxyWorker.EveryBatchCountedOnce: `try_send` is one step, so a sender caught between reserving and filling its place while the receiver closes is not modelled; the upstream is an oracle that accepts, rejects or asks to be tried later.
- Diagnostics.Stderr.WriteCounting: the output's behaviour is a finite script, so endless interruptions are not modelled; after the script every write fails.
- UsageAggregator.Aggregator.RecordInto: a sample without any value would leave an empty bucket in the program; no caller passes one, and the model keeps none.
- UsageAggregator.Aggregator.IngestAll: a resource that carries both a conversation start and a completion in one record is two events in that order.
- Saturation: nothing is claimed about sums once 64 bits do not hold everything offered, except that tables and sources still follow the ledger.
- Cost: an exact natural number, without rounding.
- Decoding: attribute lookup, number parsing, event names, temporality and the encodings of OTLP; events arrive decoded, a missing attribute as the empty string.
- Order of iteration over a conversation's pending buckets and over a key's metric buckets: arbitrary in the model, sorted in the program.
- Concurrency of the aggregator: one event at a time, as its lock guarantees; lock poisoning and the time of the last update are not modelled.
- Update in place of the protocol state (`ShutdownGate`, `Admission`, and the shared counters of `PrettyQueue`, `ProxyWorker`, `Diagnostics`): the machines step from value to value, one atomic operation at a time.
- Fixed-width wrap-around of byte and drop counters: their sums stay below what is held in memory or was submitted.
- Timers and clocks: times are parameters, and deadlines are steps that may come at any moment.
- HTTP, gRPC, TLS, compression, configuration merging, header checks, file permissions, colours and the layout of whole rendered records.
