# Telemetry batch accumulator

A model of the core of `mqtt.py`. This script subscribes to an MQTT topic and times every message
it receives. It derives the time elapsed since the previous message and the throughput of the
message. It collects these rows into batches of `DATA_BATCH_SIZE`. For each full batch it records the
average latency and the average bandwidth. After `MAX_TRIALS` batches the process exits. A
`reset` typed on the console clears both lists and restarts at trial 1.

The model has three modules:

- `Metrics` (`metrics.dfy`) holds the per-message metrics. `Elapsed` is the time since the previous
  arrival. `Bandwidth` is the throughput in kbps, and 0 when the elapsed time is not positive.
  `Sum` is the sum the averages are built from. It also holds bound lemmas for sums and means.
- `Batching` (`batching.dfy`) holds the state machine as values. `State` is the script's
  module-level variables `data_list`, `average_list`, `trial_counter` and `last_time`. It also has
  a `terminated` flag standing for `sys.exit`, and a log of `save_to_csv` calls. The functions are
  `Start`, `NextRow`, `CalculateAverage`, `OnMessage` and `Reset`. `Feed` gives the state after a
  sequence of messages. `Inv` is the invariant the handlers keep. The lemmas state what one message,
  one batch, `k` batches and a whole run do.
- `Subscriber` (`subscriber.dfy`) holds the class `Accumulator`. Its fields are the module-level
  variables, and its methods update them in place as the script's functions do. The constructor,
  `OnMessage` and `Reset` are proved to keep `Valid()` (the invariant `Inv`) and to produce exactly
  the state that `Batching.Start`, `Batching.OnMessage` and `Batching.Reset` describe. The two
  helpers are proved against their own contracts. `CalculateAverage` yields the result and state of
  `Batching.CalculateAverage`. `SaveToCsv` appends one flush to the log.

Behaviour of the code that the model keeps:

- `last_time` starts at the start-up time, not "unset". So the first message's latency is
  measured from start-up. Only a previous timestamp of exactly 0.0 counts as unset, because 0.0 is
  falsy in Python. Latency can be negative if the clock steps back. The bandwidth is then 0.
- When the last trial completes, `save_to_csv` runs twice: once for the batch and once before
  exiting. The flush log therefore records the final batch twice. The process then exits without
  clearing `data_list`.
- `sys.exit` ends the process. No message or reset is handled after it, so both are no-ops on a
  terminated state. A reset cannot reopen a finished run.
- The guard `trial_counter > MAX_TRIALS` at the top of `on_message` never fires. The invariant
  keeps `1 <= trial_counter <= MAX_TRIALS`, because the counter is only incremented below the limit.

## Model

| member | source | states |
|---|---|---|
| Metrics.Elapsed | mqtt.py:89 | a non-zero previous arrival time plus the elapsed time gives the current time; a zero (falsy) previous time gives 0 |
| Metrics.Bandwidth | mqtt.py:85-92 | bandwidth is never negative, is 0 when elapsed time is not positive, and otherwise bandwidth × elapsed × 1000 equals the message's bits |
| Metrics.Sum | mqtt.py:30-31 | Python's `sum` over the batch's latencies or bandwidths, a fold from 0; it has no contract of its own, and SumAtLeast, SumAtMost and MeanWithin state its bounds |
| Metrics.SumAtLeast | mqtt.py:30-31 | a sum of n values, each at least lo, is at least n·lo |
| Metrics.SumAtMost | mqtt.py:30-31 | a sum of n values, each at most hi, is at most n·hi |
| Metrics.MeanWithin | mqtt.py:30-31 | the mean of a non-empty sequence lies between any bounds of its values |
| Batching.Start | mqtt.py:19-24 | the start-up state has empty lists, trial 1, last arrival = start-up time, and satisfies the invariant |
| Batching.BatchAverage | mqtt.py:30-32 | the average row carries the trial, and batch size × each mean equals the batch's total latency and total bandwidth |
| Batching.NextRow | mqtt.py:84-94 | the appended row carries the given trial, position and payload; its latency is the time since the previous arrival, or 0 when that time is 0.0; its bandwidth is 0 when the latency is not positive, and otherwise bandwidth × latency × 1000 equals the message's bits |
| Batching.CalculateAverage | mqtt.py:26-42 | changes nothing and reports NotFull exactly when the batch is not full; a full batch appends exactly one average row (the two means over the batch) and leaves the batch in place; it ends the run exactly when trial ≥ MAX_TRIALS, appending two flushes of the batch and the new average list, counter unchanged; otherwise it appends one such flush and increments the counter by 1 |
| Batching.BlockAverages | mqtt.py:29-32 | the average rows for consecutive batches starting at trial t carry trial ids t, t+1, … |
| Batching.Reset | mqtt.py:44-50 | on a live run, empties both lists and sets the trial to 1; the last arrival time and the flush log are unchanged; on a terminated run, nothing changes |
| Batching.OnMessage | mqtt.py:76-97 | on a terminated run nothing changes; a counter past the limit only exits; otherwise last_time becomes the arrival; the flush log only grows at its end, and the average list is unchanged or grows by one row at its end. OnMessageInv carries the invariant it keeps and the batch it leaves behind |
| Batching.OnMessageInv | mqtt.py:76-97 | one message keeps the invariant (fewer than BATCH rows while running, row i has trial = counter and position i+1, average row j has trial j+1, averages = counter − 1, counter within 1..MAX_TRIALS, only full batches flushed); the exit guard never fires; last_time becomes the arrival; a batch that fills is averaged, saved once with the new average list and cleared in the same call, or, on the last trial, saved twice and left in place as the run ends |
| Batching.MeanWithinBandwidth | mqtt.py:31 | the average bandwidth of a batch is never negative |
| Batching.ResetInv | mqtt.py:44-50 | a reset keeps the invariant and writes nothing out (a partial batch is discarded unflushed) |
| Batching.FeedTerminated | mqtt.py:35-38 | once the process has exited, further messages change nothing |
| Batching.FeedInv | mqtt.py:76-97 | any sequence of messages keeps the invariant |
| Batching.FeedPartial | mqtt.py:84-97 | messages that do not fill the batch only append their rows, numbered on from the batch length, and move last_time to the last arrival |
| Batching.FeedBatch | mqtt.py:29-40 | a batch of messages from an empty batch appends exactly the average of the rows it produced; then either the batch is empty and the counter is one higher, or the run has ended at the limit |
| Batching.FeedTrials | mqtt.py:29-40 | k batches from an empty batch append, in order, the mean of each block of BATCH messages; the run continues with counter + k and an empty batch, or ends exactly when the k-th batch is the last trial |
| Batching.NextTrials | mqtt.py:29-40 | the inductive step of FeedTrials: once the first batch has closed a trial below the limit, the remaining batches from the state it leaves complete the averages, last arrival and counter that FeedTrials promises for the whole sequence |
| Batching.LastTrial | mqtt.py:35-38 | a batch at the last trial ends the run with that batch's average appended |
| Batching.CompleteRun | mqtt.py:35-38 | from start-up, MAX_TRIALS·BATCH messages end the run with exactly MAX_TRIALS averages, one per block; later messages change nothing |
| Batching.LatenciesTelescope | mqtt.py:88-90 | with non-zero timestamps, the latencies of consecutive rows add up to the time from the previous arrival to the last one |
| Batching.AverageLatencyWithin | mqtt.py:30 | a batch's average latency lies between any bounds of its rows' latencies |
| Batching.TwoTrialScenario | mqtt.py:76-97 | with batch 2 and 2 trials, messages one second apart, the first arriving at the start-up instant, whose sys.getsizeof sizes are 100, 200, 100 and 200 end the run with averages (0.5 s, 0.8 kbps) and (1.0 s, 1.2 kbps) |
| Subscriber.Accumulator.constructor | mqtt.py:19-24 | the fields start as the start-up state and satisfy the invariant |
| Subscriber.Accumulator.SaveToCsv | mqtt.py:52-61 | appends one flush of the current batch and the whole average list; nothing else changes |
| Subscriber.Accumulator.CalculateAverage | mqtt.py:26-42 | the in-place update yields the result and new state of Batching.CalculateAverage |
| Subscriber.Accumulator.OnMessage | mqtt.py:76-97 | the in-place update keeps the invariant and yields Batching.OnMessage of the old state; while running, the batch stays below BATCH and last_time is the arrival |
| Subscriber.Accumulator.Reset | mqtt.py:44-50 | keeps the invariant and yields Batching.Reset of the old state: both lists empty and the trial 1 on a live run; last_time and the flush log are unchanged |

## Left out

- MQTT client setup, `on_connect`, `subscribe`, `loop_forever` and `client.disconnect` (mqtt.py:73-74, 108-119): network I/O through the paho library. Messages are inputs to `OnMessage`.
- `save_to_csv` file output (mqtt.py:52-61): the pandas CSV and Excel writing is not modelled. Each call is recorded as a `Flush` of the two lists it would write. A failing write is not modelled either: for example, `to_excel` raising PermissionError on an open workbook would escape `calculate_average` and `on_message` after the average row was appended and before the counter moved.
- `print_tables` (mqtt.py:63-71): console rendering only, with no effect on the state.
- `listen_for_reset` and its daemon thread (mqtt.py:101-106, 116): reading and matching the console command, and the race between the two threads, are not modelled. A reset is one atomic `Reset`.
- `time.time()`, `sys.getsizeof` and UTF-8 decoding (mqtt.py:84-88): the arrival time, the decoded payload and the size are fields of `Message`. The size is what `sys.getsizeof(msg.payload)` returns, which in CPython is the payload length plus a 33-byte object header, not the payload length; the model takes that number as given. A payload that is not valid UTF-8 raises in the script. That path is not modelled.
- `sys.exit` (mqtt.py:38, 82): modelled as the `terminated` flag, after which no handler has any effect.
- `DATA_BATCH_SIZE` and `MAX_TRIALS` are both 10 in the script. The model takes them as a `Config`, both at least 1.
- Metrics.Elapsed: computed exactly, without the script's `round(..., 3)`, because rounding floating-point values is not modelled.
- Metrics.Bandwidth: computed exactly, without `round(..., 3)`. The test for a positive elapsed time is therefore made on the unrounded value. For elapsed times below 0.0005 s the script would round to 0 and report bandwidth 0.
- Batching.CalculateAverage: the two means are exact, without `round(..., 3)`.
