/** The batch-accumulation state machine of the telemetry subscriber, as values and functions:
    each inbound message becomes one sample row, a full batch becomes one average row, and the run
    ends after the last trial. The class in module Subscriber is proved against these functions. */
module Batching {
  import opened Metrics

  /** DATA_BATCH_SIZE and MAX_TRIALS (both 10 in the script). */
  datatype Config = Config(batchSize: nat, maxTrials: nat)
  {
    predicate Valid() { batchSize >= 1 && maxTrials >= 1 }
  }

  /** One inbound message: the decoded payload, the size the script measures for it (the result of
      sys.getsizeof on the payload bytes object, which exceeds the payload length by the object
      header), and the clock reading at arrival. */
  datatype Message = Message(value: string, sizeBytes: nat, arrival: real)

  /** A row of data_list: [trial, position in batch, value, latency, bandwidth]. */
  datatype Sample = Sample(trial: int, seqNo: int, value: string, elapsed: real, bandwidth: real)

  /** A row of average_list: [trial, average latency, average bandwidth]. */
  datatype Average = Average(trial: int, avgElapsed: real, avgBandwidth: real)

  /** What one call of save_to_csv writes out: the current batch and the whole average list. */
  datatype Flush = Flush(rows: seq<Sample>, averages: seq<Average>)

  /** What calculate_average did: nothing (batch not full), closed a trial, or ended the run. */
  datatype Completion = NotFull | NextTrial | Finished

  /** The script's module-level state; `terminated` stands for the process having exited,
      and `flushed` is the sequence of save_to_csv calls made so far. */
  datatype State = State(data: seq<Sample>, averages: seq<Average>, trial: int,
                         lastTime: real, terminated: bool, flushed: seq<Flush>)

  function Latencies(rows: seq<Sample>): (r: seq<real>)
    ensures |r| == |rows| && forall i | 0 <= i < |rows| :: r[i] == rows[i].elapsed
  {
    seq(|rows|, i requires 0 <= i < |rows| => rows[i].elapsed)
  }

  function Bandwidths(rows: seq<Sample>): (r: seq<real>)
    ensures |r| == |rows| && forall i | 0 <= i < |rows| :: r[i] == rows[i].bandwidth
  {
    seq(|rows|, i requires 0 <= i < |rows| => rows[i].bandwidth)
  }

  /** The average row of a completed batch: both means divide by the batch size. */
  function BatchAverage(trial: int, rows: seq<Sample>, batchSize: nat): (avg: Average)
    requires batchSize >= 1
    ensures avg.trial == trial
    // batchSize copies of each mean add up to the batch's total latency and total bandwidth
    ensures avg.avgElapsed * batchSize as real == Sum(Latencies(rows))
    ensures avg.avgBandwidth * batchSize as real == Sum(Bandwidths(rows))
  {
    Average(trial, Sum(Latencies(rows)) / batchSize as real, Sum(Bandwidths(rows)) / batchSize as real)
  }

  /** The state machine's invariant between messages. */
  ghost predicate Inv(cfg: Config, s: State)
  {
    && cfg.Valid()
    && 1 <= s.trial <= cfg.maxTrials
    // every row of the current batch belongs to the current trial and is numbered by its position
    && (forall i | 0 <= i < |s.data| ::
          s.data[i].trial == s.trial && s.data[i].seqNo == i + 1 && 0.0 <= s.data[i].bandwidth)
    // the i-th average row is that of trial i + 1
    && (forall j | 0 <= j < |s.averages| :: s.averages[j].trial == j + 1 && 0.0 <= s.averages[j].avgBandwidth)
    // only complete batches are ever written out
    && (forall f | f in s.flushed :: |f.rows| == cfg.batchSize)
    && (if s.terminated
        then |s.data| == cfg.batchSize && |s.averages| == s.trial == cfg.maxTrials
        else |s.data| < cfg.batchSize && |s.averages| == s.trial - 1)
  }

  /** The state at start-up: empty lists, trial 1, last arrival time = start-up time. */
  function Start(cfg: Config, startTime: real): (s: State)
    requires cfg.Valid()
    ensures Inv(cfg, s)
    ensures s.data == [] && s.averages == [] && s.trial == 1 && s.lastTime == startTime
  {
    State([], [], 1, startTime, false, [])
  }

  /** The row a message appends as number `seqNo` of trial `trial`, with `last` the previous arrival time:
      its latency is measured from that arrival and its bandwidth derived from that latency. */
  function NextRow(trial: int, seqNo: int, last: real, m: Message): (row: Sample)
    ensures row.trial == trial && row.seqNo == seqNo && row.value == m.value
    ensures last != 0.0 ==> last + row.elapsed == m.arrival
    ensures last == 0.0 ==> row.elapsed == 0.0
    ensures 0.0 <= row.bandwidth
    ensures row.elapsed <= 0.0 ==> row.bandwidth == 0.0
    ensures row.elapsed > 0.0 ==> row.bandwidth * row.elapsed * 1000.0 == (m.sizeBytes * 8) as real
  {
    var e := Elapsed(m.arrival, last);
    Sample(trial, seqNo, m.value, e, Bandwidth(m.sizeBytes, e))
  }

  /** calculate_average: when the batch is full, record its average and save; then either end
      the run (trial limit reached, saving once more) or move on to the next trial. */
  function CalculateAverage(cfg: Config, s: State): (r: (Completion, State))
    requires cfg.Valid()
    ensures r.0 == NotFull <==> |s.data| != cfg.batchSize
    ensures r.0 == NotFull ==> r.1 == s
    ensures r.0 == Finished <==> |s.data| == cfg.batchSize && s.trial >= cfg.maxTrials
    ensures r.0 != NotFull ==>
              && r.1.averages == s.averages + [BatchAverage(s.trial, s.data, cfg.batchSize)]
              && r.1.data == s.data && r.1.lastTime == s.lastTime
    ensures r.0 == NextTrial ==>
              && r.1.trial == s.trial + 1 && r.1.terminated == s.terminated
              && r.1.flushed == s.flushed + [Flush(s.data, r.1.averages)]
    ensures r.0 == Finished ==>
              && r.1.trial == s.trial && r.1.terminated
              && r.1.flushed == s.flushed + [Flush(s.data, r.1.averages), Flush(s.data, r.1.averages)]
  {
    if |s.data| != cfg.batchSize then (NotFull, s)
    else
      var averages := s.averages + [BatchAverage(s.trial, s.data, cfg.batchSize)];
      var saved := s.flushed + [Flush(s.data, averages)];
      if s.trial >= cfg.maxTrials then
        (Finished, s.(averages := averages, terminated := true, flushed := saved + [Flush(s.data, averages)]))
      else
        (NextTrial, s.(averages := averages, trial := s.trial + 1, flushed := saved))
  }

  /** on_message: once the process has exited no message is delivered; a trial counter past
      the limit exits; otherwise derive and append the row, and clear the batch if it closed a trial. */
  function OnMessage(cfg: Config, s: State, m: Message): (r: State)
    requires cfg.Valid()
    ensures s.terminated ==> r == s
    ensures !s.terminated && s.trial > cfg.maxTrials ==> r == s.(terminated := true)
    ensures !s.terminated && s.trial <= cfg.maxTrials ==> r.lastTime == m.arrival
    // saved output is only ever added to, and at most one average row is added
    ensures |s.flushed| <= |r.flushed| && r.flushed[..|s.flushed|] == s.flushed
    ensures r.averages == s.averages
            || (|r.averages| == |s.averages| + 1 && r.averages[..|s.averages|] == s.averages)
  {
    if s.terminated then s
    else if s.trial > cfg.maxTrials then s.(terminated := true)
    else
      var appended := s.(data := s.data + [NextRow(s.trial, |s.data| + 1, s.lastTime, m)], lastTime := m.arrival);
      var (c, t) := CalculateAverage(cfg, appended);
      if c == NextTrial then t.(data := []) else t
  }

  /** reset_data: clear both lists and restart at trial 1 (nothing happens once the process has exited). */
  function Reset(s: State): (r: State)
    ensures s.terminated ==> r == s
    ensures !s.terminated ==> r.data == [] && r.averages == [] && r.trial == 1 && !r.terminated
    ensures r.lastTime == s.lastTime && r.flushed == s.flushed
  {
    if s.terminated then s else s.(data := [], averages := [], trial := 1)
  }

  /** The state after a sequence of messages arrives, in order. */
  function Feed(cfg: Config, s: State, ms: seq<Message>): (r: State)
    requires cfg.Valid()
    decreases |ms|
  {
    if ms == [] then s else Feed(cfg, OnMessage(cfg, s, ms[0]), ms[1..])
  }

  /** The rows a sequence of messages appends in trial `t` from position `k` on,
      with `last` the arrival time before the first of them. */
  function RowsFor(t: int, k: int, last: real, ms: seq<Message>): (r: seq<Sample>)
    ensures |r| == |ms|
    decreases |ms|
  {
    if ms == [] then []
    else
      [NextRow(t, k + 1, last, ms[0])] + RowsFor(t, k + 1, ms[0].arrival, ms[1..])
  }

  /** The arrival time of the last of `ms`, or `last` when there is none. */
  function LastArrival(last: real, ms: seq<Message>): (r: real)
  {
    if ms == [] then last else ms[|ms| - 1].arrival
  }

  /** The average rows of the consecutive full batches of `ms`, starting at trial `t`. */
  function BlockAverages(cfg: Config, t: int, last: real, ms: seq<Message>): (r: seq<Average>)
    requires cfg.Valid()
    ensures forall j | 0 <= j < |r| :: r[j].trial == t + j
    decreases |ms|
  {
    if |ms| < cfg.batchSize then []
    else
      [BatchAverage(t, RowsFor(t, 0, last, ms[..cfg.batchSize]), cfg.batchSize)]
        + BlockAverages(cfg, t + 1, ms[cfg.batchSize - 1].arrival, ms[cfg.batchSize..])
  }

  // ----- one message, one reset -----

  /** A message keeps the invariant. While the run goes on it records the arrival time and leaves
      fewer than a batch of rows: a batch that fills is averaged and cleared in the same call,
      or it ends the run. The trial-limit guard of on_message never fires. */
  lemma OnMessageInv(cfg: Config, s: State, m: Message)
    requires Inv(cfg, s)
    ensures !(s.trial > cfg.maxTrials)
    ensures Inv(cfg, OnMessage(cfg, s, m))
    ensures !s.terminated ==> OnMessage(cfg, s, m).lastTime == m.arrival
    ensures s.terminated ==> OnMessage(cfg, s, m) == s
    ensures !s.terminated && |s.data| + 1 < cfg.batchSize ==>
              OnMessage(cfg, s, m) == s.(data := s.data + [NextRow(s.trial, |s.data| + 1, s.lastTime, m)], lastTime := m.arrival)
    ensures !s.terminated && |s.data| + 1 == cfg.batchSize ==>
              var r := OnMessage(cfg, s, m);
              r.averages == s.averages + [BatchAverage(s.trial, s.data + [NextRow(s.trial, |s.data| + 1, s.lastTime, m)], cfg.batchSize)]
              && (if s.trial < cfg.maxTrials then r.data == [] && r.trial == s.trial + 1 && !r.terminated
                  else r.terminated && r.trial == s.trial)
    // the filled batch is saved with the new average list: once, or twice on the last trial, where it stays in place
    ensures !s.terminated && |s.data| + 1 == cfg.batchSize ==>
              var rows := s.data + [NextRow(s.trial, |s.data| + 1, s.lastTime, m)];
              var r := OnMessage(cfg, s, m);
              if s.trial < cfg.maxTrials then r.flushed == s.flushed + [Flush(rows, r.averages)]
              else r.data == rows && r.flushed == s.flushed + [Flush(rows, r.averages), Flush(rows, r.averages)]
  {
    if !s.terminated {
      var rows := s.data + [NextRow(s.trial, |s.data| + 1, s.lastTime, m)];
      var appended := s.(data := rows, lastTime := m.arrival);
      if |rows| == cfg.batchSize {
        MeanWithinBandwidth(rows);
        var r := OnMessage(cfg, s, m);
        forall j | 0 <= j < |r.averages|
          ensures r.averages[j].trial == j + 1 && 0.0 <= r.averages[j].avgBandwidth
        {
          if j < |s.averages| {
            assert r.averages[j] == s.averages[j];
          }
        }
        forall f | f in r.flushed ensures |f.rows| == cfg.batchSize {
          if f !in s.flushed {
            assert f.rows == rows;
          }
        }
      }
    }
  }

  /** The average bandwidth of a batch is never negative. */
  lemma {:induction false} MeanWithinBandwidth(rows: seq<Sample>)
    requires |rows| >= 1
    requires forall i | 0 <= i < |rows| :: 0.0 <= rows[i].bandwidth
    ensures 0.0 <= Sum(Bandwidths(rows)) / |rows| as real
  {
    SumAtLeast(Bandwidths(rows), 0.0);
  }

  /** A reset keeps the invariant and discards the current batch without writing it out. */
  lemma ResetInv(cfg: Config, s: State)
    requires Inv(cfg, s)
    ensures Inv(cfg, Reset(s))
    ensures Reset(s).flushed == s.flushed
  {
  }

  // ----- sequences of messages -----

  /** Messages once the process has exited change nothing. */
  lemma {:induction false} FeedTerminated(cfg: Config, s: State, ms: seq<Message>)
    requires cfg.Valid() && s.terminated
    ensures Feed(cfg, s, ms) == s
    decreases |ms|
  {
    if ms != [] {
      FeedTerminated(cfg, s, ms[1..]);
    }
  }

  /** Any sequence of messages keeps the invariant. */
  lemma {:induction false} FeedInv(cfg: Config, s: State, ms: seq<Message>)
    requires Inv(cfg, s)
    ensures Inv(cfg, Feed(cfg, s, ms))
    decreases |ms|
  {
    if ms != [] {
      OnMessageInv(cfg, s, ms[0]);
      FeedInv(cfg, OnMessage(cfg, s, ms[0]), ms[1..]);
    }
  }

  /** Feeding two sequences one after the other is feeding their concatenation. */
  lemma {:induction false} FeedConcat(cfg: Config, s: State, a: seq<Message>, b: seq<Message>)
    requires cfg.Valid()
    ensures Feed(cfg, s, a + b) == Feed(cfg, Feed(cfg, s, a), b)
    decreases |a|
  {
    if a == [] {
      assert a + b == b;
    } else {
      assert (a + b)[0] == a[0] && (a + b)[1..] == a[1..] + b;
      FeedConcat(cfg, OnMessage(cfg, s, a[0]), a[1..], b);
    }
  }

  /** The rows of two consecutive message sequences: the second continues numbering and timing
      where the first stopped. */
  lemma {:induction false} RowsForConcat(t: int, k: int, last: real, a: seq<Message>, b: seq<Message>)
    ensures RowsFor(t, k, last, a + b) == RowsFor(t, k, last, a) + RowsFor(t, k + |a|, LastArrival(last, a), b)
    decreases |a|
  {
    if a == [] {
      assert a + b == b;
    } else {
      assert (a + b)[0] == a[0] && (a + b)[1..] == a[1..] + b;
      RowsForConcat(t, k + 1, a[0].arrival, a[1..], b);
      var row := NextRow(t, k + 1, last, a[0]);
      var front, back := RowsFor(t, k + 1, a[0].arrival, a[1..]), RowsFor(t, k + |a|, LastArrival(last, a), b);
      assert LastArrival(a[0].arrival, a[1..]) == LastArrival(last, a);
      assert RowsFor(t, k, last, a + b) == [row] + (front + back);
      assert RowsFor(t, k, last, a) == [row] + front;
      assert [row] + (front + back) == [row] + front + back;
    }
  }

  /** Messages that do not fill the batch only append their rows and move the arrival time. */
  lemma {:induction false} FeedPartial(cfg: Config, s: State, ms: seq<Message>)
    requires Inv(cfg, s) && !s.terminated
    requires |s.data| + |ms| < cfg.batchSize
    ensures Feed(cfg, s, ms)
         == s.(data := s.data + RowsFor(s.trial, |s.data|, s.lastTime, ms), lastTime := LastArrival(s.lastTime, ms))
    decreases |ms|
  {
    if ms == [] {
      assert s.data + [] == s.data;
    } else {
      var row := NextRow(s.trial, |s.data| + 1, s.lastTime, ms[0]);
      OnMessageInv(cfg, s, ms[0]);
      var s1 := s.(data := s.data + [row], lastTime := ms[0].arrival);
      assert OnMessage(cfg, s, ms[0]) == s1;
      FeedPartial(cfg, s1, ms[1..]);
      var rest := RowsFor(s.trial, |s.data| + 1, ms[0].arrival, ms[1..]);
      assert RowsFor(s.trial, |s.data|, s.lastTime, ms) == [row] + rest;
      assert s1.data + rest == s.data + ([row] + rest);
      assert LastArrival(ms[0].arrival, ms[1..]) == LastArrival(s.lastTime, ms);
    }
  }

  /** One batch worth of messages, from an empty batch, adds exactly the average of the rows they
      produce; it then clears the batch and moves to the next trial, or ends the run at the limit. */
  lemma {:induction false} FeedBatch(cfg: Config, s: State, ms: seq<Message>)
    requires Inv(cfg, s) && !s.terminated && s.data == []
    requires |ms| == cfg.batchSize
    ensures var r := Feed(cfg, s, ms);
            && r.averages == s.averages + [BatchAverage(s.trial, RowsFor(s.trial, 0, s.lastTime, ms), cfg.batchSize)]
            && r.lastTime == LastArrival(s.lastTime, ms)
            && (if s.trial < cfg.maxTrials then r.data == [] && r.trial == s.trial + 1 && !r.terminated
                else r.terminated && r.trial == s.trial)
  {
    var n := cfg.batchSize - 1;
    var init, m := ms[..n], ms[n];
    assert ms == init + [m];
    FeedConcat(cfg, s, init, [m]);
    FeedPartial(cfg, s, init);
    var rows := RowsFor(s.trial, 0, s.lastTime, init);
    var s1 := s.(data := rows, lastTime := LastArrival(s.lastTime, init));
    assert s.data + rows == rows;
    assert Feed(cfg, s, init) == s1;
    FeedInv(cfg, s, init);
    OnMessageInv(cfg, s1, m);
    OneRow(s.trial, n, s1.lastTime, m);
    RowsForConcat(s.trial, 0, s.lastTime, init, [m]);
    assert rows + [NextRow(s1.trial, |s1.data| + 1, s1.lastTime, m)] == RowsFor(s.trial, 0, s.lastTime, ms);
    assert Feed(cfg, s1, [m]) == OnMessage(cfg, s1, m);
  }

  /** The row of a single message, as RowsFor gives it, is the one NextRow derives. */
  lemma OneRow(t: int, k: int, last: real, m: Message)
    ensures RowsFor(t, k, last, [m]) == [NextRow(t, k + 1, last, m)]
  {
    assert [m][1..] == [];
  }

  /** k full batches from an empty batch add the average of each batch, in order; the run ends exactly
      when the k-th of them is the last trial. */
  lemma {:induction false} FeedTrials(cfg: Config, s: State, ms: seq<Message>, k: nat)
    requires Inv(cfg, s) && !s.terminated && s.data == []
    requires |ms| == Span(k, cfg.batchSize) && s.trial + k <= cfg.maxTrials + 1
    ensures Feed(cfg, s, ms).averages == s.averages + BlockAverages(cfg, s.trial, s.lastTime, ms)
    ensures Feed(cfg, s, ms).lastTime == LastArrival(s.lastTime, ms)
    ensures s.trial + k <= cfg.maxTrials ==>
              Feed(cfg, s, ms).data == [] && Feed(cfg, s, ms).trial == s.trial + k && !Feed(cfg, s, ms).terminated
    ensures s.trial + k > cfg.maxTrials ==> Feed(cfg, s, ms).terminated && Feed(cfg, s, ms).trial == cfg.maxTrials
    decreases k, 1
  {
    if k == 0 {
      assert ms == [];
      assert s.averages + [] == s.averages;
    } else if s.trial < cfg.maxTrials {
      var s1, avg := FirstBatch(cfg, s, ms);
      NextTrials(cfg, s, ms, k, s1, avg);
    } else {
      LastTrial(cfg, s, ms);
    }
  }

  /** The inductive step of FeedTrials: the first batch has closed a trial that is not the last
      one, leaving s1 with average avg, and the remaining k - 1 batches continue from s1. */
  lemma {:induction false} NextTrials(cfg: Config, s: State, ms: seq<Message>, k: nat, s1: State, avg: Average)
    requires cfg.Valid() && k >= 1 && |ms| == Span(k, cfg.batchSize) && s.trial + k <= cfg.maxTrials + 1
    requires Inv(cfg, s1) && s1.data == [] && s1.trial == s.trial + 1 && !s1.terminated
    requires s1.lastTime == ms[cfg.batchSize - 1].arrival
    requires s1.averages == s.averages + [avg]
    requires BlockAverages(cfg, s.trial, s.lastTime, ms) == [avg] + BlockAverages(cfg, s.trial + 1, s1.lastTime, ms[cfg.batchSize..])
    ensures Feed(cfg, s1, ms[cfg.batchSize..]).averages == s.averages + BlockAverages(cfg, s.trial, s.lastTime, ms)
    ensures Feed(cfg, s1, ms[cfg.batchSize..]).lastTime == LastArrival(s.lastTime, ms)
    ensures s.trial + k <= cfg.maxTrials ==>
              && Feed(cfg, s1, ms[cfg.batchSize..]).data == []
              && Feed(cfg, s1, ms[cfg.batchSize..]).trial == s.trial + k
              && !Feed(cfg, s1, ms[cfg.batchSize..]).terminated
    ensures s.trial + k > cfg.maxTrials ==>
              Feed(cfg, s1, ms[cfg.batchSize..]).terminated && Feed(cfg, s1, ms[cfg.batchSize..]).trial == cfg.maxTrials
    decreases k, 0
  {
    var rest := ms[cfg.batchSize..];
    FeedTrials(cfg, s1, rest, k - 1);
    JoinFirstBatch(cfg, s, ms, s1, avg, Feed(cfg, s1, rest));
  }

  /** One batch worth of messages at the last trial ends the run with that batch's average. */
  lemma {:induction false} LastTrial(cfg: Config, s: State, ms: seq<Message>)
    requires Inv(cfg, s) && !s.terminated && s.data == [] && s.trial == cfg.maxTrials
    requires |ms| == cfg.batchSize
    ensures Feed(cfg, s, ms).averages == s.averages + BlockAverages(cfg, s.trial, s.lastTime, ms)
    ensures Feed(cfg, s, ms).lastTime == LastArrival(s.lastTime, ms)
    ensures Feed(cfg, s, ms).terminated && Feed(cfg, s, ms).trial == cfg.maxTrials
  {
    var b := cfg.batchSize;
    FeedBatch(cfg, s, ms);
    var avg := BatchAverage(s.trial, RowsFor(s.trial, 0, s.lastTime, ms), b);
    assert ms[..b] == ms && ms[b..] == [];
    assert BlockAverages(cfg, s.trial, s.lastTime, ms) == [avg] + BlockAverages(cfg, s.trial + 1, ms[b - 1].arrival, []);
    assert BlockAverages(cfg, s.trial + 1, ms[b - 1].arrival, []) == [];
    assert [avg] + [] == [avg];
  }

  /** The first full batch of a longer sequence: what it leaves behind, and how the rest continues. */
  lemma {:induction false} FirstBatch(cfg: Config, s: State, ms: seq<Message>) returns (s1: State, avg: Average)
    requires Inv(cfg, s) && !s.terminated && s.data == [] && s.trial < cfg.maxTrials
    requires |ms| >= cfg.batchSize
    ensures Inv(cfg, s1) && s1.data == [] && s1.trial == s.trial + 1 && !s1.terminated
    ensures Feed(cfg, s, ms) == Feed(cfg, s1, ms[cfg.batchSize..])
    ensures s1.lastTime == ms[cfg.batchSize - 1].arrival
    ensures s1.averages == s.averages + [avg]
    ensures BlockAverages(cfg, s.trial, s.lastTime, ms) == [avg] + BlockAverages(cfg, s.trial + 1, s1.lastTime, ms[cfg.batchSize..])
  {
    var b := cfg.batchSize;
    var first, rest := ms[..b], ms[b..];
    assert ms == first + rest;
    FeedConcat(cfg, s, first, rest);
    FeedBatch(cfg, s, first);
    FeedInv(cfg, s, first);
    s1 := Feed(cfg, s, first);
    avg := BatchAverage(s.trial, RowsFor(s.trial, 0, s.lastTime, first), b);
  }

  /** The state f the remaining batches reach from s1, seen from s: its averages continue the
      first batch's, and its last arrival is the last arrival of the whole sequence. */
  lemma {:induction false} JoinFirstBatch(cfg: Config, s: State, ms: seq<Message>, s1: State, avg: Average, f: State)
    requires cfg.Valid() && |ms| >= cfg.batchSize && s1.trial == s.trial + 1
    requires s1.lastTime == ms[cfg.batchSize - 1].arrival
    requires s1.averages == s.averages + [avg]
    requires BlockAverages(cfg, s.trial, s.lastTime, ms) == [avg] + BlockAverages(cfg, s.trial + 1, s1.lastTime, ms[cfg.batchSize..])
    requires f.averages == s1.averages + BlockAverages(cfg, s1.trial, s1.lastTime, ms[cfg.batchSize..])
    requires f.lastTime == LastArrival(s1.lastTime, ms[cfg.batchSize..])
    ensures f.averages == s.averages + BlockAverages(cfg, s.trial, s.lastTime, ms)
    ensures f.lastTime == LastArrival(s.lastTime, ms)
  {
    var later := BlockAverages(cfg, s.trial + 1, s1.lastTime, ms[cfg.batchSize..]);
    assert s.averages + [avg] + later == s.averages + ([avg] + later);
    LastArrivalSplit(s.lastTime, ms, cfg.batchSize);
  }

  /** The last arrival after the first b messages, continued over the rest, is the last arrival of them all. */
  lemma {:induction false} LastArrivalSplit(last: real, ms: seq<Message>, b: nat)
    requires 1 <= b <= |ms|
    ensures LastArrival(ms[b - 1].arrival, ms[b..]) == LastArrival(last, ms)
  {
    if b < |ms| {
      assert ms[b..][|ms| - b - 1] == ms[|ms| - 1];
    }
  }

  /** The number of messages in k batches of b messages, counted batch by batch. */
  function Span(k: nat, b: nat): (n: nat)
  {
    if k == 0 then 0 else b + Span(k - 1, b)
  }

  lemma {:induction false} SpanIsProduct(k: nat, b: nat)
    ensures Span(k, b) == k * b
  {
    if k > 0 {
      SpanIsProduct(k - 1, b);
    }
  }

  /** A whole run: from start-up, maxTrials batches of messages end the run with one average per trial,
      each the mean of its own batch, and every later message is ignored. */
  lemma {:induction false} CompleteRun(cfg: Config, startTime: real, ms: seq<Message>, later: seq<Message>)
    requires cfg.Valid()
    requires |ms| == cfg.maxTrials * cfg.batchSize
    ensures var r := Feed(cfg, Start(cfg, startTime), ms);
            && r.terminated
            && r.averages == BlockAverages(cfg, 1, startTime, ms)
            && |r.averages| == cfg.maxTrials
            && Feed(cfg, r, later) == r
  {
    var s := Start(cfg, startTime);
    SpanIsProduct(cfg.maxTrials, cfg.batchSize);
    FeedTrials(cfg, s, ms, cfg.maxTrials);
    FeedInv(cfg, s, ms);
    FeedTerminated(cfg, Feed(cfg, s, ms), later);
  }

  /** With every timestamp non-zero, the latencies of consecutive rows add up to the time from the
      arrival before the first message to the arrival of the last one. */
  lemma {:induction false} LatenciesTelescope(t: int, k: int, last: real, ms: seq<Message>)
    requires last != 0.0
    requires forall i | 0 <= i < |ms| :: ms[i].arrival != 0.0
    ensures Sum(Latencies(RowsFor(t, k, last, ms))) == LastArrival(last, ms) - last
    decreases |ms|
  {
    if ms != [] {
      var init, m := ms[..|ms| - 1], ms[|ms| - 1];
      assert ms == init + [m];
      RowsForConcat(t, k, last, init, [m]);
      var rows := RowsFor(t, k, last, init);
      var tail := RowsFor(t, k + |init|, LastArrival(last, init), [m]);
      assert Latencies(rows + tail) == Latencies(rows) + [tail[0].elapsed];
      LatenciesTelescope(t, k, last, init);
    }
  }

  /** The average latency of a batch lies between the smallest and the largest latency in it. */
  lemma {:induction false} AverageLatencyWithin(trial: int, rows: seq<Sample>, lo: real, hi: real)
    requires |rows| >= 1
    requires forall i | 0 <= i < |rows| :: lo <= rows[i].elapsed <= hi
    ensures lo <= BatchAverage(trial, rows, |rows|).avgElapsed <= hi
  {
    MeanWithin(Latencies(rows), lo, hi);
  }

  /** Batch size 2, two trials, messages whose sys.getsizeof sizes are 100 and 200, one second
      apart, the first arriving at the start-up instant: the run ends after the fourth message with averages
      (0.5 s, 0.8 kbps) and (1.0 s, 1.2 kbps). */
  lemma TwoTrialScenario()
    ensures var cfg := Config(2, 2);
            var ms := [Message("a", 100, 10.0), Message("b", 200, 11.0),
                       Message("c", 100, 12.0), Message("d", 200, 13.0)];
            var r := Feed(cfg, Start(cfg, 10.0), ms);
            r.terminated && r.averages == [Average(1, 0.5, 0.8), Average(2, 1.0, 1.2)]
  {
    var cfg := Config(2, 2);
    var m1, m2, m3, m4 := Message("a", 100, 10.0), Message("b", 200, 11.0),
                          Message("c", 100, 12.0), Message("d", 200, 13.0);
    var ms := [m1, m2, m3, m4];
    CompleteRun(cfg, 10.0, ms, []);
    assert ms[..2] == [m1, m2] && ms[2..] == [m3, m4] && ms[2..][..2] == [m3, m4] && ms[2..][2..] == [];
    ScenarioFirstTrial();
    ScenarioSecondTrial();
    assert BlockAverages(cfg, 3, 13.0, []) == [];
  }

  /** First trial of the scenario: latencies 0 and 1 s, bandwidths 0 and 1.6 kbps. */
  lemma ScenarioFirstTrial()
    ensures BatchAverage(1, RowsFor(1, 0, 10.0, [Message("a", 100, 10.0), Message("b", 200, 11.0)]), 2)
         == Average(1, 0.5, 0.8)
  {
    var m1, m2 := Message("a", 100, 10.0), Message("b", 200, 11.0);
    var rows := [Sample(1, 1, "a", 0.0, 0.0), Sample(1, 2, "b", 1.0, 1.6)];
    OneRow(1, 1, 10.0, m2);
    assert RowsFor(1, 0, 10.0, [m1, m2]) == rows;
    assert Latencies(rows) == [0.0, 1.0] && Bandwidths(rows) == [0.0, 1.6];
    assert Sum([0.0, 1.0]) == 1.0 && Sum([0.0, 1.6]) == 1.6 by {
      assert [0.0, 1.0][..1] == [0.0] && [0.0, 1.6][..1] == [0.0];
    }
  }

  /** Second trial of the scenario: latencies 1 and 1 s, bandwidths 0.8 and 1.6 kbps. */
  lemma ScenarioSecondTrial()
    ensures BatchAverage(2, RowsFor(2, 0, 11.0, [Message("c", 100, 12.0), Message("d", 200, 13.0)]), 2)
         == Average(2, 1.0, 1.2)
  {
    var m3, m4 := Message("c", 100, 12.0), Message("d", 200, 13.0);
    var rows := [Sample(2, 1, "c", 1.0, 0.8), Sample(2, 2, "d", 1.0, 1.6)];
    OneRow(2, 1, 12.0, m4);
    assert RowsFor(2, 0, 11.0, [m3, m4]) == rows;
    assert Latencies(rows) == [1.0, 1.0] && Bandwidths(rows) == [0.8, 1.6];
    assert Sum([1.0, 1.0]) == 2.0 && Sum([0.8, 1.6]) == 2.4 by {
      assert [1.0, 1.0][..1] == [1.0] && [0.8, 1.6][..1] == [0.8];
    }
  }
}
