/** The subscriber's module-level state and the handlers that mutate it in place, proved against
    the state machine of module Batching. */
module Subscriber {
  import opened Metrics
  import opened Batching

  class Accumulator {
    const config: Config
    var dataList: seq<Sample>
    var averageList: seq<Average>
    var trialCounter: int
    var lastTime: real
    /** The process has exited (sys.exit); no handler runs afterwards. */
    var terminated: bool
    /** Every save_to_csv call so far, oldest first. */
    var flushed: seq<Flush>

    /** The fields as one value of the state machine. */
    function Current(): (r: State)
      reads this
    {
      State(dataList, averageList, trialCounter, lastTime, terminated, flushed)
    }

    ghost predicate Valid()
      reads this
    {
      Inv(config, Current())
    }

    /** Module initialisation: empty lists, trial 1, and the start-up time as the last arrival. */
    constructor (cfg: Config, startTime: real)
      requires cfg.Valid()
      ensures Valid() && config == cfg
      ensures Current() == Start(cfg, startTime)
    {
      config := cfg;
      dataList := [];
      averageList := [];
      trialCounter := 1;
      lastTime := startTime;
      terminated := false;
      flushed := [];
    }

    /** save_to_csv: writes the current batch and the whole average list (file output is abstract). */
    method SaveToCsv()
      modifies this`flushed
      ensures flushed == old(flushed) + [Flush(dataList, averageList)]
    {
      flushed := flushed + [Flush(dataList, averageList)];
    }

    /** calculate_average. */
    method CalculateAverage() returns (c: Completion)
      requires config.Valid()
      modifies this
      ensures (c, Current()) == Batching.CalculateAverage(config, old(Current()))
    {
      if |dataList| == config.batchSize {
        var avgLatency := Sum(Latencies(dataList)) / config.batchSize as real;
        var avgBandwidth := Sum(Bandwidths(dataList)) / config.batchSize as real;
        averageList := averageList + [Average(trialCounter, avgLatency, avgBandwidth)];
        SaveToCsv();
        if trialCounter >= config.maxTrials {
          SaveToCsv();
          terminated := true;
          return Finished;
        }
        trialCounter := trialCounter + 1;
        return NextTrial;
      }
      return NotFull;
    }

    /** on_message, from the trial-limit guard to the clearing of a completed batch. */
    method OnMessage(m: Message)
      requires Valid()
      modifies this
      ensures Valid()
      ensures Current() == Batching.OnMessage(config, old(Current()), m)
      ensures !terminated ==> |dataList| < config.batchSize && lastTime == m.arrival
    {
      OnMessageInv(config, Current(), m);
      if terminated {
        return;
      }
      if trialCounter > config.maxTrials {
        // the guard that would exit here never fires: the invariant keeps the counter within the limit
        assert false;
      }
      var elapsed := Elapsed(m.arrival, lastTime);
      lastTime := m.arrival;
      var bandwidth := Bandwidth(m.sizeBytes, elapsed);
      dataList := dataList + [Sample(trialCounter, |dataList| + 1, m.value, elapsed, bandwidth)];
      var c := CalculateAverage();
      if c == NextTrial {
        dataList := [];
      }
    }

    /** reset_data. */
    method Reset()
      requires Valid()
      modifies this
      ensures Valid()
      ensures Current() == Batching.Reset(old(Current()))
      ensures !old(terminated) ==> dataList == [] && averageList == [] && trialCounter == 1
      ensures lastTime == old(lastTime) && flushed == old(flushed)
    {
      ResetInv(config, Current());
      if terminated {
        return;
      }
      dataList := [];
      averageList := [];
      trialCounter := 1;
    }
  }
}
