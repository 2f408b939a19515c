/** The part of one tick of `update_data` that both GUIs share: push the time point, the per-core
    usages and the memory percentage, derive the two byte rates and push them as a pair. The
    tick stops at the first exception, keeping what was already pushed. */
module Sampling {
  import opened Errors
  import opened Counters
  import opened History

  /** What the provider calls of one tick return: `time.time()`, the `%H:%M:%S` text of
      `datetime.now()`, the per-core percentages, the memory percentage and the counters. */
  datatype Reading = Reading(time: real, clock: string, cpuUsage: seq<real>, memoryPercent: real, netIo: NetIo)

  /** The history fields of a GUI object, as handed to export. */
  datatype Histories = Histories(
    timePoints: seq<string>,
    cpuHistory: seq<seq<real>>,
    memoryHistory: seq<real>,
    networkSentHistory: seq<real>,
    networkRecvHistory: seq<real>)

  /** The invariant the GUIs keep: every list holds at most `MAX_HISTORY` items and the two
      network lists have the same length. */
  predicate Bounded(h: Histories)
  {
    && |h.timePoints| <= MAX_HISTORY
    && (forall i :: 0 <= i < |h.cpuHistory| ==> |h.cpuHistory[i]| <= MAX_HISTORY)
    && |h.memoryHistory| <= MAX_HISTORY
    && |h.networkSentHistory| <= MAX_HISTORY
    && |h.networkSentHistory| == |h.networkRecvHistory|
  }

  /** Empty histories with one CPU list per core. */
  function Initial(cores: nat): (h: Histories)
    ensures Bounded(h) && |h.cpuHistory| == cores
    ensures forall i :: 0 <= i < cores ==> h.cpuHistory[i] == []
    ensures h.timePoints == [] && h.memoryHistory == []
    ensures h.networkSentHistory == [] && h.networkRecvHistory == []
  {
    Histories([], seq(cores, _ => []), [], [], [])
  }

  datatype Rates = Rates(sentPerSec: real, recvPerSec: real)

  /** The histories after the tick's pushes, and the two rates or the exception that ended it. */
  datatype Recorded = Recorded(histories: Histories, rates: Result<Rates>)

  /** The pushes and rate derivation of one tick, with `time_diff = current_time - prev_time`.
      When the sent list is full, both network lists are popped; popping an empty received
      list raises IndexError after the sent list lost its oldest item. */
  function Record(h: Histories, r: Reading, prevNetIo: NetIo, prevTime: real): Recorded
  {
    var timeDiff := r.time - prevTime;
    var h1 := h.(timePoints := Push(h.timePoints, r.clock), cpuHistory := PushCores(h.cpuHistory, r.cpuUsage));
    if |r.cpuUsage| > |h.cpuHistory| then Recorded(h1, Err(IndexError))
    else
      var h2 := h1.(memoryHistory := Push(h.memoryHistory, r.memoryPercent));
      var sent := Rate(prevNetIo.bytesSent, r.netIo.bytesSent, timeDiff);
      var recv := Rate(prevNetIo.bytesRecv, r.netIo.bytesRecv, timeDiff);
      if sent.Err? then Recorded(h2, Err(sent.error))
      else if |h.networkSentHistory| >= MAX_HISTORY && h.networkRecvHistory == [] then
        Recorded(h2.(networkSentHistory := h.networkSentHistory[1..]), Err(IndexError))
      else
        var pair := PushPair(h.networkSentHistory, h.networkRecvHistory, sent.value, recv.value);
        Recorded(h2.(networkSentHistory := pair.0, networkRecvHistory := pair.1), Ok(Rates(sent.value, recv.value)))
  }

  /** A tick, whether it completes or raises, keeps every list within `MAX_HISTORY` items and
      the two network lists of equal length. */
  lemma RecordKeepsBounded(h: Histories, r: Reading, prevNetIo: NetIo, prevTime: real)
    requires Bounded(h)
    ensures Bounded(Record(h, r, prevNetIo, prevTime).histories)
  {
    var cores := PushCores(h.cpuHistory, r.cpuUsage);
    forall i | 0 <= i < |cores|
      ensures |cores[i]| <= MAX_HISTORY
    {
      assert |h.cpuHistory[i]| <= MAX_HISTORY;
    }
  }

  /** What one tick records when the network lists have equal length: the time point always;
      each reported core that has a list; the memory value unless a core had no list
      (IndexError); the rate pair unless that or a zero elapsed time (ZeroDivisionError) ended
      the tick. */
  lemma RecordPushesInOrder(h: Histories, r: Reading, prevNetIo: NetIo, prevTime: real)
    requires |h.networkSentHistory| == |h.networkRecvHistory|
    ensures var rec := Record(h, r, prevNetIo, prevTime);
      && rec.histories.timePoints == Push(h.timePoints, r.clock)
      && rec.histories.cpuHistory == PushCores(h.cpuHistory, r.cpuUsage)
      && rec.histories.memoryHistory ==
         (if |r.cpuUsage| <= |h.cpuHistory| then Push(h.memoryHistory, r.memoryPercent) else h.memoryHistory)
      && (rec.rates.Err? <==> |r.cpuUsage| > |h.cpuHistory| || r.time - prevTime == 0.0)
      && (rec.rates.Err? ==> rec.rates.error == if |r.cpuUsage| > |h.cpuHistory| then IndexError else ZeroDivisionError)
      && (rec.rates.Err? ==>
           rec.histories.networkSentHistory == h.networkSentHistory && rec.histories.networkRecvHistory == h.networkRecvHistory)
      && (rec.rates.Ok? ==>
           && Rate(prevNetIo.bytesSent, r.netIo.bytesSent, r.time - prevTime) == Ok(rec.rates.value.sentPerSec)
           && Rate(prevNetIo.bytesRecv, r.netIo.bytesRecv, r.time - prevTime) == Ok(rec.rates.value.recvPerSec)
           && rec.histories.networkSentHistory == Push(h.networkSentHistory, rec.rates.value.sentPerSec)
           && rec.histories.networkRecvHistory == Push(h.networkRecvHistory, rec.rates.value.recvPerSec))
  {
  }

  /** A tick with a zero elapsed time raises ZeroDivisionError after pushing the memory value,
      and pushes no network rates; so a memory list as long as the network lists and not yet
      full gets one item ahead of them. */
  lemma ZeroElapsedSkipsNetwork(h: Histories, r: Reading, prevNetIo: NetIo, prevTime: real)
    requires |r.cpuUsage| <= |h.cpuHistory|
    requires |h.networkSentHistory| == |h.networkRecvHistory|
    requires r.time == prevTime
    ensures var rec := Record(h, r, prevNetIo, prevTime);
      && rec.rates == Err(ZeroDivisionError)
      && rec.histories.memoryHistory == Push(h.memoryHistory, r.memoryPercent)
      && rec.histories.networkSentHistory == h.networkSentHistory
      && rec.histories.networkRecvHistory == h.networkRecvHistory
      && (|h.memoryHistory| == |h.networkSentHistory| < MAX_HISTORY ==>
            |rec.histories.memoryHistory| == |rec.histories.networkSentHistory| + 1)
  {
    RecordPushesInOrder(h, r, prevNetIo, prevTime);
  }

  /** What one tick ended with: the two rates, or the exception it raised. */
  datatype TickOutcome = Completed(rates: Rates) | Raised(error: PyError)
}
