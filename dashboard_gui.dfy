/** The basic GUI (`SystemMonitorGUI` of system_dashboard_gui.py). Its worker loop has no
    exception handler: the first exception of a tick ends the worker thread. */
module DashboardGui {
  import opened Errors
  import opened Counters
  import opened History
  import opened Sampling

  /** The state the worker loop reads and writes. */
  datatype Engine = Engine(histories: Histories, prevNetIo: NetIo, prevTime: real)

  /** One iteration of `update_data`: the shared pushes, then `prev_net_io` and `prev_time`
      become this tick's values, unless an exception ended the tick first. */
  function Step(e: Engine, r: Reading): (Engine, TickOutcome)
  {
    var rec := Record(e.histories, r, e.prevNetIo, e.prevTime);
    match rec.rates
    case Ok(rates) => (Engine(rec.histories, r.netIo, r.time), Completed(rates))
    case Err(error) => (e.(histories := rec.histories), Raised(error))
  }

  /** A tick keeps the histories what `Record` made them; it advances `prev_net_io` and
      `prev_time` to the tick's own values exactly when it completed, and leaves them alone
      when it raised. */
  lemma StepAdvancesPrevOnlyOnCompletion(e: Engine, r: Reading)
    ensures var (e1, o) := Step(e, r);
      var rec := Record(e.histories, r, e.prevNetIo, e.prevTime);
      && e1.histories == rec.histories
      && (o.Completed? <==> rec.rates.Ok?)
      && (o.Completed? ==> rec.rates == Ok(o.rates) && e1.prevNetIo == r.netIo && e1.prevTime == r.time)
      && (o.Raised? ==> rec.rates == Err(o.error) && e1.prevNetIo == e.prevNetIo && e1.prevTime == e.prevTime)
  {
  }

  /** A tick keeps the histories bounded. */
  lemma StepKeepsBounded(e: Engine, r: Reading)
    requires Bounded(e.histories)
    ensures Bounded(Step(e, r).0.histories)
  {
    RecordKeepsBounded(e.histories, r, e.prevNetIo, e.prevTime);
  }

  /** A tick whose clock did not advance raises ZeroDivisionError at the rate and, with no
      handler, is the last tick the worker performs. */
  lemma ZeroElapsedEndsWorker(e: Engine, r: Reading, rs: seq<Reading>)
    requires |e.histories.networkSentHistory| == |e.histories.networkRecvHistory|
    requires |r.cpuUsage| <= |e.histories.cpuHistory| && r.time == e.prevTime
    ensures Run(e, [r] + rs).outcomes == [Raised(ZeroDivisionError)]
  {
    RecordPushesInOrder(e.histories, r, e.prevNetIo, e.prevTime);
    assert ([r] + rs)[0] == r;
  }

  datatype RunResult = RunResult(engine: Engine, outcomes: seq<TickOutcome>)

  /** The worker loop over the readings of successive ticks, ending after the first tick that
      raised. */
  function Run(e: Engine, rs: seq<Reading>): RunResult
    decreases |rs|
  {
    if rs == [] then RunResult(e, [])
    else
      var (e1, o) := Step(e, rs[0]);
      if o.Raised? then RunResult(e1, [o])
      else
        var rest := Run(e1, rs[1..]);
        RunResult(rest.engine, [o] + rest.outcomes)
  }

  /** The first tick of a run, then, if it completed, the run over the remaining readings. */
  lemma RunCons(e: Engine, r: Reading, rs: seq<Reading>)
    ensures var (e1, o) := Step(e, r);
      Run(e, [r] + rs) == if o.Raised? then RunResult(e1, [o])
                          else RunResult(Run(e1, rs).engine, [o] + Run(e1, rs).outcomes)
  {
    assert ([r] + rs)[0] == r && ([r] + rs)[1..] == rs;
  }

  /** The worker handles readings in order until one raises, and that one is its last: either
      every reading completed, or the last outcome is the exception that ended the thread. The
      histories stay bounded throughout. */
  lemma {:induction false} RunStopsAtFirstException(e: Engine, rs: seq<Reading>)
    requires Bounded(e.histories)
    ensures var run := Run(e, rs);
      && Bounded(run.engine.histories)
      && |run.outcomes| <= |rs|
      && (rs != [] ==> run.outcomes != [])
      && (forall k :: 0 <= k < |run.outcomes| - 1 ==> run.outcomes[k].Completed?)
      && (|run.outcomes| < |rs| ==> run.outcomes[|run.outcomes| - 1].Raised?)
    decreases |rs|
  {
    if rs != [] {
      var (e1, o) := Step(e, rs[0]);
      StepKeepsBounded(e, rs[0]);
      RunCons(e, rs[0], rs[1..]);
      assert [rs[0]] + rs[1..] == rs;
      if o.Completed? {
        RunStopsAtFirstException(e1, rs[1..]);
      }
    }
  }

  class SystemMonitorGui {
    var cpuHistory: seq<seq<real>>
    var memoryHistory: seq<real>
    var networkRecvHistory: seq<real>
    var networkSentHistory: seq<real>
    var timePoints: seq<string>
    var prevNetIo: NetIo
    var prevTime: real

    ghost function Histories(): Histories
      reads this
    {
      Sampling.Histories(timePoints, cpuHistory, memoryHistory, networkSentHistory, networkRecvHistory)
    }

    ghost function State(): Engine
      reads this
    {
      Engine(Histories(), prevNetIo, prevTime)
    }

    ghost predicate Valid()
      reads this
    {
      Bounded(Histories())
    }

    /** `__init__`: empty histories with one CPU list per core reported at start-up, and the
        counters and clock read once for the first rate. */
    constructor (coresAtStartup: nat, netIo: NetIo, time: real)
      ensures Valid()
      ensures State() == Engine(Initial(coresAtStartup), netIo, time)
    {
      cpuHistory := seq(coresAtStartup, _ => []);
      memoryHistory := [];
      networkRecvHistory := [];
      networkSentHistory := [];
      timePoints := [];
      prevNetIo := netIo;
      prevTime := time;
    }

    /** `if len(self.time_points) >= MAX_HISTORY: pop(0)`, then `append`. */
    method PushTimePoint(clock: string)
      modifies this`timePoints
      ensures timePoints == Push(old(timePoints), clock)
    {
      if |timePoints| >= MAX_HISTORY {
        timePoints := timePoints[1..];
      }
      timePoints := timePoints + [clock];
    }

    /** The same bounded push on `memory_history`. */
    method PushMemory(percent: real)
      modifies this`memoryHistory
      ensures memoryHistory == Push(old(memoryHistory), percent)
    {
      if |memoryHistory| >= MAX_HISTORY {
        memoryHistory := memoryHistory[1..];
      }
      memoryHistory := memoryHistory + [percent];
    }

    /** `if len(network_sent_history) >= MAX_HISTORY`, both lists are popped, then both are
        appended; `ok` is false when the received list was empty, so that its `pop(0)` raised
        IndexError after the sent list had lost its oldest item. */
    method PushNetwork(sentPerSec: real, recvPerSec: real) returns (ok: bool)
      modifies this`networkSentHistory, this`networkRecvHistory
      ensures ok <==> !(|old(networkSentHistory)| >= MAX_HISTORY && old(networkRecvHistory) == [])
      ensures ok ==>
        (networkSentHistory, networkRecvHistory) ==
        PushPair(old(networkSentHistory), old(networkRecvHistory), sentPerSec, recvPerSec)
      ensures !ok ==> networkSentHistory == old(networkSentHistory)[1..] && networkRecvHistory == old(networkRecvHistory)
    {
      if |networkSentHistory| >= MAX_HISTORY {
        networkSentHistory := networkSentHistory[1..];
        if networkRecvHistory == [] {
          return false;
        }
        networkRecvHistory := networkRecvHistory[1..];
      }
      networkSentHistory := networkSentHistory + [sentPerSec];
      networkRecvHistory := networkRecvHistory + [recvPerSec];
      ok := true;
    }

    /** The pushes and rate derivation of one tick, leaving `prev_net_io` and `prev_time`
        alone; the result is the two rates or the exception that ended the tick. */
    method RecordTick(r: Reading) returns (rates: Result<Rates>)
      modifies this`timePoints, this`cpuHistory, this`memoryHistory
      modifies this`networkSentHistory, this`networkRecvHistory
      ensures Recorded(Histories(), rates) == Record(old(Histories()), r, prevNetIo, prevTime)
    {
      ghost var rec := Record(Histories(), r, prevNetIo, prevTime);
      var timeDiff := r.time - prevTime;
      PushTimePoint(r.clock);
      var cores, ok := AppendCoreUsage(cpuHistory, r.cpuUsage);
      cpuHistory := cores;
      assert timePoints == rec.histories.timePoints && cpuHistory == rec.histories.cpuHistory;
      if !ok {
        assert Histories() == rec.histories;
        return Err(IndexError);
      }
      PushMemory(r.memoryPercent);
      assert memoryHistory == rec.histories.memoryHistory;
      var sent := Rate(prevNetIo.bytesSent, r.netIo.bytesSent, timeDiff);
      if sent.Err? {
        assert Histories() == rec.histories;
        return Err(sent.error);
      }
      var recv := Rate(prevNetIo.bytesRecv, r.netIo.bytesRecv, timeDiff);
      var pushed := PushNetwork(sent.value, recv.value);
      if !pushed {
        assert Histories() == rec.histories;
        return Err(IndexError);
      }
      rates := Ok(Rates(sent.value, recv.value));
      assert rec.rates == rates;
      assert Histories() == rec.histories;
    }

    /** The body of the `while self.running` loop of `update_data`. */
    method UpdateDataTick(r: Reading) returns (outcome: TickOutcome)
      modifies this
      ensures (State(), outcome) == Step(old(State()), r)
      ensures old(Valid()) ==> Valid()
    {
      ghost var before := State();
      var rates := RecordTick(r);
      if rates.Err? {
        outcome := Raised(rates.error);
      } else {
        prevNetIo := r.netIo;
        prevTime := r.time;
        outcome := Completed(rates.value);
      }
      if Bounded(before.histories) {
        StepKeepsBounded(before, r);
      }
    }

    /** The worker loop: one tick per reading, ending at the first exception. */
    method UpdateData(readings: seq<Reading>) returns (outcomes: seq<TickOutcome>)
      modifies this
      ensures old(Valid()) ==> Valid()
      ensures Run(old(State()), readings) == RunResult(State(), outcomes)
    {
      outcomes := [];
      var k := 0;
      while k < |readings|
        invariant 0 <= k <= |readings|
        invariant old(Valid()) ==> Valid()
        invariant var rest := Run(State(), readings[k..]);
          Run(old(State()), readings) == RunResult(rest.engine, outcomes + rest.outcomes)
      {
        ghost var before := State();
        ghost var done := outcomes;
        ghost var tail := readings[k + 1..];
        assert readings[k..] == [readings[k]] + tail;
        var o := UpdateDataTick(readings[k]);
        ghost var rest := Run(State(), tail);
        assert Run(before, readings[k..]) ==
          if o.Raised? then RunResult(State(), [o]) else RunResult(rest.engine, [o] + rest.outcomes)
        by {
          RunCons(before, readings[k], tail);
        }
        outcomes := outcomes + [o];
        k := k + 1;
        if o.Raised? {
          return;
        }
        AppendAssoc(done, [o], rest.outcomes);
      }
      assert readings[k..] == [];
    }
  }
}
