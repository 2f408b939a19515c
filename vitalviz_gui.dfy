/** The feature-rich GUI (`SystemMonitorGUI` of vitalviz_gui.py). Its worker loop catches every
    exception of a tick and goes on with the next one; a completed tick also runs the alert
    checks when notifications are available and enabled. */
module VitalVizGui {
  import opened Errors
  import opened Counters
  import opened History
  import opened Sampling
  import opened Alerts

  /** The state the worker loop reads and writes: the histories, the counters and clock of the
      last completed tick, and the two `cpu_notified` / `memory_notified` attributes. */
  datatype Engine = Engine(histories: Histories, prevNetIo: NetIo, prevTime: real, flags: AlertFlags)

  /** The state after one tick, how the tick ended, and the notifications it sent. */
  datatype TickResult = TickResult(engine: Engine, outcome: TickOutcome, sent: seq<Alert>)

  /** One pass of the `try` block of `update_data`, with `checking` standing for
      `NOTIFICATIONS_AVAILABLE and self.enable_notifications`. An exception (in the pushes, the
      rates or the mean of the alert check) keeps what was pushed and skips the update of
      `prev_net_io` and `prev_time`. */
  function Step(e: Engine, r: Reading, checking: bool): TickResult
  {
    var rec := Record(e.histories, r, e.prevNetIo, e.prevTime);
    var failed := e.(histories := rec.histories);
    match rec.rates
    case Err(error) => TickResult(failed, Raised(error), [])
    case Ok(rates) =>
      if !checking then TickResult(Engine(rec.histories, r.netIo, r.time, e.flags), Completed(rates), [])
      else
        match CheckThresholds(e.flags, r.cpuUsage, r.memoryPercent)
        case Err(error) => TickResult(failed, Raised(error), [])
        case Ok(c) => TickResult(Engine(rec.histories, r.netIo, r.time, c.flags), Completed(rates), c.sent)
  }

  /** A tick pushes what `Record` pushes, whether it completes or not. It advances
      `prev_net_io` and `prev_time` to its own values and updates the flags exactly when it
      completes; a tick that raised changes neither and sends nothing. */
  lemma StepAdvancesPrevOnlyOnCompletion(e: Engine, r: Reading, checking: bool)
    ensures var t := Step(e, r, checking);
      var rec := Record(e.histories, r, e.prevNetIo, e.prevTime);
      && t.engine.histories == rec.histories
      && (t.outcome.Completed? <==> rec.rates.Ok? && (checking ==> r.cpuUsage != []))
      && (t.outcome.Completed? ==> rec.rates == Ok(t.outcome.rates)
                                   && t.engine.prevNetIo == r.netIo && t.engine.prevTime == r.time)
      && (t.outcome.Raised? ==> t.engine.prevNetIo == e.prevNetIo && t.engine.prevTime == e.prevTime
                                && t.engine.flags == e.flags && t.sent == [])
  {
  }

  /** A tick keeps the histories bounded, whether it completed or raised. */
  lemma StepKeepsBounded(e: Engine, r: Reading, checking: bool)
    requires Bounded(e.histories)
    ensures Bounded(Step(e, r, checking).engine.histories)
  {
    RecordKeepsBounded(e.histories, r, e.prevNetIo, e.prevTime);
  }

  /** With the checks switched off, a tick neither changes the flags nor notifies. With them
      on, a completed tick sends the CPU alert exactly when the mean of the cores is above 90
      while `cpu_notified` is unset, and leaves `cpu_notified` set in that case. */
  lemma StepNotifiesOnRaiseOnly(e: Engine, r: Reading, checking: bool)
    ensures var t := Step(e, r, checking);
      && (!checking ==> t.engine.flags == e.flags && t.sent == [])
      && (CpuAlert in t.sent <==>
          checking && t.outcome.Completed? && !e.flags.cpuNotified && Mean(r.cpuUsage).value > CPU_RAISE_ABOVE)
      && (CpuAlert in t.sent ==> t.engine.flags.cpuNotified)
      && (MemoryAlert in t.sent <==>
          checking && t.outcome.Completed? && !e.flags.memoryNotified && r.memoryPercent > MEMORY_RAISE_ABOVE)
      && (MemoryAlert in t.sent ==> t.engine.flags.memoryNotified)
  {
    var rec := Record(e.histories, r, e.prevNetIo, e.prevTime);
    if rec.rates.Ok? && checking {
      CheckThresholdsIsHysteresis(e.flags, r.cpuUsage, r.memoryPercent);
      var c := CheckThresholds(e.flags, r.cpuUsage, r.memoryPercent);
      if c.Ok? {
        assert Step(e, r, checking) ==
          TickResult(Engine(rec.histories, r.netIo, r.time, c.value.flags), Completed(rec.rates.value), c.value.sent);
      }
    }
  }

  /** A tick whose clock did not advance is caught after the memory value was pushed: no
      network rates are pushed, and `prev_time` stays, so the next tick measures its elapsed
      time from the last completed one. */
  lemma ZeroElapsedIsCaught(e: Engine, r: Reading, checking: bool)
    requires |e.histories.networkSentHistory| == |e.histories.networkRecvHistory|
    requires |r.cpuUsage| <= |e.histories.cpuHistory| && r.time == e.prevTime
    ensures var t := Step(e, r, checking);
      && t.outcome == Raised(ZeroDivisionError)
      && t.engine.histories.memoryHistory == Push(e.histories.memoryHistory, r.memoryPercent)
      && t.engine.histories.networkSentHistory == e.histories.networkSentHistory
      && t.engine.histories.networkRecvHistory == e.histories.networkRecvHistory
      && t.engine.prevTime == e.prevTime && t.engine.prevNetIo == e.prevNetIo
  {
    RecordPushesInOrder(e.histories, r, e.prevNetIo, e.prevTime);
    StepAdvancesPrevOnlyOnCompletion(e, r, checking);
  }

  datatype RunResult = RunResult(engine: Engine, outcomes: seq<TickOutcome>, sent: seq<Alert>)

  function Run(e: Engine, rs: seq<Reading>, checking: bool): (res: RunResult)
    ensures |res.outcomes| == |rs|
    decreases |rs|
  {
    if rs == [] then RunResult(e, [], [])
    else
      var t := Step(e, rs[0], checking);
      var rest := Run(t.engine, rs[1..], checking);
      RunResult(rest.engine, [t.outcome] + rest.outcomes, t.sent + rest.sent)
  }

  lemma {:induction false} RunKeepsBounded(e: Engine, rs: seq<Reading>, checking: bool)
    requires Bounded(e.histories)
    ensures Bounded(Run(e, rs, checking).engine.histories)
    decreases |rs|
  {
    if rs != [] {
      StepKeepsBounded(e, rs[0], checking);
      RunKeepsBounded(Step(e, rs[0], checking).engine, rs[1..], checking);
    }
  }

  /** The notifications of a run, tick after tick. */
  function Flatten(ss: seq<seq<Alert>>): seq<Alert>
    decreases |ss|
  {
    if ss == [] then [] else ss[0] + Flatten(ss[1..])
  }

  /** Flattening after one more tick appends that tick's notifications. */
  lemma {:induction false} FlattenSnoc(ss: seq<seq<Alert>>, s: seq<Alert>)
    ensures Flatten(ss + [s]) == Flatten(ss) + s
    decreases |ss|
  {
    if ss == [] {
      assert [] + [s] == [s];
      assert [s][1..] == [];
    } else {
      FlattenSnoc(ss[1..], s);
      assert (ss + [s])[1..] == ss[1..] + [s];
      AppendAssoc(ss[0], Flatten(ss[1..]), s);
    }
  }

  /** A trace of engines, one tick apart, is what `Run` computes. */
  lemma {:induction false} TraceIsRun(engines: seq<Engine>, rs: seq<Reading>, outcomes: seq<TickOutcome>,
                                      sents: seq<seq<Alert>>, checking: bool)
    requires |engines| == |rs| + 1 && |outcomes| == |rs| && |sents| == |rs|
    requires forall j :: 0 <= j < |rs| ==>
      Step(engines[j], rs[j], checking) == TickResult(engines[j + 1], outcomes[j], sents[j])
    ensures Run(engines[0], rs, checking) == RunResult(engines[|rs|], outcomes, Flatten(sents))
    decreases |rs|
  {
    if rs != [] {
      TraceIsRun(engines[1..], rs[1..], outcomes[1..], sents[1..], checking);
      assert Step(engines[0], rs[0], checking) == TickResult(engines[1], outcomes[0], sents[0]);
      assert [outcomes[0]] + outcomes[1..] == outcomes;
    }
  }

  /** One data row of `export_to_csv`, before the `.2f` formatting. */
  datatype CsvRow = CsvRow(timestamp: string, cpuAvg: real, memory: real, netSend: real, netRecv: real)

  /** `sum(history[i] for history in cpu_data if i < len(history))`: the cores too short to
      have an item `i` add nothing. */
  function CoreSum(cpu: seq<seq<real>>, i: nat): real
    decreases |cpu|
  {
    if cpu == [] then 0.0
    else CoreSum(cpu[..|cpu| - 1], i) + (if i < |cpu[|cpu| - 1]| then cpu[|cpu| - 1][i] else 0.0)
  }

  /** `xs[i] if i < len(xs) else 0`. */
  function ValueAt(xs: seq<real>, i: nat): real
  {
    if i < |xs| then xs[i] else 0.0
  }

  /** Row `i`: the time point or, past the end of `time_points`, the current clock text; the
      core sum divided by the number of cores; the memory and network values or 0. */
  function CsvRowAt(h: Histories, i: nat, now: string): CsvRow
    requires h.cpuHistory != []
  {
    CsvRow(if i < |h.timePoints| then h.timePoints[i] else now,
           CoreSum(h.cpuHistory, i) / (|h.cpuHistory| as real),
           ValueAt(h.memoryHistory, i), ValueAt(h.networkSentHistory, i), ValueAt(h.networkRecvHistory, i))
  }

  /** Item `i` of every core, for cores that all have one. */
  function Column(cpu: seq<seq<real>>, i: nat): (col: seq<real>)
    requires forall j :: 0 <= j < |cpu| ==> i < |cpu[j]|
    ensures |col| == |cpu| && forall j :: 0 <= j < |cpu| ==> col[j] == cpu[j][i]
  {
    seq(|cpu|, j requires 0 <= j < |cpu| => cpu[j][i])
  }

  /** When every core has an item `i`, the core sum is the plain sum of that column. */
  lemma {:induction false} CoreSumOfFullColumn(cpu: seq<seq<real>>, i: nat)
    requires forall j :: 0 <= j < |cpu| ==> i < |cpu[j]|
    ensures CoreSum(cpu, i) == Sum(Column(cpu, i))
    decreases |cpu|
  {
    if cpu != [] {
      var front := cpu[..|cpu| - 1];
      CoreSumOfFullColumn(front, i);
      assert Column(cpu, i)[..|cpu| - 1] == Column(front, i);
    }
  }

  /** When every core has an item `i`, the exported CPU figure is the mean of those items, the
      same mean `check_thresholds` takes. */
  lemma FullColumnAverageIsMean(h: Histories, i: nat, now: string)
    requires h.cpuHistory != []
    requires forall j :: 0 <= j < |h.cpuHistory| ==> i < |h.cpuHistory[j]|
    ensures Mean(Column(h.cpuHistory, i)) == Ok(CsvRowAt(h, i, now).cpuAvg)
  {
    CoreSumOfFullColumn(h.cpuHistory, i);
  }

  /** Percentages stay percentages: every item between 0 and 100 gives a core sum between 0
      and 100 per core. */
  lemma {:induction false} CoreSumWithinPercent(cpu: seq<seq<real>>, i: nat)
    requires forall j, k :: 0 <= j < |cpu| && 0 <= k < |cpu[j]| ==> 0.0 <= cpu[j][k] <= 100.0
    ensures 0.0 <= CoreSum(cpu, i) <= 100.0 * (|cpu| as real)
    decreases |cpu|
  {
    if cpu != [] {
      CoreSumWithinPercent(cpu[..|cpu| - 1], i);
    }
  }

  /** ... so the exported CPU average lies between 0 and 100. */
  lemma CpuAverageWithinPercent(h: Histories, i: nat, now: string)
    requires h.cpuHistory != []
    requires forall j, k :: 0 <= j < |h.cpuHistory| && 0 <= k < |h.cpuHistory[j]| ==> 0.0 <= h.cpuHistory[j][k] <= 100.0
    ensures 0.0 <= CsvRowAt(h, i, now).cpuAvg <= 100.0
  {
    CoreSumWithinPercent(h.cpuHistory, i);
    var n := |h.cpuHistory| as real;
    var avg := CoreSum(h.cpuHistory, i) / n;
    assert avg * n == CoreSum(h.cpuHistory, i);
    if avg > 100.0 {
      assert avg * n > 100.0 * n;
    }
  }

  /** The divisor is the number of cores, not the number of cores with an item: a core whose
      list is shorter pulls the exported average down. */
  lemma ShortCoreCountsAsZero()
    ensures CsvRowAt(Histories(["12:00:00"], [[50.0], []], [40.0], [], []), 0, "12:00:05")
         == CsvRow("12:00:00", 25.0, 40.0, 0.0, 0.0)
  {
    var cpu: seq<seq<real>> := [[50.0], []];
    assert cpu[..1] == [[50.0]];
    assert cpu[..1][..0] == [];
    assert CoreSum(cpu[..1], 0) == 50.0;
    assert CoreSum(cpu, 0) == 50.0;
  }

  class SystemMonitorGui {
    var cpuHistory: seq<seq<real>>
    var memoryHistory: seq<real>
    var networkRecvHistory: seq<real>
    var networkSentHistory: seq<real>
    var timePoints: seq<string>
    var prevNetIo: NetIo
    var prevTime: real
    /** `hasattr(self, 'cpu_notified')` and `hasattr(self, 'memory_notified')`. */
    var cpuNotified: bool
    var memoryNotified: bool
    /** The settings; `max_history` is stored but the worker uses its own `MAX_HISTORY`. */
    var updateInterval: int
    var maxHistory: int
    var enableNotifications: bool
    /** `NOTIFICATIONS_AVAILABLE`, fixed by whether the notification library imported. */
    const notificationsAvailable: bool

    ghost function Histories(): Histories
      reads this`timePoints, this`cpuHistory, this`memoryHistory, this`networkSentHistory, this`networkRecvHistory
    {
      Sampling.Histories(timePoints, cpuHistory, memoryHistory, networkSentHistory, networkRecvHistory)
    }

    ghost function Flags(): AlertFlags
      reads this`cpuNotified, this`memoryNotified
    {
      AlertFlags(cpuNotified, memoryNotified)
    }

    ghost function State(): Engine
      reads this
    {
      Engine(Histories(), prevNetIo, prevTime, Flags())
    }

    ghost predicate Valid()
      reads this
    {
      Bounded(Histories())
    }

    /** Whether a completed tick runs `check_thresholds`. */
    predicate Checking()
      reads this`enableNotifications
    {
      notificationsAvailable && enableNotifications
    }

    /** `__init__`: the default settings, empty histories with one CPU list per core, the
        counters and clock read once, and neither alert attribute set. */
    constructor (coresAtStartup: nat, netIo: NetIo, time: real, notificationsAvailable: bool)
      ensures Valid()
      ensures State() == Engine(Initial(coresAtStartup), netIo, time, AlertFlags(false, false))
      ensures updateInterval == 1 && maxHistory == MAX_HISTORY && enableNotifications
      ensures this.notificationsAvailable == notificationsAvailable
    {
      updateInterval := 1;
      maxHistory := 60;
      enableNotifications := true;
      cpuHistory := seq(coresAtStartup, _ => []);
      memoryHistory := [];
      networkRecvHistory := [];
      networkSentHistory := [];
      timePoints := [];
      prevNetIo := netIo;
      prevTime := time;
      cpuNotified := false;
      memoryNotified := false;
      this.notificationsAvailable := notificationsAvailable;
    }

    /** `if len(self.time_points) >= MAX_HISTORY: pop(0)`, then `append`. */
    method PushTimePoint(clock: string)
      modifies this`timePoints
      ensures timePoints == Push(old(timePoints), clock)
    {
      if |timePoints| >= MAX_HISTORY {
        timePoints := timePoints[1..];
      }
      timePoints := timePoints + [clock];
    }

    /** The same bounded push on `memory_history`. */
    method PushMemory(percent: real)
      modifies this`memoryHistory
      ensures memoryHistory == Push(old(memoryHistory), percent)
    {
      if |memoryHistory| >= MAX_HISTORY {
        memoryHistory := memoryHistory[1..];
      }
      memoryHistory := memoryHistory + [percent];
    }

    /** `if len(network_sent_history) >= MAX_HISTORY`, both lists are popped, then both are
        appended; `ok` is false when the received list was empty, so that its `pop(0)` raised
        IndexError after the sent list had lost its oldest item. */
    method PushNetwork(sentPerSec: real, recvPerSec: real) returns (ok: bool)
      modifies this`networkSentHistory, this`networkRecvHistory
      ensures ok <==> !(|old(networkSentHistory)| >= MAX_HISTORY && old(networkRecvHistory) == [])
      ensures ok ==>
        (networkSentHistory, networkRecvHistory) ==
        PushPair(old(networkSentHistory), old(networkRecvHistory), sentPerSec, recvPerSec)
      ensures !ok ==> networkSentHistory == old(networkSentHistory)[1..] && networkRecvHistory == old(networkRecvHistory)
    {
      if |networkSentHistory| >= MAX_HISTORY {
        networkSentHistory := networkSentHistory[1..];
        if networkRecvHistory == [] {
          return false;
        }
        networkRecvHistory := networkRecvHistory[1..];
      }
      networkSentHistory := networkSentHistory + [sentPerSec];
      networkRecvHistory := networkRecvHistory + [recvPerSec];
      ok := true;
    }

    /** The pushes and rate derivation at the start of the `try` block. */
    method RecordTick(r: Reading) returns (rates: Result<Rates>)
      modifies this`timePoints, this`cpuHistory, this`memoryHistory
      modifies this`networkSentHistory, this`networkRecvHistory
      ensures Recorded(Histories(), rates) == Record(old(Histories()), r, prevNetIo, prevTime)
    {
      ghost var rec := Record(Histories(), r, prevNetIo, prevTime);
      var timeDiff := r.time - prevTime;
      PushTimePoint(r.clock);
      var cores, ok := AppendCoreUsage(cpuHistory, r.cpuUsage);
      cpuHistory := cores;
      assert timePoints == rec.histories.timePoints && cpuHistory == rec.histories.cpuHistory;
      if !ok {
        assert Histories() == rec.histories;
        return Err(IndexError);
      }
      PushMemory(r.memoryPercent);
      assert memoryHistory == rec.histories.memoryHistory;
      var sent := Rate(prevNetIo.bytesSent, r.netIo.bytesSent, timeDiff);
      if sent.Err? {
        assert Histories() == rec.histories;
        return Err(sent.error);
      }
      var recv := Rate(prevNetIo.bytesRecv, r.netIo.bytesRecv, timeDiff);
      var pushed := PushNetwork(sent.value, recv.value);
      if !pushed {
        assert Histories() == rec.histories;
        return Err(IndexError);
      }
      rates := Ok(Rates(sent.value, recv.value));
      assert rec.rates == rates;
      assert Histories() == rec.histories;
    }

    /** `check_thresholds`: the mean of the cores (raising on an empty list), then the CPU and
        the memory hysteresis, each setting or deleting its own attribute. The result lists the
        notifications sent, in order. */
    method CheckThresholds(cpuUsage: seq<real>, memoryPercent: real) returns (result: Result<seq<Alert>>)
      modifies this`cpuNotified, this`memoryNotified
      ensures var c := Alerts.CheckThresholds(old(Flags()), cpuUsage, memoryPercent);
        && (c.Err? ==> result == Err(c.error) && Flags() == old(Flags()))
        && (c.Ok? ==> result == Ok(c.value.sent) && Flags() == c.value.flags)
    {
      var avgCpu := Mean(cpuUsage);
      if avgCpu.Err? {
        return Err(avgCpu.error);
      }
      var cpuSent := [];
      if avgCpu.value > CPU_RAISE_ABOVE && !cpuNotified {
        cpuSent := [CpuAlert];
        cpuNotified := true;
      } else if avgCpu.value < CPU_CLEAR_BELOW && cpuNotified {
        cpuNotified := false;
      }
      var memorySent := [];
      if memoryPercent > MEMORY_RAISE_ABOVE && !memoryNotified {
        memorySent := [MemoryAlert];
        memoryNotified := true;
      } else if memoryPercent < MEMORY_CLEAR_BELOW && memoryNotified {
        memoryNotified := false;
      }
      result := Ok(cpuSent + memorySent);
    }

    /** One iteration of `while self.running`: the `try` block, its handler, and the alert
        checks when they are switched on. */
    method UpdateDataTick(r: Reading) returns (outcome: TickOutcome, sent: seq<Alert>)
      modifies this`timePoints, this`cpuHistory, this`memoryHistory
      modifies this`networkSentHistory, this`networkRecvHistory
      modifies this`prevNetIo, this`prevTime, this`cpuNotified, this`memoryNotified
      ensures TickResult(State(), outcome, sent) == Step(old(State()), r, Checking())
      ensures old(Valid()) ==> Valid()
    {
      ghost var before := State();
      if Bounded(before.histories) {
        StepKeepsBounded(before, r, Checking());
      }
      var rates := RecordTick(r);
      if rates.Err? {
        return Raised(rates.error), [];
      }
      sent := [];
      if notificationsAvailable && enableNotifications {
        var checked := CheckThresholds(r.cpuUsage, r.memoryPercent);
        if checked.Err? {
          return Raised(checked.error), [];
        }
        sent := checked.value;
      }
      prevNetIo := r.netIo;
      prevTime := r.time;
      outcome := Completed(rates.value);
    }

    /** The worker loop: one tick per reading, each exception caught and the loop continued. */
    method UpdateData(readings: seq<Reading>) returns (outcomes: seq<TickOutcome>, sent: seq<Alert>)
      modifies this`timePoints, this`cpuHistory, this`memoryHistory
      modifies this`networkSentHistory, this`networkRecvHistory
      modifies this`prevNetIo, this`prevTime, this`cpuNotified, this`memoryNotified
      ensures Run(old(State()), readings, Checking()) == RunResult(State(), outcomes, sent)
      ensures old(Valid()) ==> Valid()
    {
      outcomes := [];
      sent := [];
      ghost var checking := Checking();
      ghost var engines := [State()];
      ghost var sents: seq<seq<Alert>> := [];
      var k := 0;
      while k < |readings|
        invariant 0 <= k <= |readings|
        invariant old(Valid()) ==> Valid()
        invariant |engines| == k + 1 && |outcomes| == k && |sents| == k
        invariant engines[0] == old(State()) && engines[k] == State()
        invariant forall j :: 0 <= j < k ==>
          Step(engines[j], readings[j], checking) == TickResult(engines[j + 1], outcomes[j], sents[j])
        invariant sent == Flatten(sents)
      {
        var o, s := UpdateDataTick(readings[k]);
        FlattenSnoc(sents, s);
        outcomes := outcomes + [o];
        sent := sent + s;
        sents := sents + [s];
        engines := engines + [State()];
        k := k + 1;
      }
      TraceIsRun(engines, readings, outcomes, sents, checking);
    }

    /** The rows `export_to_csv` writes after the header, one per item of `memory_history`,
        with `now` standing for the clock text; with no core lists, the first row divides by
        zero and the export fails. */
    method ExportToCsv(now: string) returns (result: Result<seq<CsvRow>>)
      ensures result.Err? <==> memoryHistory != [] && cpuHistory == []
      ensures result.Err? ==> result.error == ZeroDivisionError
      ensures result.Ok? ==> |result.value| == |memoryHistory|
      ensures result.Ok? ==> forall i :: 0 <= i < |result.value| ==> result.value[i] == CsvRowAt(Histories(), i, now)
    {
      var rows := [];
      var i := 0;
      while i < |memoryHistory|
        invariant 0 <= i <= |memoryHistory|
        invariant i > 0 ==> cpuHistory != []
        invariant |rows| == i
        invariant forall j :: 0 <= j < i ==> rows[j] == CsvRowAt(Histories(), j, now)
      {
        var timestamp := if i < |timePoints| then timePoints[i] else now;
        if cpuHistory == [] {
          return Err(ZeroDivisionError);
        }
        var avgCpu := CoreSum(cpuHistory, i) / (|cpuHistory| as real);
        var memory := if i < |memoryHistory| then memoryHistory[i] else 0.0;
        var netSend := if i < |networkSentHistory| then networkSentHistory[i] else 0.0;
        var netRecv := if i < |networkRecvHistory| then networkRecvHistory[i] else 0.0;
        rows := rows + [CsvRow(timestamp, avgCpu, memory, netSend, netRecv)];
        i := i + 1;
      }
      result := Ok(rows);
    }

    /** `reset_graphs`: every history emptied, with one empty CPU list per core now reported;
        the counters, the clock and the alert attributes are kept. */
    method ResetGraphs(coreCount: nat)
      modifies this`timePoints, this`cpuHistory, this`memoryHistory
      modifies this`networkSentHistory, this`networkRecvHistory
      ensures Valid()
      ensures Histories() == Initial(coreCount)
      ensures prevNetIo == old(prevNetIo) && prevTime == old(prevTime) && Flags() == old(Flags())
    {
      cpuHistory := seq(coreCount, _ => []);
      memoryHistory := [];
      networkRecvHistory := [];
      networkSentHistory := [];
      timePoints := [];
    }

    /** `save_settings` of the settings dialog: the three values are stored; the histories and
        the capacity of 60 that the worker uses are untouched. */
    method SaveSettings(interval: int, history: int, notifications: bool)
      modifies this`updateInterval, this`maxHistory, this`enableNotifications
      ensures updateInterval == interval && maxHistory == history && enableNotifications == notifications
      ensures State() == old(State())
      ensures Checking() == (notificationsAvailable && notifications)
    {
      updateInterval := interval;
      maxHistory := history;
      enableNotifications := notifications;
    }
  }
}
