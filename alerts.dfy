/** `check_thresholds` of the rich GUI: one "notified" flag per monitored quantity, raised with
    one notification when the value goes above its raise threshold and cleared, silently,
    only when the value goes below its clear threshold. */
module Alerts {
  import opened Errors

  /** The two `notify(title, message)` calls `check_thresholds` can make. */
  datatype Alert = CpuAlert | MemoryAlert

  const CPU_RAISE_ABOVE: real := 90.0
  const CPU_CLEAR_BELOW: real := 70.0
  const MEMORY_RAISE_ABOVE: real := 85.0
  const MEMORY_CLEAR_BELOW: real := 75.0

  /** The flag after one check, and whether that check sent a notification. */
  datatype Transition = Transition(notified: bool, emitted: bool)

  /** One `if v > raise and not notified: notify; set / elif v < clear and notified: delete`. */
  function Hysteresis(notified: bool, v: real, raiseAbove: real, clearBelow: real): (t: Transition)
    ensures t.emitted <==> !notified && t.notified
    ensures t.notified != notified ==> if notified then v < clearBelow else v > raiseAbove
    ensures !notified && v > raiseAbove ==> t.notified
    ensures notified && v < clearBelow ==> !t.notified
  {
    if v > raiseAbove && !notified then Transition(true, true)
    else if v < clearBelow && notified then Transition(false, false)
    else Transition(notified, false)
  }

  /** The flag after checking every value of `vs` in turn, starting from `notified`. */
  function FlagAfter(notified: bool, vs: seq<real>, raiseAbove: real, clearBelow: real): bool
    decreases |vs|
  {
    if vs == [] then notified
    else Hysteresis(FlagAfter(notified, vs[..|vs| - 1], raiseAbove, clearBelow), vs[|vs| - 1], raiseAbove, clearBelow).notified
  }

  /** Whether the check of `vs[i]` sent a notification. */
  function EmittedAt(notified: bool, vs: seq<real>, i: nat, raiseAbove: real, clearBelow: real): bool
    requires i < |vs|
  {
    Hysteresis(FlagAfter(notified, vs[..i], raiseAbove, clearBelow), vs[i], raiseAbove, clearBelow).emitted
  }

  lemma {:induction false} StaysNotified(notified: bool, vs: seq<real>, a: nat, b: nat, raiseAbove: real, clearBelow: real)
    requires a <= b <= |vs|
    requires FlagAfter(notified, vs[..a], raiseAbove, clearBelow)
    requires forall k :: a <= k < b ==> !(vs[k] < clearBelow)
    ensures FlagAfter(notified, vs[..b], raiseAbove, clearBelow)
    decreases b - a
  {
    if a < b {
      assert vs[..a + 1][..a] == vs[..a];
      assert vs[..a + 1][a] == vs[a];
      StaysNotified(notified, vs, a + 1, b, raiseAbove, clearBelow);
    }
  }

  /** Values that stay at or above the clear threshold never cause a second notification:
      between any two notifications some value fell below the clear threshold. */
  lemma NoRenotifyWithoutClear(notified: bool, vs: seq<real>, i: nat, j: nat, raiseAbove: real, clearBelow: real)
    requires i < j < |vs|
    requires EmittedAt(notified, vs, i, raiseAbove, clearBelow)
    requires EmittedAt(notified, vs, j, raiseAbove, clearBelow)
    ensures exists k :: i < k < j && vs[k] < clearBelow
  {
    if forall k :: i < k < j ==> !(vs[k] < clearBelow) {
      assert vs[..i + 1][..i] == vs[..i];
      assert vs[..i + 1][i] == vs[i];
      StaysNotified(notified, vs, i + 1, j, raiseAbove, clearBelow);
      assert false;
    }
  }

  /** Mean CPU readings 95, 85, 75, 65 with the CPU thresholds: one notification, for the
      first value; the flag stays set at 85 and 75 and is cleared only at 65. */
  lemma CpuHysteresisScenario()
    ensures var vs := [95.0, 85.0, 75.0, 65.0];
      && EmittedAt(false, vs, 0, CPU_RAISE_ABOVE, CPU_CLEAR_BELOW)
      && !EmittedAt(false, vs, 1, CPU_RAISE_ABOVE, CPU_CLEAR_BELOW)
      && !EmittedAt(false, vs, 2, CPU_RAISE_ABOVE, CPU_CLEAR_BELOW)
      && !EmittedAt(false, vs, 3, CPU_RAISE_ABOVE, CPU_CLEAR_BELOW)
      && FlagAfter(false, vs[..3], CPU_RAISE_ABOVE, CPU_CLEAR_BELOW)
      && !FlagAfter(false, vs, CPU_RAISE_ABOVE, CPU_CLEAR_BELOW)
  {
    var vs := [95.0, 85.0, 75.0, 65.0];
    assert vs[..0] == [];
    assert vs[..1][..0] == [];
    assert vs[..2][..1] == vs[..1];
    assert vs[..3][..2] == vs[..2];
    assert vs[..3] == vs[..|vs| - 1];
  }

  /** Python's `sum`, adding from the left. */
  function Sum(xs: seq<real>): real
    decreases |xs|
  {
    if xs == [] then 0.0 else Sum(xs[..|xs| - 1]) + xs[|xs| - 1]
  }

  /** `sum(cpu_usage) / len(cpu_usage)`, which raises on an empty list. */
  function Mean(xs: seq<real>): (r: Result<real>)
    ensures r.Err? <==> xs == []
    ensures r.Err? ==> r.error == ZeroDivisionError
    ensures r.Ok? ==> r.value * (|xs| as real) == Sum(xs)
  {
    if xs == [] then Err(ZeroDivisionError) else Ok(Sum(xs) / (|xs| as real))
  }

  lemma {:induction false} SumAtMost(xs: seq<real>, t: real)
    requires forall i :: 0 <= i < |xs| ==> xs[i] <= t
    ensures Sum(xs) <= (|xs| as real) * t
    decreases |xs|
  {
    if xs != [] {
      SumAtMost(xs[..|xs| - 1], t);
    }
  }

  /** A mean above a threshold needs some core above it. */
  lemma MeanAboveNeedsCoreAbove(xs: seq<real>, t: real)
    requires Mean(xs).Ok? && Mean(xs).value > t
    ensures exists i :: 0 <= i < |xs| && xs[i] > t
  {
    if forall i :: 0 <= i < |xs| ==> xs[i] <= t {
      SumAtMost(xs, t);
      assert false;
    }
  }

  /** The `cpu_notified` and `memory_notified` flags (set means the attribute exists). */
  datatype AlertFlags = AlertFlags(cpuNotified: bool, memoryNotified: bool)

  datatype Checked = Checked(flags: AlertFlags, sent: seq<Alert>)

  /** One call of `check_thresholds`: the CPU check on the mean of the cores, then the memory
      check, each on its own flag. An empty core list raises before either check. */
  function CheckThresholds(flags: AlertFlags, cpuUsage: seq<real>, memoryPercent: real): Result<Checked>
  {
    var avg := Mean(cpuUsage);
    if avg.Err? then Err(avg.error)
    else
      var cpu := Hysteresis(flags.cpuNotified, avg.value, CPU_RAISE_ABOVE, CPU_CLEAR_BELOW);
      var memory := Hysteresis(flags.memoryNotified, memoryPercent, MEMORY_RAISE_ABOVE, MEMORY_CLEAR_BELOW);
      Ok(Checked(AlertFlags(cpu.notified, memory.notified),
                 (if cpu.emitted then [CpuAlert] else []) + (if memory.emitted then [MemoryAlert] else [])))
  }

  /** A check raises ZeroDivisionError exactly when there are no cores, and otherwise moves each
      flag by its own hysteresis (the CPU flag on the mean of the cores), sending each alert
      exactly when its flag is raised, at most one of each. */
  lemma CheckThresholdsIsHysteresis(flags: AlertFlags, cpuUsage: seq<real>, memoryPercent: real)
    ensures var r := CheckThresholds(flags, cpuUsage, memoryPercent);
      && (r.Err? <==> cpuUsage == [])
      && (r.Err? ==> r.error == ZeroDivisionError)
      && (r.Ok? ==>
           var cpu := Hysteresis(flags.cpuNotified, Mean(cpuUsage).value, CPU_RAISE_ABOVE, CPU_CLEAR_BELOW);
           var memory := Hysteresis(flags.memoryNotified, memoryPercent, MEMORY_RAISE_ABOVE, MEMORY_CLEAR_BELOW);
           && r.value.flags == AlertFlags(cpu.notified, memory.notified)
           && (CpuAlert in r.value.sent <==> cpu.emitted)
           && (MemoryAlert in r.value.sent <==> memory.emitted)
           && |r.value.sent| <= 2)
  {
  }
}
