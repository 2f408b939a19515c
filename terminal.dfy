/** The terminal dashboard (system_dashboard.py): the partition filter of `get_disk_info` and
    the `prev_net_io`/`prev_time` bookkeeping of `main` around the network table. */
module Terminal {
  import opened Errors
  import opened Counters

  /** The three fields of a `psutil.disk_partitions()` entry that the dashboard reads. */
  datatype Partition = Partition(device: string, mountpoint: string, fstype: string)

  /** `psutil.disk_usage(mountpoint)`. */
  datatype DiskUsage = DiskUsage(total: int, used: int, free: int, percent: real)

  /** One dictionary of the list `get_disk_info` returns. */
  datatype DiskInfo = DiskInfo(device: string, mountpoint: string, fstype: string,
                               total: int, used: int, free: int, percent: real)

  /** `if partition.fstype:` — the empty string is the only false string. */
  predicate Typed(p: Partition)
  {
    p.fstype != ""
  }

  function Describe(p: Partition, u: DiskUsage): DiskInfo
  {
    DiskInfo(p.device, p.mountpoint, p.fstype, u.total, u.used, u.free, u.percent)
  }

  /** What `get_disk_info` returns for the partitions in provider order, `usageOf` standing for
      `psutil.disk_usage`. */
  function KeepTyped(ps: seq<Partition>, usageOf: string -> DiskUsage): seq<DiskInfo>
    decreases |ps|
  {
    if ps == [] then []
    else
      var p := ps[|ps| - 1];
      KeepTyped(ps[..|ps| - 1], usageOf) + (if Typed(p) then [Describe(p, usageOf(p.mountpoint))] else [])
  }

  /** The loop of `get_disk_info`, appending one dictionary per partition with a file system. */
  method GetDiskInfo(partitions: seq<Partition>, usageOf: string -> DiskUsage) returns (disks: seq<DiskInfo>)
    ensures disks == KeepTyped(partitions, usageOf)
  {
    disks := [];
    var i := 0;
    while i < |partitions|
      invariant 0 <= i <= |partitions|
      invariant disks == KeepTyped(partitions[..i], usageOf)
    {
      var partition := partitions[i];
      assert partitions[..i + 1][..i] == partitions[..i];
      if partition.fstype != "" {
        var usage := usageOf(partition.mountpoint);
        disks := disks + [Describe(partition, usage)];
      }
      i := i + 1;
    }
    assert partitions[..i] == partitions;
  }

  /** Filtering a concatenation filters each part and keeps their order. */
  lemma {:induction false} KeepTypedAppend(a: seq<Partition>, b: seq<Partition>, usageOf: string -> DiskUsage)
    ensures KeepTyped(a + b, usageOf) == KeepTyped(a, usageOf) + KeepTyped(b, usageOf)
    decreases |b|
  {
    if b == [] {
      assert a + b == a;
    } else {
      var b' := b[..|b| - 1];
      var p := b[|b| - 1];
      var tail := if Typed(p) then [Describe(p, usageOf(p.mountpoint))] else [];
      assert (a + b)[..|a + b| - 1] == a + b';
      assert (a + b)[|a + b| - 1] == p;
      KeepTypedAppend(a, b', usageOf);
      assert KeepTyped(a + b, usageOf) == (KeepTyped(a, usageOf) + KeepTyped(b', usageOf)) + tail;
      assert KeepTyped(b, usageOf) == KeepTyped(b', usageOf) + tail;
    }
  }

  /** A single partition is kept exactly when it has a file system type. */
  lemma KeepTypedSingle(p: Partition, usageOf: string -> DiskUsage)
    ensures KeepTyped([p], usageOf) == if Typed(p) then [Describe(p, usageOf(p.mountpoint))] else []
  {
    assert [p][..0] == [];
  }

  /** Every dictionary returned comes from a partition with a file system type, with that
      partition's fields and usage, and every such partition yields one. */
  lemma {:induction false} KeepTypedMembers(ps: seq<Partition>, usageOf: string -> DiskUsage, d: DiskInfo)
    ensures d in KeepTyped(ps, usageOf) <==>
      exists p :: p in ps && Typed(p) && d == Describe(p, usageOf(p.mountpoint))
    decreases |ps|
  {
    if ps != [] {
      var init := ps[..|ps| - 1];
      var p := ps[|ps| - 1];
      assert ps == init + [p];
      KeepTypedMembers(init, usageOf, d);
      if d in KeepTyped(ps, usageOf) && d !in KeepTyped(init, usageOf) {
        assert Typed(p) && d == Describe(p, usageOf(p.mountpoint));
      }
      if exists q :: q in ps && Typed(q) && d == Describe(q, usageOf(q.mountpoint)) {
        var q :| q in ps && Typed(q) && d == Describe(q, usageOf(q.mountpoint));
        if q != p {
          assert q in init;
        }
      }
    }
  }

  /** The result never has more entries than there are partitions, and only partitions without
      a file system type are dropped. */
  lemma {:induction false} KeepTypedLength(ps: seq<Partition>, usageOf: string -> DiskUsage)
    ensures |KeepTyped(ps, usageOf)| <= |ps|
    ensures |KeepTyped(ps, usageOf)| == |ps| <==> forall i :: 0 <= i < |ps| ==> Typed(ps[i])
    decreases |ps|
  {
    if ps != [] {
      var init := ps[..|ps| - 1];
      KeepTypedLength(init, usageOf);
      assert forall i :: 0 <= i < |init| ==> init[i] == ps[i];
    }
  }

  /** When every partition has a file system type, one dictionary per partition comes back, in
      order. */
  lemma {:induction false} AllTypedKeepsEvery(ps: seq<Partition>, usageOf: string -> DiskUsage)
    requires forall i :: 0 <= i < |ps| ==> Typed(ps[i])
    ensures |KeepTyped(ps, usageOf)| == |ps|
    ensures forall i :: 0 <= i < |ps| ==> KeepTyped(ps, usageOf)[i] == Describe(ps[i], usageOf(ps[i].mountpoint))
    decreases |ps|
  {
    if ps != [] {
      var init := ps[..|ps| - 1];
      assert forall i :: 0 <= i < |init| ==> init[i] == ps[i];
      AllTypedKeepsEvery(init, usageOf);
    }
  }

  /** One pass of the `while True` loop of `main`, as far as the network table is concerned. */
  datatype Sample = Sample(time: real, netIo: NetIo)

  /** The values `prev_time` and `prev_net_io` hold at iteration `k`: the start-up reading for
      the first pass, the previous pass's reading afterwards. */
  function Previous(initial: Sample, samples: seq<Sample>, k: nat): Sample
    requires k <= |samples|
  {
    if k == 0 then initial else samples[k - 1]
  }

  /** The network table pass `k` renders. */
  function TableAt(initial: Sample, samples: seq<Sample>, k: nat): Result<NetworkRates>
    requires k < |samples|
  {
    var prev := Previous(initial, samples, k);
    NetworkTable(prev.netIo, samples[k].netIo, samples[k].time - prev.time)
  }

  /** The loop of `main`: each pass computes `time_diff`, renders the network table and then
      makes the current reading the previous one. The rates of pass `k` are those between the
      reading before it and its own; the loop ends early exactly when a pass's clock did not
      advance, the uncaught ZeroDivisionError of `generate_network_table`. */
  method RunDashboard(initial: Sample, samples: seq<Sample>) returns (tables: seq<NetworkRates>, crashed: bool)
    ensures |tables| <= |samples|
    ensures crashed <==> |tables| < |samples|
    ensures forall k :: 0 <= k < |tables| ==> TableAt(initial, samples, k) == Ok(tables[k])
    ensures forall k :: 0 <= k < |tables| ==> samples[k].time != Previous(initial, samples, k).time
    ensures crashed ==> samples[|tables|].time == Previous(initial, samples, |tables|).time
  {
    var prevNetIo := initial.netIo;
    var prevTime := initial.time;
    tables := [];
    var k := 0;
    while k < |samples|
      invariant 0 <= k <= |samples| && |tables| == k
      invariant prevNetIo == Previous(initial, samples, k).netIo
      invariant prevTime == Previous(initial, samples, k).time
      invariant forall j :: 0 <= j < k ==> TableAt(initial, samples, j) == Ok(tables[j])
      invariant forall j :: 0 <= j < k ==> samples[j].time != Previous(initial, samples, j).time
    {
      var currentTime := samples[k].time;
      var timeDiff := currentTime - prevTime;
      var currentNetIo := samples[k].netIo;
      var table := NetworkTable(prevNetIo, currentNetIo, timeDiff);
      assert table == TableAt(initial, samples, k);
      if table.Err? {
        return tables, true;
      }
      tables := tables + [table.value];
      prevNetIo := currentNetIo;
      prevTime := currentTime;
      k := k + 1;
    }
    crashed := false;
  }
}
