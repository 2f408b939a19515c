/** Cumulative network counters and the per-second rates derived from two readings of them.
    The rate is the plain difference over the elapsed time: a counter that went down gives a
    negative rate, and a zero elapsed time raises instead of producing a value. */
module Counters {
  import opened Errors

  /** The four counters of `psutil.net_io_counters()` that the monitors read. */
  datatype NetIo = NetIo(bytesSent: int, bytesRecv: int, packetsSent: int, packetsRecv: int)

  /** `(curr - prev) / time_diff`, where Python raises on a zero divisor. */
  function Rate(prev: int, curr: int, timeDiff: real): (r: Result<real>)
    ensures r.Err? <==> timeDiff == 0.0
    ensures r.Err? ==> r.error == ZeroDivisionError
    ensures r.Ok? ==> r.value * timeDiff == (curr - prev) as real
  {
    if timeDiff == 0.0 then Err(ZeroDivisionError) else Ok((curr - prev) as real / timeDiff)
  }

  /** No clamping: over a positive elapsed time the rate has the sign of the counter's change. */
  lemma RateHasSignOfDelta(prev: int, curr: int, timeDiff: real)
    requires timeDiff > 0.0
    ensures Rate(prev, curr, timeDiff).Ok?
    ensures Rate(prev, curr, timeDiff).value < 0.0 <==> curr < prev
    ensures Rate(prev, curr, timeDiff).value == 0.0 <==> curr == prev
  {
    var r := Rate(prev, curr, timeDiff).value;
    assert r * timeDiff == (curr - prev) as real;
    if r < 0.0 {
      assert r * timeDiff < 0.0;
    } else if r > 0.0 {
      assert r * timeDiff > 0.0;
    }
  }

  /** Three ticks one second apart with `bytes_sent` at 1000, 3000 and then 500 (a counter
      reset): the second rate is 2000 and the third is -2500, not 0. */
  lemma CounterResetGivesNegativeRate()
    ensures Rate(1000, 3000, 1.0) == Ok(2000.0)
    ensures Rate(3000, 500, 1.0) == Ok(-2500.0)
  {
  }

  /** The four per-second figures of the terminal dashboard's network table. */
  datatype NetworkRates = NetworkRates(
    bytesSentPerSec: real, bytesRecvPerSec: real, packetsSentPerSec: real, packetsRecvPerSec: real)

  /** The rates of `generate_network_table`: all four share one divisor, so they fail together. */
  function NetworkTable(prev: NetIo, curr: NetIo, timeDiff: real): (r: Result<NetworkRates>)
    ensures r.Err? <==> timeDiff == 0.0
    ensures r.Err? ==> r.error == ZeroDivisionError
    ensures r.Ok? ==> Rate(prev.bytesSent, curr.bytesSent, timeDiff) == Ok(r.value.bytesSentPerSec)
    ensures r.Ok? ==> Rate(prev.bytesRecv, curr.bytesRecv, timeDiff) == Ok(r.value.bytesRecvPerSec)
    ensures r.Ok? ==> Rate(prev.packetsSent, curr.packetsSent, timeDiff) == Ok(r.value.packetsSentPerSec)
    ensures r.Ok? ==> Rate(prev.packetsRecv, curr.packetsRecv, timeDiff) == Ok(r.value.packetsRecvPerSec)
  {
    var bytesSent := Rate(prev.bytesSent, curr.bytesSent, timeDiff);
    if bytesSent.Err? then Err(bytesSent.error)
    else
      var bytesRecv := Rate(prev.bytesRecv, curr.bytesRecv, timeDiff);
      var packetsSent := Rate(prev.packetsSent, curr.packetsSent, timeDiff);
      var packetsRecv := Rate(prev.packetsRecv, curr.packetsRecv, timeDiff);
      Ok(NetworkRates(bytesSent.value, bytesRecv.value, packetsSent.value, packetsRecv.value))
  }
}
