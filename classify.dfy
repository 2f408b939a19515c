/** The colour buckets and the bar length that the three front-ends derive from a percentage. */
module Classify {

  datatype Colour = Green | Yellow | Orange | Red

  /** How alarming a colour is: green, then yellow or orange, then red. */
  function Severity(c: Colour): nat
  {
    match c
    case Green => 0
    case Yellow => 1
    case Orange => 1
    case Red => 2
  }

  /** The rich GUI's dashboard gauge (`update_gauge`). */
  function GaugeColour(value: real): (c: Colour)
    ensures c == Green <==> value < 60.0
    ensures c == Orange <==> 60.0 <= value < 80.0
    ensures c == Red <==> 80.0 <= value
  {
    if value < 60.0 then Green else if value < 80.0 then Orange else Red
  }

  /** The terminal dashboard's colour for one core in `generate_cpu_table`. */
  function CpuColour(percentage: real): (c: Colour)
    ensures c == Green <==> percentage < 50.0
    ensures c == Yellow <==> 50.0 <= percentage < 80.0
    ensures c == Red <==> 80.0 <= percentage
  {
    if percentage < 50.0 then Green else if percentage < 80.0 then Yellow else Red
  }

  /** The terminal dashboard's colour for one partition in `generate_disk_table`. */
  function DiskColour(percent: real): (c: Colour)
    ensures c == Green <==> percent < 70.0
    ensures c == Yellow <==> 70.0 <= percent < 85.0
    ensures c == Red <==> 85.0 <= percent
  {
    if percent < 70.0 then Green else if percent < 85.0 then Yellow else Red
  }

  /** A higher reading never gets a less alarming colour, in any of the three rules. */
  lemma ColoursMonotone(v: real, w: real)
    requires v <= w
    ensures Severity(GaugeColour(v)) <= Severity(GaugeColour(w))
    ensures Severity(CpuColour(v)) <= Severity(CpuColour(w))
    ensures Severity(DiskColour(v)) <= Severity(DiskColour(w))
  {
  }

  /** The text repeated by the CPU bar as it stands in system_dashboard.py: the three
      characters U+00E2, U+2013 and U+02C6, which is the UTF-8 encoding of U+2588 (a full
      block) read back as Windows-1252. */
  const BLOCK: string := "\U{E2}\U{2013}\U{2C6}"

  /** The full block U+2588 the bar is evidently meant to draw. */
  const FULL_BLOCK: char := '\U{2588}'

  /** The number of repetitions, `int(percentage / 2)`: `int` truncates toward zero and
      repeating a string a non-positive number of times gives the empty string. */
  function Blocks(percentage: real): (n: nat)
    ensures percentage >= 0.0 ==> (n as real) <= percentage / 2.0 < (n as real) + 1.0
    ensures percentage < 0.0 ==> n == 0
  {
    if percentage < 0.0 then 0 else (percentage / 2.0).Floor
  }

  /** The bar as written: `Blocks(percentage)` copies of the three-character `BLOCK`. */
  function CpuBar(percentage: real): (bar: string)
    ensures |bar| == 3 * Blocks(percentage)
    ensures forall i :: 0 <= i < |bar| ==> bar[i] == BLOCK[i % 3]
  {
    var n := 3 * Blocks(percentage);
    seq(n, i requires 0 <= i < n => BLOCK[i % 3])
  }

  /** The bar as intended: one full block per repetition. */
  function IntendedCpuBar(percentage: real): (bar: string)
    ensures |bar| == Blocks(percentage)
    ensures forall i :: 0 <= i < |bar| ==> bar[i] == FULL_BLOCK
  {
    seq(Blocks(percentage), _ => FULL_BLOCK)
  }

  /** At 10% the bar as written has 15 characters, none of them a block, where five full
      blocks are meant. */
  lemma MisEncodedBarAtTenPercent()
    ensures |CpuBar(10.0)| == 15 && |IntendedCpuBar(10.0)| == 5
    ensures CpuBar(10.0)[..3] == BLOCK && FULL_BLOCK !in CpuBar(10.0)
  {
    assert Blocks(10.0) == 5;
    var bar := CpuBar(10.0);
    assert bar[..3] == BLOCK by {
      assert forall i :: 0 <= i < 3 ==> bar[..3][i] == BLOCK[i % 3];
    }
    forall i | 0 <= i < |bar|
      ensures bar[i] != FULL_BLOCK
    {
      assert bar[i] == BLOCK[i % 3];
    }
  }

  /** A reading within 0..100 repeats the text at most 50 times (150 characters as written,
      50 full blocks as intended), and a higher reading never draws a shorter bar. */
  lemma CpuBarBounds(v: real, w: real)
    requires 0.0 <= v <= w
    ensures w <= 100.0 ==> Blocks(w) <= 50 && |CpuBar(w)| <= 150 && |IntendedCpuBar(w)| <= 50
    ensures |CpuBar(v)| <= |CpuBar(w)| && |IntendedCpuBar(v)| <= |IntendedCpuBar(w)|
  {
    assert (Blocks(v) as real) <= v / 2.0 <= w / 2.0 < (Blocks(w) as real) + 1.0;
  }
}
