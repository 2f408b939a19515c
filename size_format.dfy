/** `size_formatter`: divide by 1024 until the value is below 1024, trying the units B, KB,
    MB, GB and TB in turn, and fall back to PB. The `.2f` text formatting is not modelled:
    the result is the scaled value and its unit. */
module SizeFormat {

  datatype Unit = B | KB | MB | GB | TB | PB

  /** The units tried in the loop, in order; PB is the fall-back after it. */
  const UNITS: seq<Unit> := [B, KB, MB, GB, TB]

  function Pow1024(k: nat): (p: real)
    ensures p >= 1.0
  {
    if k == 0 then 1.0 else 1024.0 * Pow1024(k - 1)
  }

  /** The index (0 for B ... 5 for PB) of the first unit in which the value is below 1024. */
  function UnitIndex(v: real, k: nat): (n: nat)
    requires k <= 5
    ensures k <= n <= 5
    decreases 5 - k
  {
    if k == 5 || v / Pow1024(k) < 1024.0 then k else UnitIndex(v, k + 1)
  }

  function UnitAt(k: nat): Unit
    requires k <= 5
  {
    if k < 5 then UNITS[k] else PB
  }

  lemma DivideOnceMore(v: real, k: nat)
    ensures v / Pow1024(k) / 1024.0 == v / Pow1024(k + 1)
  {
    var p := Pow1024(k);
    assert Pow1024(k + 1) == 1024.0 * p;
    calc {
      v / Pow1024(k + 1);
      v / (1024.0 * p);
      { assert (v / p / 1024.0) * (1024.0 * p) == v; }
      v / p / 1024.0;
    }
  }

  /** The loop of `size_formatter`, dividing `bytes_value` by 1024 once per unit it skips. */
  method SizeFormatter(bytesValue: real) returns (value: real, unit: Unit)
    ensures unit == UnitAt(UnitIndex(bytesValue, 0))
    ensures value == bytesValue / Pow1024(UnitIndex(bytesValue, 0))
    ensures unit != PB ==> value < 1024.0
    ensures forall j: nat :: j < UnitIndex(bytesValue, 0) ==> bytesValue / Pow1024(j) >= 1024.0
  {
    value := bytesValue;
    var k: nat := 0;
    while k < |UNITS|
      invariant k <= 5
      invariant value == bytesValue / Pow1024(k)
      invariant UnitIndex(bytesValue, 0) == UnitIndex(bytesValue, k)
      invariant forall j: nat :: j < k ==> bytesValue / Pow1024(j) >= 1024.0
    {
      if value < 1024.0 {
        unit := UNITS[k];
        return;
      }
      DivideOnceMore(bytesValue, k);
      value := value / 1024.0;
      k := k + 1;
    }
    unit := PB;
  }

  /** Every value below 1024, negative rates included, is shown in bytes, unscaled. */
  lemma SmallValuesStayInBytes(v: real)
    requires v < 1024.0
    ensures UnitIndex(v, 0) == 0 && UnitAt(UnitIndex(v, 0)) == B
    ensures v / Pow1024(UnitIndex(v, 0)) == v
  {
  }

  lemma {:induction false} UnitIndexSkipsLarge(v: real, k: nat)
    requires k <= 5
    ensures forall j: nat :: k <= j < UnitIndex(v, k) ==> v / Pow1024(j) >= 1024.0
    ensures UnitIndex(v, k) < 5 ==> v / Pow1024(UnitIndex(v, k)) < 1024.0
    decreases 5 - k
  {
    if k < 5 && v / Pow1024(k) >= 1024.0 {
      UnitIndexSkipsLarge(v, k + 1);
    }
  }

  /** A value shown in KB, MB, GB or TB lies in [1, 1024) of that unit. */
  lemma ScaledValueInRange(v: real)
    requires 0 < UnitIndex(v, 0) < 5
    ensures 1.0 <= v / Pow1024(UnitIndex(v, 0)) < 1024.0
  {
    var k := UnitIndex(v, 0);
    UnitIndexSkipsLarge(v, 0);
    assert v / Pow1024(k - 1) >= 1024.0;
    DivideOnceMore(v, k - 1);
  }

  lemma DivideMonotone(v: real, w: real, p: real)
    requires v <= w && p > 0.0
    ensures v / p <= w / p
  {
    assert w / p - v / p == (w - v) / p;
  }

  /** A larger value never gets a smaller unit. */
  lemma {:induction false} UnitIndexMonotone(v: real, w: real, k: nat)
    requires v <= w && k <= 5
    ensures UnitIndex(v, k) <= UnitIndex(w, k)
    decreases 5 - k
  {
    if k < 5 {
      DivideMonotone(v, w, Pow1024(k));
      if v / Pow1024(k) >= 1024.0 {
        UnitIndexMonotone(v, w, k + 1);
      }
    }
  }
}
