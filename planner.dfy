/**
 * Naming plan: how many digits name the zones (and the hosts of a zone), how
 * many digits name a shard directory, and how deep the shard tree is.
 * Python's floating-point `ceil(log10(n))` is modelled by its exact integer
 * value, and the `ValueError` that `log10` raises for `n <= 0` by a Failure.
 */
module Planner {
  import opened Wrappers
  import opened Numerals
  import opened Errors

  /** Largest number of entries the sharding aims to put in one directory. */
  const MaxFileInDir: nat := 100

  /**
   * Exact `ceil(log10(n))` for `n >= 1`: the least `d` with `n <= 10^d`.
   * It is 0 only for `n == 1`.
   */
  function DigitWidth(n: int): (d: nat)
    requires n >= 1
    ensures n <= Pow10(d)
    ensures d >= 1 ==> Pow10(d - 1) < n
    ensures d == 0 <==> n == 1
    decreases n
  {
    if n == 1 then 0 else 1 + DigitWidth((n + 9) / 10)
  }

  /** No narrower width holds `n`: the width is the least one. */
  lemma DigitWidthLeast(n: int, e: nat)
    requires n >= 1 && n <= Pow10(e)
    ensures DigitWidth(n) <= e
  {
  }

  /** `ceil(log10(n))` with its domain error. */
  function CeilLog10(n: int): (r: Result<nat, Error>)
    ensures r.Failure? <==> n <= 0
    ensures r.Failure? ==> r.error == MathDomainError
    ensures r.Success? ==> n <= Pow10(r.value) && (r.value >= 1 ==> Pow10(r.value - 1) < n)
  {
    if n <= 0 then Failure(MathDomainError) else Success(DigitWidth(n))
  }

  /**
   * `floor((digit - 1) / 2)`: the number of two-digit directory levels. It
   * leaves one or two digits to tell the zones of one leaf apart, and is -1
   * for the zero-width label of a single zone.
   */
  function Depth(digit: nat): (depth: int)
    ensures digit == 0 ==> depth == -1
    ensures digit >= 1 ==> 0 <= depth && 1 <= digit - 2 * depth <= 2
  {
    (digit - 1) / 2
  }

  /** `ceil(log10(MAX_FILE_IN_DIR))`. */
  function DirDigit(): nat {
    DigitWidth(MaxFileInDir)
  }

  /** Shard directory names are two digits wide. */
  lemma DirDigitIsTwo()
    ensures DirDigit() == 2
    ensures Pow10(DirDigit()) == MaxFileInDir
  {
  }

  /**
   * The label of index `i` among `n` (zones or hosts): a digit string whose
   * value is `i`; exactly `ceil(log10(n))` wide when `n >= 2`; `"0"` when `n == 1`.
   */
  lemma IndexLabel(n: int, i: nat)
    requires 1 <= n && i < n
    ensures AllDigits(Pad(i, DigitWidth(n))) && ValueOf(Pad(i, DigitWidth(n))) == i
    ensures n >= 2 ==> |Pad(i, DigitWidth(n))| == DigitWidth(n)
    ensures n == 1 ==> Pad(i, DigitWidth(n)) == "0"
  {
    PadRoundTrip(i, DigitWidth(n));
    if n >= 2 {
      PadWidth(i, DigitWidth(n));
    }
  }

  /** Distinct indices below `n` get distinct labels of one common length. */
  lemma IndexLabelsDistinct(n: int, i: nat, j: nat)
    requires 1 <= n && i < n && j < n && i != j
    ensures |Pad(i, DigitWidth(n))| == |Pad(j, DigitWidth(n))|
    ensures Pad(i, DigitWidth(n)) != Pad(j, DigitWidth(n))
  {
    IndexLabel(n, i);
    IndexLabel(n, j);
  }
}
