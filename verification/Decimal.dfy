/** Decimal numerals, as JSON writes them: no sign, no leading zero. */
module Decimal {
  /** Bytes of a text; nothing depends on their being below 256. */
  type Byte = int
  type Bytes = seq<Byte>

  predicate IsDigit(b: Byte) { 48 <= b <= 57 }

  predicate AllDigits(ds: Bytes) { forall i :: 0 <= i < |ds| ==> IsDigit(ds[i]) }

  // Tenfold and Tenth are multiplication and division by ten, written without either.

  function Tenfold(n: nat): nat { n + n + n + n + n + n + n + n + n + n }

  function Tenth(n: nat): (q: nat)
    ensures Tenfold(q) <= n < Tenfold(q) + 10
  {
    if n < 10 then 0 else 1 + Tenth(n - 10)
  }

  /** The numeral of `n`. */
  function Print(n: nat): (ds: Bytes)
    ensures ds != [] && AllDigits(ds)
  {
    if n < 10 then [48 + n] else Print(Tenth(n)) + [48 + (n - Tenfold(Tenth(n)))]
  }

  /** The number a numeral denotes. */
  function Value(ds: Bytes): nat
    requires AllDigits(ds)
  {
    if ds == [] then 0 else Tenfold(Value(ds[..|ds| - 1])) + (ds[|ds| - 1] - 48)
  }

  /** Reading back a printed number gives it again. */
  lemma {:induction false} ValueOfPrint(n: nat)
    ensures Value(Print(n)) == n
  {
    if n < 10 {
      assert Print(n)[..0] == [];
    } else {
      ValueOfPrint(Tenth(n));
      assert Print(n)[..|Print(n)| - 1] == Print(Tenth(n));
    }
  }

  predicate IsNumeral(ds: Bytes) { ds != [] && AllDigits(ds) && (|ds| > 1 ==> ds[0] != 48) }

  lemma {:induction false} PrintIsNumeral(n: nat)
    ensures IsNumeral(Print(n)) && (n > 0 ==> Print(n)[0] != 48)
  {
    if n >= 10 { PrintIsNumeral(Tenth(n)); }
  }

  lemma {:induction false} NumeralIsPositive(ds: Bytes)
    requires AllDigits(ds) && ds != [] && ds[0] != 48
    ensures Value(ds) > 0
  {
    if |ds| > 1 { NumeralIsPositive(ds[..|ds| - 1]); }
  }

  lemma {:induction false} TenthOf(q: nat, d: nat)
    requires d < 10
    ensures Tenth(Tenfold(q) + d) == q
  {
    if q > 0 { TenthOf(q - 1, d); }
  }

  /** Printing the value of a numeral without leading zeros gives it again. */
  lemma {:induction false} PrintOfValue(ds: Bytes)
    requires IsNumeral(ds)
    ensures Print(Value(ds)) == ds
  {
    var init, d := ds[..|ds| - 1], ds[|ds| - 1] - 48;
    assert ds == init + [48 + d];
    if |ds| == 1 {
      assert Value(init) == 0;
    } else {
      NumeralIsPositive(init);
      PrintOfValue(init);
      TenthOf(Value(init), d);
    }
  }
}
