/** Go's 64-bit `int`: its range, two's-complement wrap-around of `+` and
    `-`, and `strconv.Atoi` on the digit strings the scanner hands it. */
module GoInt {
  import opened Results
  import opened Chars

  const MaxInt: int := 0x7FFF_FFFF_FFFF_FFFF
  const MinInt: int := -0x8000_0000_0000_0000
  const Modulus: int := 0x1_0000_0000_0000_0000

  predicate InRange(x: int) {
    MinInt <= x <= MaxInt
  }

  /** Go's `x + y` on `int`: the exact sum when it is in range, otherwise
      the sum wrapped around by one modulus (two's complement). */
  function Add(x: int, y: int): (r: int)
    requires InRange(x) && InRange(y)
    ensures InRange(r)
    ensures r == x + y || r == x + y - Modulus || r == x + y + Modulus
    ensures InRange(x + y) <==> r == x + y
  {
    var s := x + y;
    if s > MaxInt then s - Modulus else if s < MinInt then s + Modulus else s
  }

  /** Go's `x - y` on `int`. */
  function Sub(x: int, y: int): (r: int)
    requires InRange(x) && InRange(y)
    ensures InRange(r)
    ensures r == x - y || r == x - y - Modulus || r == x - y + Modulus
    ensures InRange(x - y) <==> r == x - y
  {
    var d := x - y;
    if d > MaxInt then d - Modulus else if d < MinInt then d + Modulus else d
  }

  /** `strconv.Atoi` of a string of decimal digits: the value when it fits
      in an `int`, a syntax error for the empty string and a range error
      beyond `MaxInt`. */
  function Atoi(s: string): (r: Result<int>)
    requires AllDigits(s)
    ensures r.Ok? <==> s != [] && DecimalValue(s) <= MaxInt
    ensures r.Ok? ==> r.value == DecimalValue(s)
    ensures r.Err? ==> r.error == (if s == [] then IntegerSyntax else IntegerRange)
  {
    if s == [] then Err(IntegerSyntax)
    else if DecimalValue(s) > MaxInt then Err(IntegerRange)
    else Ok(DecimalValue(s))
  }

  /** Atoi reads back every printed `int` that is not negative. */
  lemma AtoiRoundTrip(n: nat)
    requires n <= MaxInt
    ensures Atoi(DecimalString(n)) == Ok(n)
  {
    DecimalRoundTrip(n);
  }

  /** A run of at most 18 digits always fits (Atoi's fast path never fails). */
  lemma AtoiShortRun(s: string)
    requires AllDigits(s) && 0 < |s| <= 18
    ensures Atoi(s).Ok?
  {
    DecimalValueBound(s);
    Pow10Monotone(|s|, 18);
    assert Pow10(6) == 1_000_000;
    assert Pow10(12) == 1_000_000_000_000;
    assert Pow10(18) == 1_000_000_000_000_000_000;
  }

  lemma {:induction false} Pow10Monotone(j: nat, k: nat)
    requires j <= k
    ensures Pow10(j) <= Pow10(k)
  {
    if j < k {
      Pow10Monotone(j, k - 1);
    }
  }
}
