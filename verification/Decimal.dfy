/** Base-10 text of integers: what %d prints and what strconv.Atoi reads. */
module Decimal {
  import opened Machine
  import opened Wrappers

  predicate IsDigit(c: char) {
    '0' <= c <= '9'
  }

  predicate AllDigits(s: string) {
    forall i | 0 <= i < |s| :: IsDigit(s[i])
  }

  function Digit(d: nat): char
    requires d < 10
  {
    '0' + d as char
  }

  function Digits(n: nat): string {
    if n < 10 then [Digit(n)] else Digits(n / 10) + [Digit(n % 10)]
  }

  function Value(s: string): nat
    requires AllDigits(s)
  {
    if s == "" then 0 else 10 * Value(s[..|s| - 1]) + (s[|s| - 1] - '0') as nat
  }

  /** Printing and reading back is the identity, and prints only digits, at least one. */
  lemma {:induction false} DigitsRead(n: nat)
    ensures Digits(n) != "" && AllDigits(Digits(n)) && Value(Digits(n)) == n
  {
    if n < 10 {
      assert Digits(n)[..0] == "";
    } else {
      DigitsRead(n / 10);
      assert Digits(n)[..|Digits(n)| - 1] == Digits(n / 10);
    }
  }

  function Pow10(k: nat): nat {
    if k == 0 then 1 else 10 * Pow10(k - 1)
  }

  lemma {:induction false} DigitsLength(n: nat, k: nat)
    requires n < Pow10(k) && k > 0
    ensures |Digits(n)| <= k
  {
    if n >= 10 {
      DigitsLength(n / 10, k - 1);
    }
  }

  lemma Pow10Twenty()
    ensures Pow10(20) == 100_000_000_000_000_000_000
  {
    assert Pow10(5) == 100_000;
    assert Pow10(10) == 10_000_000_000;
    assert Pow10(15) == 1_000_000_000_000_000;
  }

  function Print(n: int): string {
    if n < 0 then "-" + Digits(-n) else Digits(n)
  }

  /** strconv.Atoi: an optional sign, at least one digit, nothing else, and a value that fits 64 bits. */
  function Atoi(s: string): (r: Option<int>)
    ensures r.Some? ==> FitsInt64(r.value)
  {
    var body := if s != "" && (s[0] == '-' || s[0] == '+') then s[1..] else s;
    if body == "" || !AllDigits(body) then None
    else
      var v: int := Value(body);
      var n := if s[0] == '-' then -v else v;
      if FitsInt64(n) then Some(n) else None
  }

  /** Atoi reads back what %d prints, for exactly the integers that fit 64 bits. */
  lemma AtoiPrintIff(n: int)
    ensures Atoi(Print(n)) == Some(n) <==> FitsInt64(n)
  {
    if n < 0 { AtoiNegative(n); } else { AtoiUnsigned(n); }
  }

  lemma AtoiUnsigned(n: nat)
    ensures Atoi(Digits(n)) == if FitsInt64(n) then Some(n) else None
  {
    DigitsRead(n);
    assert IsDigit(Digits(n)[0]);
  }

  lemma AtoiNegative(n: int)
    requires n < 0
    ensures Atoi("-" + Digits(-n)) == if FitsInt64(n) then Some(n) else None
  {
    DigitsRead(-n);
    assert ("-" + Digits(-n))[1..] == Digits(-n);
  }
}
