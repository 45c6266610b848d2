/** Go's `strconv.Itoa` and `strconv.Atoi` on 64-bit `int`: the service parses its PORT with
    the one and renders resource identifiers into upstream URLs with the other. */
module Strconv {
  import opened Wrappers
  import opened GoErrors

  const MinInt: int := -0x8000_0000_0000_0000
  const MaxInt: int := 0x7FFF_FFFF_FFFF_FFFF

  predicate IsDigit(c: char) { '0' <= c <= '9' }

  predicate AllDigits(s: string) { forall i :: 0 <= i < |s| ==> IsDigit(s[i]) }

  /** The value of a decimal digit string. */
  function DigitsValue(s: string): nat
    requires AllDigits(s)
  {
    if s == [] then 0 else DigitsValue(s[..|s| - 1]) * 10 + (s[|s| - 1] as int - '0' as int)
  }

  /** The decimal digits of a natural number, most significant first, without leading zeros. */
  function Digits(n: nat): (r: string)
    ensures |r| >= 1 && AllDigits(r)
  {
    if n < 10 then ['0' + n as char] else Digits(n / 10) + ['0' + (n % 10) as char]
  }

  /** `strconv.Itoa(n)`. */
  function Itoa(n: int): (r: string)
    ensures |r| >= 1
    ensures r[0] == '-' <==> n < 0
    ensures AllDigits(if n < 0 then r[1..] else r)
  {
    if n < 0 then "-" + Digits(-n) else Digits(n)
  }

  /** `strconv.Quote(s)`, without the escaping of special characters. */
  function Quote(s: string): string { "\"" + s + "\"" }

  /** The `*strconv.NumError` that Atoi returns: its message names the function and the
      input, and it unwraps to ErrSyntax or ErrRange. */
  function NumError(s: string, reason: Sentinel): GoError {
    Wrap("strconv.Atoi: parsing " + Quote(s) + ": ", SentinelError(reason))
  }

  /** The length of an optional leading '+' or '-'. */
  function SignLength(s: string): nat {
    if |s| > 0 && (s[0] == '+' || s[0] == '-') then 1 else 0
  }

  /** The text Atoi reads as a number: an optional sign, then one or more decimal digits. */
  predicate Numeral(s: string) {
    SignLength(s) < |s| && AllDigits(s[SignLength(s)..])
  }

  /** `strconv.Atoi(s)`: an optional sign followed by at least one decimal digit, whose value
      fits a 64-bit `int`. */
  function Atoi(s: string): (r: Result<int, GoError>)
    ensures r.Success? ==> MinInt <= r.value <= MaxInt
    ensures r.Failure? ==> IsError(r.error, ErrSyntax) || IsError(r.error, ErrRange)
    ensures r.Failure? && IsError(r.error, ErrSyntax) <==> !Numeral(s)
    ensures r.Failure? && IsError(r.error, ErrRange) ==> Numeral(s)
  {
    var unsigned := s[SignLength(s)..];
    if unsigned == [] || !AllDigits(unsigned) then Failure(NumError(s, ErrSyntax))
    else
      var v: int := if s[0] == '-' then -(DigitsValue(unsigned) as int) else DigitsValue(unsigned);
      if MinInt <= v <= MaxInt then Success(v) else Failure(NumError(s, ErrRange))
  }

  lemma {:induction false} DigitsValueOfDigits(n: nat)
    ensures DigitsValue(Digits(n)) == n
  {
    if n >= 10 {
      var prefix := Digits(n / 10);
      var r := Digits(n);
      assert r == prefix + ['0' + (n % 10) as char];
      assert r[..|r| - 1] == prefix;
      DigitsValueOfDigits(n / 10);
    }
  }

  /** Atoi reads back exactly what Itoa renders, for every 64-bit `int`. */
  lemma AtoiOfItoa(n: int)
    requires MinInt <= n <= MaxInt
    ensures Atoi(Itoa(n)) == Success(n)
  {
    var s := Itoa(n);
    if n < 0 {
      var d := Digits(-n);
      assert s == "-" + d;
      assert s[0] == '-' && s[1..] == d;
      DigitsValueOfDigits(-n);
      assert -(DigitsValue(d) as int) == n;
    } else {
      var d := Digits(n);
      assert s == d && IsDigit(s[0]);
      DigitsValueOfDigits(n);
    }
  }

  /** A numeral is read as its sign applied to its digits' value, and fails with a range error
      exactly when that value does not fit a 64-bit `int`. */
  lemma AtoiOfNumeral(s: string)
    requires Numeral(s)
    ensures var d := s[SignLength(s)..];
      var v := if s[0] == '-' then -(DigitsValue(d) as int) else DigitsValue(d) as int;
      Atoi(s) == if MinInt <= v <= MaxInt then Success(v) else Failure(NumError(s, ErrRange))
  {
  }

  /** Any text that is not a numeral fails with the syntax error naming that text. */
  lemma AtoiSyntaxError(s: string)
    requires !Numeral(s)
    ensures Atoi(s) == Failure(NumError(s, ErrSyntax))
  {
  }

  /** `k` zero digits. */
  function Zeros(k: nat): (r: string)
    ensures |r| == k && AllDigits(r)
  {
    seq(k, _ => '0')
  }

  lemma {:induction false} DigitsValueOfZeros(k: nat)
    ensures DigitsValue(Zeros(k)) == 0
  {
    if k > 0 {
      assert Zeros(k)[..k - 1] == Zeros(k - 1);
      DigitsValueOfZeros(k - 1);
    }
  }

  /** Leading zeros do not change the value of a digit string. */
  lemma {:induction false} DigitsValueLeadingZeros(k: nat, d: string)
    requires AllDigits(d)
    ensures AllDigits(Zeros(k) + d) && DigitsValue(Zeros(k) + d) == DigitsValue(d)
    decreases |d|
  {
    var z := Zeros(k) + d;
    if d == [] {
      assert z == Zeros(k);
      DigitsValueOfZeros(k);
    } else {
      assert z[..|z| - 1] == Zeros(k) + d[..|d| - 1];
      DigitsValueLeadingZeros(k, d[..|d| - 1]);
    }
  }

  /** A digit string read with no sign. */
  lemma AtoiOfUnsigned(u: string)
    requires |u| >= 1 && AllDigits(u)
    ensures DigitsValue(u) <= MaxInt ==> Atoi(u) == Success(DigitsValue(u))
  {
    assert IsDigit(u[0]);
  }

  /** A digit string read after a '+' or a '-'. */
  lemma AtoiAfterSign(c: char, u: string)
    requires c == '+' || c == '-'
    requires |u| >= 1 && AllDigits(u)
    ensures var v := if c == '-' then -(DigitsValue(u) as int) else DigitsValue(u) as int;
      MinInt <= v <= MaxInt ==> Atoi([c] + u) == Success(v)
  {
    var t := [c] + u;
    assert t[0] == c && t[1..] == u;
    AtoiOfNumeral(t);
  }

  /** Atoi accepts more than Itoa's renderings: a '+' sign and any number of leading zeros
      give the same value ("+80" and "0080" both read as 80). */
  lemma AtoiAcceptsPlusAndLeadingZeros(k: nat, n: int)
    requires 0 <= n <= MaxInt
    ensures Atoi(Zeros(k) + Itoa(n)) == Success(n)
    ensures Atoi("+" + Zeros(k) + Itoa(n)) == Success(n)
  {
    var d := Digits(n);
    assert Itoa(n) == d;
    DigitsValueOfDigits(n);
    DigitsValueLeadingZeros(k, d);
    var u := Zeros(k) + d;
    AtoiOfUnsigned(u);
    AtoiAfterSign('+', u);
    assert "+" + Zeros(k) + d == ['+'] + u;
  }

  /** Leading zeros after a '-' do not change the value either ("-007" reads as -7). */
  lemma AtoiAcceptsLeadingZerosAfterMinus(k: nat, n: int)
    requires MinInt <= n < 0
    ensures Atoi("-" + Zeros(k) + Digits(-n)) == Success(n)
  {
    var d := Digits(-n);
    DigitsValueOfDigits(-n);
    DigitsValueLeadingZeros(k, d);
    var u := Zeros(k) + d;
    assert DigitsValue(u) == -n;
    AtoiAfterSign('-', u);
    assert "-" + Zeros(k) + d == ['-'] + u;
  }

  /** A run of digits whose value exceeds the largest 64-bit `int` is a range error, not a
      syntax error. */
  lemma AtoiRangeError(d: string)
    requires |d| >= 1 && AllDigits(d) && DigitsValue(d) > MaxInt
    ensures Atoi(d) == Failure(NumError(d, ErrRange))
    ensures IsError(Atoi(d).error, ErrRange) && !IsError(Atoi(d).error, ErrSyntax)
  {
    assert IsDigit(d[0]);
  }
}
