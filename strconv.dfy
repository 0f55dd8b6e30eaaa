/**
 * The part of Go's `strconv` the socket layer relies on: `Itoa` renders a port as
 * decimal text for the connect commands, and `Atoi` reads the port segment of a
 * `host:port` string back into an integer.
 */
module Strconv {
  import opened Wrappers

  predicate IsDigit(c: char) {
    '0' <= c <= '9'
  }

  predicate AllDigits(s: string) {
    forall i | 0 <= i < |s| :: IsDigit(s[i])
  }

  /** Decimal text without superfluous leading zeros, as `Itoa` writes a natural number. */
  predicate Canonical(s: string) {
    |s| > 0 && AllDigits(s) && (s[0] == '0' ==> |s| == 1)
  }

  function DigitChar(d: nat): (c: char)
    requires d < 10
    ensures IsDigit(c) && (c - '0') as int == d
  {
    (d + '0' as int) as char
  }

  /** The value of a run of decimal digits, most significant digit first. */
  function DigitsValue(s: string): nat
    requires AllDigits(s)
    decreases |s|
  {
    if s == [] then 0 else DigitsValue(s[..|s| - 1]) * 10 + (s[|s| - 1] - '0') as int
  }

  /** The decimal digits of `n`, most significant first; "0" for zero. */
  function Digits(n: nat): (s: string)
    ensures Canonical(s)
    ensures s[0] == '0' <==> n == 0
    decreases n
  {
    if n < 10 then [DigitChar(n)] else Digits(n / 10) + [DigitChar(n % 10)]
  }

  /** `strconv.Itoa`: a leading '-' for negative numbers, then the decimal digits. */
  function Itoa(n: int): (s: string)
    ensures |s| > 0
    ensures forall i | 0 <= i < |s| :: IsDigit(s[i]) || (i == 0 && s[i] == '-')
  {
    if n < 0 then "-" + Digits(-n) else Digits(n)
  }

  /**
   * `strconv.Atoi`: an optional '+' or '-' followed by at least one decimal digit;
   * anything else (the empty text, a lone sign, any other character) is a syntax
   * error that names "Atoi" and the whole input.
   */
  function Atoi(s: string): (r: Result<int>)
    ensures r.Err? ==> r.error == NumSyntax("Atoi", s)
  {
    if |s| > 0 && (s[0] == '-' || s[0] == '+') then
      var digits := s[1..];
      if digits != [] && AllDigits(digits) then
        var v: int := DigitsValue(digits);
        Ok(if s[0] == '-' then -v else v)
      else
        Err(NumSyntax("Atoi", s))
    else if s != [] && AllDigits(s) then
      Ok(DigitsValue(s))
    else
      Err(NumSyntax("Atoi", s))
  }

  /** Reading back the digits that `Digits` wrote gives the number again. */
  lemma {:induction false} DigitsValueOfDigits(n: nat)
    ensures DigitsValue(Digits(n)) == n
    decreases n
  {
    var s := Digits(n);
    if n >= 10 {
      DigitsValueOfDigits(n / 10);
      assert s[..|s| - 1] == Digits(n / 10);
    }
  }

  /** A run of digits that does not start with '0' has a positive value. */
  lemma {:induction false} DigitsValuePositive(s: string)
    requires |s| > 0 && AllDigits(s) && s[0] != '0'
    ensures DigitsValue(s) >= 1
    decreases |s|
  {
    if |s| > 1 {
      DigitsValuePositive(s[..|s| - 1]);
    }
  }

  /** Writing out the value of canonical decimal text gives the text again. */
  lemma {:induction false} DigitsOfDigitsValue(s: string)
    requires Canonical(s)
    ensures Digits(DigitsValue(s)) == s
    decreases |s|
  {
    if |s| > 1 {
      var p := s[..|s| - 1];
      DigitsValuePositive(p);
      DigitsOfDigitsValue(p);
      var v := DigitsValue(s);
      assert v / 10 == DigitsValue(p) && v % 10 == (s[|s| - 1] - '0') as int;
      assert Digits(v) == p + [s[|s| - 1]];
    }
  }

  /** Round trip: `Atoi(Itoa(n))` succeeds with `n`, for every integer. */
  lemma AtoiItoa(n: int)
    ensures Atoi(Itoa(n)) == Ok(n)
  {
    var d := Digits(if n < 0 then -n else n);
    DigitsValueOfDigits(if n < 0 then -n else n);
    if n < 0 {
      assert Itoa(n)[1..] == d;
    }
  }

  /**
   * Round trip the other way: text in the form `Itoa` writes (canonical digits, with a
   * '-' in front only of a non-zero value) is accepted by `Atoi` and written back unchanged.
   */
  lemma ItoaAtoi(s: string)
    requires Canonical(s) || (|s| > 1 && s[0] == '-' && Canonical(s[1..]) && s[1] != '0')
    ensures Atoi(s).Ok? && Itoa(Atoi(s).value) == s
  {
    if Canonical(s) {
      DigitsOfDigitsValue(s);
    } else {
      var d := s[1..];
      DigitsValuePositive(d);
      DigitsOfDigitsValue(d);
      assert s == "-" + d;
    }
  }

  /** The text `Atoi` reads the digits from: the input without its one leading sign, if any. */
  function Unsigned(s: string): (d: string)
    ensures s == d || (|s| > 0 && (s[0] == '-' || s[0] == '+') && s == [s[0]] + d)
  {
    if |s| > 0 && (s[0] == '-' || s[0] == '+') then s[1..] else s
  }

  /**
   * Exactly the texts made of an optional '+' or '-' and then at least one decimal digit
   * are accepted: "", "+" and "-" are refused, while "+80", "0080" and "-0" are accepted.
   */
  lemma AtoiAccepts(s: string)
    ensures Atoi(s).Ok? <==> Unsigned(s) != [] && AllDigits(Unsigned(s))
  {
  }

  /** A '+' in front changes nothing: `Atoi("+80") == Atoi("80")`. */
  lemma AtoiPlusSign(d: string)
    requires d != [] && AllDigits(d)
    ensures Atoi("+" + d) == Atoi(d)
  {
  }

  /** A leading zero adds nothing to the value of a run of digits. */
  lemma {:induction false} DigitsValueLeadingZero(d: string)
    requires AllDigits(d)
    ensures AllDigits("0" + d) && DigitsValue("0" + d) == DigitsValue(d)
    decreases |d|
  {
    if d != [] {
      var init := d[..|d| - 1];
      DigitsValueLeadingZero(init);
      assert ("0" + d)[..|"0" + d| - 1] == "0" + init;
    }
  }

  /** Leading zeros change nothing: `Atoi("0080") == Atoi("80")`. */
  lemma AtoiLeadingZero(d: string)
    requires d != [] && AllDigits(d)
    ensures Atoi("0" + d) == Atoi(d)
  {
    DigitsValueLeadingZero(d);
  }

  /**
   * A character that is neither a digit nor a sign in front rejects the whole text,
   * so a non-numeric port never reaches the caller as a number.
   */
  lemma AtoiRejects(s: string, i: nat)
    requires i < |s| && !IsDigit(s[i])
    requires i == 0 ==> s[0] != '-' && s[0] != '+'
    ensures Atoi(s) == Err(NumSyntax("Atoi", s))
  {
  }
}
