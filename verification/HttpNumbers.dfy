/** `std::stoi` as the parser uses it on a Content-Length: which strings it takes,
    and for which number. */
module HttpNumbers {
  import opened Options
  import opened HttpGrammar

  predicate Blanks(s: string) {
    forall i :: 0 <= i < |s| ==> s[i] in {' ', '\t', '\n', '\r', '\U{0B}', '\U{0C}'}
  }

  predicate Digits(s: string) {
    forall i :: 0 <= i < |s| ==> '0' <= s[i] <= '9'
  }

  /** The number that digits stand for, the last counting one. */
  function Number(d: string): nat
    requires Digits(d)
  {
    if d == "" then 0 else 10 * Number(d[..|d| - 1]) + (d[|d| - 1] as int - '0' as int)
  }

  /** `s` is blanks, perhaps a sign, digits, and then no digit. */
  ghost predicate Spells(s: string, blanks: string, sign: string, d: string, rest: string) {
    && s == blanks + (sign + (d + rest))
    && Blanks(blanks) && (sign == "" || sign == "+" || sign == "-")
    && Digits(d) && d != ""
    && (rest == "" || !('0' <= rest[0] <= '9'))
  }

  function Signed(sign: string, n: nat): int {
    if sign == "-" then -(n as int) else n
  }

  // ---------------------------------------------------------------- digits

  lemma {:induction false} LeadingSnoc(d: string, c: char, acc: nat)
    requires Digits(d) && IsDigit(c)
    ensures LeadingNumber(d + [c], acc) == 10 * LeadingNumber(d, acc) + DigitValue(c)
    decreases |d|
  {
    if d == "" {
      assert (d + [c])[1..] == "";
    } else {
      assert (d + [c])[1..] == d[1..] + [c];
      LeadingSnoc(d[1..], c, 10 * acc + DigitValue(d[0]));
    }
  }

  lemma {:induction false} LeadingIsNumber(d: string)
    requires Digits(d)
    ensures LeadingNumber(d, 0) == Number(d)
    decreases |d|
  {
    if d != "" {
      var n := |d| - 1;
      LeadingIsNumber(d[..n]);
      LeadingSnoc(d[..n], d[n], 0);
      assert d[..n] + [d[n]] == d;
    }
  }

  lemma {:induction false} LeadingStops(d: string, rest: string, acc: nat)
    requires Digits(d) && (rest == "" || !IsDigit(rest[0]))
    ensures LeadingNumber(d + rest, acc) == LeadingNumber(d, acc)
    decreases |d|
  {
    if d == "" {
      assert d + rest == rest;
    } else {
      assert (d + rest)[1..] == d[1..] + rest;
      LeadingStops(d[1..], rest, 10 * acc + DigitValue(d[0]));
    }
  }

  lemma {:induction false} TakeDigits(s: string) returns (d: string, rest: string)
    ensures s == d + rest && Digits(d) && (rest == "" || !IsDigit(rest[0]))
    ensures s != "" && IsDigit(s[0]) ==> d != ""
    decreases |s|
  {
    if s == "" || !IsDigit(s[0]) {
      d, rest := "", s;
    } else {
      d, rest := TakeDigits(s[1..]);
      assert s == [s[0]] + (d + rest);
      d := [s[0]] + d;
    }
  }

  // ---------------------------------------------------------------- blanks

  lemma BlankIff(c: char)
    ensures IsBlank(c) <==> c in {' ', '\t', '\n', '\r', '\U{0B}', '\U{0C}'}
  {
    assert c as int in {9, 10, 11, 12, 13} <==> 9 <= c as int <= 13;
  }

  lemma {:induction false} SkipsBlanks(w: string, t: string)
    requires Blanks(w) && (t == "" || !IsBlank(t[0]))
    ensures SkipBlanks(w + t) == t
    decreases |w|
  {
    if w == "" {
      assert w + t == t;
    } else {
      BlankIff(w[0]);
      assert (w + t)[1..] == w[1..] + t;
      SkipsBlanks(w[1..], t);
    }
  }

  lemma {:induction false} TakeBlanks(s: string) returns (w: string)
    ensures s == w + SkipBlanks(s) && Blanks(w)
    ensures SkipBlanks(s) == "" || !IsBlank(SkipBlanks(s)[0])
    decreases |s|
  {
    if s == "" || !IsBlank(s[0]) {
      w := "";
    } else {
      BlankIff(s[0]);
      var v := TakeBlanks(s[1..]);
      w := [s[0]] + v;
      assert s == [s[0]] + s[1..];
    }
  }

  // ---------------------------------------------------------------- the whole

  lemma DigitsFirst(sign: string, d: string, rest: string)
    requires Digits(d) && d != "" && (sign == "" || sign == "+" || sign == "-")
    ensures var t := sign + (d + rest); t != "" && !IsBlank(t[0])
    ensures var t := sign + (d + rest);
            && (sign == "" ==> t == d + rest && IsDigit(t[0]))
            && (sign != "" ==> t[0] == sign[0] && t[1..] == d + rest)
  {
    assert d[0] == (d + rest)[0];
  }

  lemma SpelledIsRead(s: string, blanks: string, sign: string, d: string, rest: string)
    requires Spells(s, blanks, sign, d, rest)
    ensures var v := Signed(sign, Number(d));
            StoI(s) == if INT_MIN <= v <= INT_MAX then Some(v) else None
  {
    DigitsFirst(sign, d, rest);
    SkipsBlanks(blanks, sign + (d + rest));
    LeadingStops(d, rest, 0);
    LeadingIsNumber(d);
    hide SkipBlanks, LeadingNumber, Number;
    assert (d + rest)[0] == d[0];
  }

  lemma ReadIsSpelled(s: string) returns (blanks: string, sign: string, d: string, rest: string)
    requires StoI(s).Some?
    ensures Spells(s, blanks, sign, d, rest)
  {
    hide LeadingNumber;
    blanks := TakeBlanks(s);
    var t := SkipBlanks(s);
    sign := if t[0] == '-' then "-" else if t[0] == '+' then "+" else "";
    var digits := if sign == "" then t else t[1..];
    d, rest := TakeDigits(digits);
    assert t == sign + digits;
  }

  /** `stoi` gives `v` exactly for blanks, perhaps a sign, digits that stand for
      `v`, and anything that does not begin with a digit, if `v` fits an int. */
  lemma StoIIff(s: string, v: int)
    ensures StoI(s) == Some(v) <==>
            && INT_MIN <= v <= INT_MAX
            && exists blanks, sign, d, rest :: Spells(s, blanks, sign, d, rest) && v == Signed(sign, Number(d))
  {
    hide StoI, Number;
    if StoI(s) == Some(v) {
      var blanks, sign, d, rest := ReadIsSpelled(s);
      SpelledIsRead(s, blanks, sign, d, rest);
    }
    forall blanks, sign, d, rest | Spells(s, blanks, sign, d, rest) && v == Signed(sign, Number(d)) && INT_MIN <= v <= INT_MAX
      ensures StoI(s) == Some(v)
    {
      SpelledIsRead(s, blanks, sign, d, rest);
    }
  }
}
