/** Reading decimal numbers as atoi and strtol do, without the limits of a machine word. */
module Numbers {
  import opened Options

  predicate IsDigit(c: char) { '0' <= c <= '9' }

  /** isspace. */
  predicate IsSpace(c: char) { c == ' ' || '\t' <= c <= '\r' }

  function SkipSpaces(s: string): (r: string)
    ensures |r| <= |s| && (r != "" ==> !IsSpace(r[0]))
  {
    if s != "" && IsSpace(s[0]) then SkipSpaces(s[1..]) else s
  }

  /** The digits at the front of a text, read as a number after what has been read. */
  function DigitsValue(s: string, acc: nat): nat {
    if s == "" || !IsDigit(s[0]) then acc else DigitsValue(s[1..], 10 * acc + (s[0] as int - '0' as int))
  }

  /** White space, an optional sign, digits; whatever follows them does not matter. */
  function Atoi(s: string): int {
    var t := SkipSpaces(s);
    if t != "" && t[0] == '-' then 0 - DigitsValue(t[1..], 0)
    else if t != "" && t[0] == '+' then DigitsValue(t[1..], 0)
    else DigitsValue(t, 0)
  }

  predicate IsNumber(s: string) { s != "" && forall i :: 0 <= i < |s| ==> IsDigit(s[i]) }

  /** strtol, None unless there are digits and nothing follows them. */
  function Strtol(s: string): Option<int> {
    var t := SkipSpaces(s);
    var digits := if t != "" && (t[0] == '-' || t[0] == '+') then t[1..] else t;
    if IsNumber(digits) then Some(Atoi(s)) else None
  }

  function Decimal(n: nat): (s: string)
    ensures |s| > 0 && forall k :: 0 <= k < |s| ==> IsDigit(s[k])
  {
    if n < 10 then [('0' as int + n) as char] else Decimal(n / 10) + [('0' as int + n % 10) as char]
  }

  /** Reading on after the digits of n. */
  lemma {:induction false} Continues(n: nat, rest: string)
    ensures DigitsValue(Decimal(n) + rest, 0) == DigitsValue(rest, n)
  {
    if n < 10 {
      assert (Decimal(n) + rest)[1..] == rest;
    } else {
      var last := [('0' as int + n % 10) as char];
      assert Decimal(n) + rest == Decimal(n / 10) + (last + rest);
      Continues(n / 10, last + rest);
      assert (last + rest)[1..] == rest;
    }
  }

  /** A printed number is read back, alone or after a blank. */
  lemma DecimalReads(n: nat)
    ensures Atoi(Decimal(n)) == n && Atoi(" " + Decimal(n)) == n && Strtol(Decimal(n)) == Some(n)
  {
    Continues(n, "");
    assert Decimal(n) + "" == Decimal(n);
    assert (" " + Decimal(n))[1..] == Decimal(n);
    hide Decimal, DigitsValue;
    assert SkipSpaces(Decimal(n)) == Decimal(n) && SkipSpaces(" " + Decimal(n)) == Decimal(n);
  }

  /** So is one behind white space and a sign. */
  lemma SignedReads(n: nat, c: char)
    requires IsSpace(c)
    ensures Atoi([c] + "-" + Decimal(n)) == 0 - n && Strtol([c] + "-" + Decimal(n)) == Some(0 - n)
    ensures Atoi([c] + "+" + Decimal(n)) == n && Strtol([c] + "+" + Decimal(n)) == Some(n)
  {
    Continues(n, "");
    assert Decimal(n) + "" == Decimal(n);
    AfterSpace(c, "-" + Decimal(n));
    AfterSpace(c, "+" + Decimal(n));
    hide Decimal, DigitsValue;
  }

  lemma AfterSpace(c: char, s: string)
    requires IsSpace(c) && s != "" && !IsSpace(s[0])
    ensures SkipSpaces([c] + s) == s == ([c] + s)[1..]
    ensures [c] + [s[0]] + s[1..] == [c] + s
  {
  }

  /** What follows the digits is ignored by atoi and makes strtol's text no number. */
  lemma TrailingText(n: nat, c: char, rest: string)
    requires !IsDigit(c)
    ensures Atoi(Decimal(n) + ([c] + rest)) == n && Strtol(Decimal(n) + ([c] + rest)) == None
  {
    var front, tail := Decimal(n), [c] + rest;
    var s := front + tail;
    Continues(n, tail);
    NoMoreDigits(tail, n);
    hide Decimal, DigitsValue;
    assert s[0] == front[0] && s[|front|] == c;
    assert SkipSpaces(s) == s && IsDigit(s[0]);
    assert !IsDigit(s[|front|]);
  }

  lemma NoMoreDigits(s: string, acc: nat)
    requires s != "" && !IsDigit(s[0])
    ensures DigitsValue(s, acc) == acc
  {
  }
}
