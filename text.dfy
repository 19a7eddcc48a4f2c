/** The string operations the scripts rely on, with Python's (or, where noted,
    JavaScript's) semantics: character classes, str.strip(), str.replace(c, ''),
    re.sub(r'\D', '', s), str(n), f"{n:02d}", int(s) and slicing. */
module Text {
  import opened Runtime

  predicate IsDigit(c: char) { '0' <= c <= '9' }

  predicate IsDigits(s: string) { forall i :: 0 <= i < |s| ==> IsDigit(s[i]) }

  predicate IsAlnumChar(c: char) { IsDigit(c) || ('a' <= c <= 'z') || ('A' <= c <= 'Z') }

  /** str.isalnum(): non-empty and every character a letter or a digit. */
  predicate IsAlnum(s: string) { |s| > 0 && forall i :: 0 <= i < |s| ==> IsAlnumChar(s[i]) }

  /** str.isspace() of one character: Python's set of whitespace code points. */
  predicate IsSpace(c: char) {
    ('\t' <= c <= '\r') || ('\U{1C}' <= c <= '\U{1F}') || c == ' ' || c == '\U{85}'
    || c == '\U{A0}' || c == '\U{1680}' || ('\U{2000}' <= c <= '\U{200A}')
    || c == '\U{2028}' || c == '\U{2029}' || c == '\U{202F}' || c == '\U{205F}'
    || c == '\U{3000}'
  }

  /** The no-break space the portal pads its cells with. */
  const Nbsp: char := '\U{A0}'

  // ---------------------------------------------------------------- strip

  function TrimLeft(s: string): (r: string)
    ensures |r| <= |s|
  {
    if s != [] && IsSpace(s[0]) then TrimLeft(s[1..]) else s
  }

  function TrimRight(s: string): (r: string)
    ensures |r| <= |s|
  {
    if s != [] && IsSpace(s[|s| - 1]) then TrimRight(s[..|s| - 1]) else s
  }

  /** lstrip() cuts off a whitespace prefix and stops at the first other character. */
  lemma {:induction false} TrimLeftShape(s: string)
    ensures var r := TrimLeft(s);
      r == s[|s| - |r|..] && (r != [] ==> !IsSpace(r[0]))
      && forall i :: 0 <= i < |s| - |r| ==> IsSpace(s[i])
  {
    if s != [] && IsSpace(s[0]) {
      TrimLeftShape(s[1..]);
    }
  }

  /** rstrip() cuts off a whitespace suffix and stops at the last other character. */
  lemma {:induction false} TrimRightShape(s: string)
    ensures var r := TrimRight(s);
      r == s[..|r|] && (r != [] ==> !IsSpace(r[|r| - 1]))
      && forall i :: |r| <= i < |s| ==> IsSpace(s[i])
  {
    if s != [] && IsSpace(s[|s| - 1]) {
      TrimRightShape(s[..|s| - 1]);
    }
  }

  /** str.strip() with no argument. */
  function Strip(s: string): string { TrimRight(TrimLeft(s)) }

  /** How many leading characters str.strip() cuts off. */
  function StripOffset(s: string): nat { |s| - |TrimLeft(s)| }

  /** What str.strip() promises: a contiguous piece of s, everything cut off is
      whitespace, and the piece neither starts nor ends with whitespace. */
  lemma StripShape(s: string)
    ensures var r, a := Strip(s), StripOffset(s);
      a + |r| <= |s| && r == s[a..a + |r|]
      && (forall i :: 0 <= i < a ==> IsSpace(s[i]))
      && (forall i :: a + |r| <= i < |s| ==> IsSpace(s[i]))
      && (r != [] ==> !IsSpace(r[0]) && !IsSpace(r[|r| - 1]))
  {
    var l := TrimLeft(s);
    var r := TrimRight(l);
    var a := |s| - |l|;
    TrimLeftShape(s);
    TrimRightShape(l);
    assert l == s[a..];
    assert r == l[..|r|];
    assert r == s[a..a + |r|];
    forall i | a + |r| <= i < |s|
      ensures IsSpace(s[i])
    {
      assert s[i] == l[i - a];
    }
    if r != [] {
      assert r[0] == l[0];
    }
  }

  /** Stripping a string that neither starts nor ends with whitespace changes nothing. */
  lemma StripNoEdgeSpace(s: string)
    requires s != [] ==> !IsSpace(s[0]) && !IsSpace(s[|s| - 1])
    ensures Strip(s) == s
  {
  }

  lemma {:induction false} StripIdempotent(s: string)
    ensures Strip(Strip(s)) == Strip(s)
  {
    StripShape(s);
    StripNoEdgeSpace(Strip(s));
  }

  // ------------------------------------------------------- deleting chars

  /** s.replace(c, ''): every occurrence of c deleted. */
  function Remove(s: string, c: char): (r: string)
    ensures |r| <= |s|
    ensures forall i :: 0 <= i < |r| ==> r[i] != c
    ensures forall i :: 0 <= i < |r| ==> r[i] in s
    ensures (forall i :: 0 <= i < |s| ==> s[i] != c) ==> r == s
  {
    if s == [] then [] else (if s[0] == c then [] else [s[0]]) + Remove(s[1..], c)
  }

  lemma {:induction false} RemoveAppend(a: string, b: string, c: char)
    ensures Remove(a + b, c) == Remove(a, c) + Remove(b, c)
  {
    if a == [] {
      assert a + b == b;
    } else {
      assert (a + b)[1..] == a[1..] + b;
      RemoveAppend(a[1..], b, c);
    }
  }

  lemma RemoveAbsent(s: string, c: char)
    requires c !in s
    ensures Remove(s, c) == s
  {
    forall i | 0 <= i < |s| ensures s[i] != c { assert s[i] in s; }
  }

  /** Deleting the one c between two strings without c joins them. */
  lemma RemoveBetween(a: string, b: string, c: char)
    requires c !in a && c !in b
    ensures Remove(a + [c] + b, c) == a + b
  {
    var x := a + [c];
    assert Remove(x + b, c) == Remove(x, c) + Remove(b, c) by {
      RemoveAppend(x, b, c);
    }
    assert Remove(x, c) == a by {
      RemoveAppend(a, [c], c);
      RemoveAbsent(a, c);
      assert Remove([c], c) == [] by {
        assert [c][1..] == [];
      }
      assert a + [] == a;
    }
    assert Remove(b, c) == b by {
      RemoveAbsent(b, c);
    }
  }

  /** re.sub(r'\D', '', s) (and JavaScript's s.replace(/\D/g, '')): only the digits, in order. */
  function KeepDigits(s: string): (r: string)
    ensures |r| <= |s|
    ensures IsDigits(r)
    ensures IsDigits(s) ==> r == s
  {
    if s == [] then [] else (if IsDigit(s[0]) then [s[0]] else []) + KeepDigits(s[1..])
  }

  lemma {:induction false} KeepDigitsAppend(a: string, b: string)
    ensures KeepDigits(a + b) == KeepDigits(a) + KeepDigits(b)
  {
    if a == [] {
      assert a + b == b;
    } else {
      assert (a + b)[1..] == a[1..] + b;
      KeepDigitsAppend(a[1..], b);
    }
  }

  /** Deleting the non-digits of two digit strings around one non-digit joins them. */
  lemma KeepDigitsBetween(a: string, c: char, b: string)
    requires IsDigits(a) && IsDigits(b) && !IsDigit(c)
    ensures KeepDigits(a + [c] + b) == a + b
  {
    var rest := [c] + b;
    assert a + [c] + b == a + rest;
    assert rest[1..] == b;
    KeepDigitsAppend(a, rest);
  }

  // ------------------------------------------------------ decimal numbers

  function DigitChar(d: nat): (c: char)
    requires d < 10
    ensures IsDigit(c)
  {
    ('0' as int + d) as char
  }

  function DigitValue(c: char): (d: nat)
    requires IsDigit(c)
    ensures d < 10 && DigitChar(d) == c
  {
    c as int - '0' as int
  }

  /** The number a string of decimal digits denotes. */
  function Value(s: string): nat
    requires IsDigits(s)
    decreases |s|
  {
    if s == [] then 0 else Value(s[..|s| - 1]) * 10 + DigitValue(s[|s| - 1])
  }

  /** str(n) for a non-negative int: its decimal digits without leading zeros. */
  function DecimalString(n: nat): (r: string)
    ensures IsDigits(r) && |r| > 0
    decreases n
  {
    if n < 10 then [DigitChar(n)] else DecimalString(n / 10) + [DigitChar(n % 10)]
  }

  /** f"{n:02d}": at least two digits, zero-padded on the left. */
  function Pad2(n: nat): (r: string)
    ensures IsDigits(r) && |r| >= 2
  {
    if n < 10 then "0" + DecimalString(n) else DecimalString(n)
  }

  lemma Pad2Length(n: nat)
    requires n < 100
    ensures |Pad2(n)| == 2
  {
    if n >= 10 {
      assert DecimalString(n) == DecimalString(n / 10) + [DigitChar(n % 10)];
    }
  }

  lemma {:induction false} ValueOfDecimal(n: nat)
    ensures Value(DecimalString(n)) == n
    decreases n
  {
    var r := DecimalString(n);
    if n >= 10 {
      ValueOfDecimal(n / 10);
      assert r[..|r| - 1] == DecimalString(n / 10);
    }
  }

  /** A digit string starting with '0' has the value of the string without it. */
  lemma {:induction false} ValueLeadingZero(s: string)
    requires IsDigits(s)
    ensures Value("0" + s) == Value(s)
    decreases |s|
  {
    var z := "0" + s;
    if s != [] {
      assert z[..|z| - 1] == "0" + s[..|s| - 1];
      ValueLeadingZero(s[..|s| - 1]);
    }
  }

  lemma ValueOfPad2(n: nat)
    ensures Value(Pad2(n)) == n
  {
    ValueOfDecimal(n);
    if n < 10 {
      ValueLeadingZero(DecimalString(n));
    }
  }

  /** str(n) has no leading zero unless n is 0, so it is the canonical spelling. */
  lemma {:induction false} DecimalNoLeadingZero(n: nat)
    ensures DecimalString(n)[0] == '0' <==> n == 0
    decreases n
  {
    if n >= 10 {
      DecimalNoLeadingZero(n / 10);
    }
  }

  // ------------------------------------------------------------- int(s)

  /** int(s) for a str: surrounding whitespace allowed, one optional sign, then
      at least one decimal digit; anything else raises ValueError (None here). */
  function ParseInt(s: string): (r: Option<int>)
  {
    var t := Strip(s);
    if |t| > 0 && (t[0] == '+' || t[0] == '-') then
      if |t| > 1 && IsDigits(t[1..]) then
        var v: int := Value(t[1..]);
        Some(if t[0] == '-' then -v else v)
      else None
    else if |t| > 0 && IsDigits(t) then Some(Value(t))
    else None
  }

  /** int() of a non-empty digit string is the number it spells. */
  lemma ParseIntDigits(d: string)
    requires |d| > 0 && IsDigits(d)
    ensures ParseInt(d) == Some(Value(d))
  {
    StripNoEdgeSpace(d);
    assert Strip(d) == d;
    assert d[0] != '+' && d[0] != '-';
  }

  /** int() reads back what str() and f"{n:02d}" write. */
  lemma ParseIntRoundTrip(n: nat)
    ensures ParseInt(DecimalString(n)) == Some(n)
    ensures ParseInt(Pad2(n)) == Some(n)
  {
    ParseIntDigits(DecimalString(n));
    ValueOfDecimal(n);
    ParseIntDigits(Pad2(n));
    ValueOfPad2(n);
  }

  // ------------------------------------------------------------- slicing

  /** s[:n] with Python's clamping. */
  function Take(s: string, n: nat): (r: string)
    ensures |r| == if n <= |s| then n else |s|
  {
    if n <= |s| then s[..n] else s
  }

  /** s[n:] with Python's clamping. */
  function Drop(s: string, n: nat): (r: string)
    ensures Take(s, n) + r == s
  {
    if n <= |s| then s[n..] else []
  }

  predicate StartsWith(s: string, prefix: string) { |prefix| <= |s| && s[..|prefix|] == prefix }
}
