/** The character classes and length measure the server's text checks use. */
module Text {
  import opened Options

  predicate IsControl(c: char) {
    c as int < 0x20 || 0x7F <= c as int < 0xA0
  }

  predicate IsWhitespace(c: char) {
    var n := c as int;
    || 9 <= n <= 13 || n == 0x20 || n == 0x85 || n == 0xA0 || n == 0x1680
    || 0x2000 <= n <= 0x200A || n == 0x2028 || n == 0x2029 || n == 0x202F || n == 0x205F || n == 0x3000
  }

  /** Length in UTF-8 bytes. */
  function Utf8Len(s: string): nat {
    if s == [] then 0
    else
      var n := s[0] as int;
      (if n < 0x80 then 1 else if n < 0x800 then 2 else if n < 0x10000 then 3 else 4) + Utf8Len(s[1..])
  }

  /** Length adds up character by character: one to four bytes each. */
  lemma {:induction false} Utf8LenAdds(a: string, b: string, c: char)
    ensures Utf8Len(a + b) == Utf8Len(a) + Utf8Len(b)
    ensures Utf8Len("") == 0
    ensures c as int <= 0x7F ==> Utf8Len([c]) == 1
    ensures 0x80 <= c as int <= 0x7FF ==> Utf8Len([c]) == 2
    ensures 0x800 <= c as int <= 0xFFFF ==> Utf8Len([c]) == 3
    ensures 0x10000 <= c as int ==> Utf8Len([c]) == 4
  {
    if a == [] {
      assert a + b == b;
    } else {
      assert (a + b)[1..] == a[1..] + b;
      Utf8LenAdds(a[1..], b, c);
    }
  }

  lemma {:induction false} Utf8LenBound(s: string)
    ensures Utf8Len(s) <= 4 * |s|
  {
    if s != [] {
      Utf8LenBound(s[1..]);
    }
  }

  predicate ValidText(value: string, maxLen: nat, allowEmpty: bool) {
    && (allowEmpty || exists i :: 0 <= i < |value| && !IsWhitespace(value[i]))
    && Utf8Len(value) <= maxLen
    && forall i :: 0 <= i < |value| ==> !IsControl(value[i])
  }

  /** Drop leading whitespace. */
  function TrimStart(s: string): string {
    if s != [] && IsWhitespace(s[0]) then TrimStart(s[1..]) else s
  }

  /** Drop trailing whitespace. */
  function TrimEnd(s: string): string {
    if s != [] && IsWhitespace(s[|s| - 1]) then TrimEnd(s[..|s| - 1]) else s
  }

  function Trim(s: string): string {
    TrimEnd(TrimStart(s))
  }

  /** The pieces between occurrences of `c`; there is always at least one. */
  function Split(s: string, c: char): (pieces: seq<string>)
    ensures |pieces| >= 1
  {
    if s == [] then [[]]
    else
      var rest := Split(s[1..], c);
      if s[0] == c then [[]] + rest else [[s[0]] + rest[0]] + rest[1..]
  }

  lemma {:induction false} SplitJoin(a: string, c: char, b: string)
    ensures Split(a + [c] + b, c) == Split(a, c) + Split(b, c)
  {
    if a == [] {
      assert a + [c] + b == [c] + b;
      assert ([c] + b)[1..] == b;
    } else {
      assert (a + [c] + b)[1..] == a[1..] + [c] + b;
      SplitJoin(a[1..], c, b);
    }
  }

  lemma {:induction false} SplitWhole(s: string, c: char)
    requires c !in s
    ensures Split(s, c) == [s]
  {
    if s != [] {
      assert s[0] in s && forall x :: x in s[1..] ==> x in s;
      SplitWhole(s[1..], c);
      assert s == [s[0]] + s[1..];
    }
  }

  ghost predicate AllBlank(s: string) {
    forall i :: 0 <= i < |s| ==> IsWhitespace(s[i])
  }

  lemma {:induction false} TrimStartTakes(s: string) returns (front: string)
    ensures AllBlank(front) && s == front + TrimStart(s)
    ensures TrimStart(s) != [] ==> !IsWhitespace(TrimStart(s)[0])
  {
    front := [];
    if s != [] && IsWhitespace(s[0]) {
      var rest := TrimStartTakes(s[1..]);
      front := [s[0]] + rest;
      assert s == [s[0]] + s[1..];
    }
  }

  lemma {:induction false} TrimEndTakes(s: string) returns (back: string)
    ensures AllBlank(back) && s == TrimEnd(s) + back
    ensures TrimEnd(s) != [] ==> !IsWhitespace(TrimEnd(s)[|TrimEnd(s)| - 1])
  {
    back := [];
    if s != [] && IsWhitespace(s[|s| - 1]) {
      var rest := TrimEndTakes(s[..|s| - 1]);
      back := rest + [s[|s| - 1]];
      assert s == s[..|s| - 1] + [s[|s| - 1]];
    }
  }

  /** Trimming takes blanks off both ends, and all of them. */
  lemma TrimTakesBlanks(s: string) returns (front: string, back: string)
    ensures AllBlank(front) && AllBlank(back) && s == front + Trim(s) + back
    ensures Trim(s) != [] ==> !IsWhitespace(Trim(s)[0]) && !IsWhitespace(Trim(s)[|Trim(s)| - 1])
  {
    front := TrimStartTakes(s);
    back := TrimEndTakes(TrimStart(s));
    if Trim(s) != [] {
      assert TrimStart(s)[0] == Trim(s)[0];
    }
  }

  /** No character is whitespace or control. */
  ghost predicate Clean(s: string) {
    forall i :: 0 <= i < |s| ==> !IsWhitespace(s[i]) && !IsControl(s[i])
  }

  lemma TrimClean(s: string)
    requires Clean(s)
    ensures Trim(s) == s
  {}

  /** Split around the first occurrence of `sep`. */
  function SplitOnce(s: string, sep: string): Option<(string, string)> {
    if sep <= s then Some(([], s[|sep|..]))
    else if s == [] then None
    else
      var r := SplitOnce(s[1..], sep);
      if r.None? then None else Some(([s[0]] + r.value.0, r.value.1))
  }

  /** Split around the last occurrence of `c`. */
  function RSplitOnce(s: string, c: char): Option<(string, string)> {
    if s == [] then None
    else if s[|s| - 1] == c then Some((s[..|s| - 1], []))
    else
      var r := RSplitOnce(s[..|s| - 1], c);
      if r.None? then None else Some((r.value.0, r.value.1 + [s[|s| - 1]]))
  }

  /** The text before the first `c`, or all of it. */
  function Before(s: string, c: char): string {
    if s == [] || s[0] == c then [] else [s[0]] + Before(s[1..], c)
  }

  lemma {:induction false} SplitOnceFinds(a: string, sep: string, b: string)
    requires sep != [] && sep[0] !in a
    ensures SplitOnce(a + sep + b, sep) == Some((a, b))
  {
    if a == [] {
      assert a + sep + b == sep + b;
    } else {
      assert (a + sep + b)[0] == a[0] && a[0] in a;
      assert !(sep <= a + sep + b);
      assert (a + sep + b)[1..] == a[1..] + sep + b;
      assert forall c :: c in a[1..] ==> c in a;
      SplitOnceFinds(a[1..], sep, b);
      assert [a[0]] + a[1..] == a;
    }
  }

  lemma {:induction false} SplitOnceSplits(s: string, c: char)
    ensures SplitOnce(s, [c]).None? <==> c !in s
    ensures SplitOnce(s, [c]).Some? ==>
              var (a, b) := SplitOnce(s, [c]).value;
              s == a + [c] + b && c !in a
  {
    if !([c] <= s) && s != [] {
      SplitOnceSplits(s[1..], c);
      assert s[0] != c;
      assert s == [s[0]] + s[1..];
    } else if s != [] {
      assert s == [c] + s[1..];
    }
  }

  lemma {:induction false} RSplitOnceFinds(a: string, c: char, b: string)
    requires c !in b
    ensures RSplitOnce(a + [c] + b, c) == Some((a, b))
  {
    var s := a + [c] + b;
    if b == [] {
      assert s[..|s| - 1] == a;
    } else {
      assert s[|s| - 1] == b[|b| - 1] && b[|b| - 1] in b;
      assert s[..|s| - 1] == a + [c] + b[..|b| - 1];
      assert forall x :: x in b[..|b| - 1] ==> x in b;
      RSplitOnceFinds(a, c, b[..|b| - 1]);
      assert b[..|b| - 1] + [b[|b| - 1]] == b;
    }
  }

  lemma {:induction false} BeforeStops(a: string, c: char, b: string)
    requires c !in a && (b == [] || b[0] == c)
    ensures Before(a + b, c) == a
  {
    if a == [] {
      assert a + b == b;
    } else {
      assert (a + b)[0] == a[0] && a[0] in a;
      assert (a + b)[1..] == a[1..] + b;
      assert forall x :: x in a[1..] ==> x in a;
      BeforeStops(a[1..], c, b);
    }
  }

  lemma {:induction false} BeforeIsPrefix(s: string, c: char)
    ensures Before(s, c) <= s && c !in Before(s, c)
  {
    if s != [] && s[0] != c {
      BeforeIsPrefix(s[1..], c);
    }
  }

  // ----- Decimal numbers -----

  predicate IsDigit(c: char) {
    '0' <= c <= '9'
  }

  predicate AllDigits(s: string) {
    forall i :: 0 <= i < |s| ==> IsDigit(s[i])
  }

  function Digit(n: nat): char
    requires n < 10
  {
    '0' + n as char
  }

  function Value(s: string): nat
    requires AllDigits(s)
  {
    if s == [] then 0 else Value(s[..|s| - 1]) * 10 + (s[|s| - 1] as int - '0' as int)
  }

  function Decimal(n: nat): string {
    if n < 10 then [Digit(n)] else Decimal(n / 10) + [Digit(n % 10)]
  }

  lemma {:induction false} DecimalValue(n: nat)
    ensures Decimal(n) != [] && AllDigits(Decimal(n)) && Value(Decimal(n)) == n
  {
    if n >= 10 {
      DecimalValue(n / 10);
      var s := Decimal(n);
      assert s[..|s| - 1] == Decimal(n / 10);
    }
  }

  /** A 16-bit unsigned number: an optional plus sign, then digits, not exceeding 65535. */
  function ParseU16(s: string): Option<nat> {
    var digits := if s != [] && s[0] == '+' then s[1..] else s;
    if digits != [] && AllDigits(digits) && Value(digits) <= 0xFFFF then Some(Value(digits)) else None
  }

  lemma DecimalRoundTrip(n: nat)
    requires n <= 0xFFFF
    ensures ParseU16(Decimal(n)) == Some(n)
  {
    DecimalValue(n);
    assert IsDigit(Decimal(n)[0]);
  }

  function Zeros(n: nat): string {
    seq(n, i => '0')
  }

  lemma {:induction false} ZerosAreNothing(n: nat)
    ensures AllDigits(Zeros(n)) && Value(Zeros(n)) == 0
  {
    if n > 0 {
      assert Zeros(n)[..n - 1] == Zeros(n - 1);
      ZerosAreNothing(n - 1);
    }
  }

  lemma {:induction false} PaddedValue(z: nat, n: nat)
    ensures AllDigits(Zeros(z) + Decimal(n)) && Value(Zeros(z) + Decimal(n)) == n
  {
    DecimalValue(n);
    ZerosAreNothing(z);
    var s := Zeros(z) + Decimal(n);
    if n < 10 {
      assert s[..|s| - 1] == Zeros(z);
    } else {
      assert s[..|s| - 1] == Zeros(z) + Decimal(n / 10);
      PaddedValue(z, n / 10);
    }
  }

  lemma {:induction false} DigitsArePadded(s: string) returns (z: nat)
    requires s != [] && AllDigits(s)
    ensures s == Zeros(z) + Decimal(Value(s))
  {
    var front, last := s[..|s| - 1], s[|s| - 1];
    assert s == front + [last];
    if front == [] {
      z := 0;
    } else {
      z := DigitsArePadded(front);
      if Value(front) == 0 {
        z := z + 1;
        assert front == Zeros(z);
      } else {
        assert Decimal(Value(s)) == Decimal(Value(front)) + [last];
      }
    }
  }

  /** A text that reads as `n`: perhaps a plus sign, perhaps leading zeros, then `n` in decimal. */
  ghost predicate Reads(s: string, n: nat) {
    exists plus: bool, z: nat :: s == Numeral(plus, z, n)
  }

  function Numeral(plus: bool, z: nat, n: nat): string {
    (if plus then "+" else "") + (Zeros(z) + Decimal(n))
  }

  lemma NumeralParses(plus: bool, z: nat, n: nat)
    ensures ParseU16(Numeral(plus, z, n)) == if n <= 65535 then Some(n) else None
  {
    PaddedValue(z, n);
    DecimalValue(n);
    var digits := Zeros(z) + Decimal(n);
    hide Decimal, Value, Zeros;
    assert IsDigit(digits[0]);
    assert plus ==> Numeral(plus, z, n)[1..] == digits;
    assert !plus ==> Numeral(plus, z, n) == digits;
  }

  lemma ParsedIsNumeral(s: string) returns (plus: bool, z: nat)
    requires ParseU16(s).Some?
    ensures s == Numeral(plus, z, ParseU16(s).value)
  {
    hide Decimal, Value, Zeros;
    plus := s[0] == '+';
    var digits := if plus then s[1..] else s;
    z := DigitsArePadded(digits);
    assert s == (if plus then "+" else "") + digits;
  }

  /** Exactly the texts that read as a number of at most 65535 are port numbers. */
  lemma ParseU16Decided(s: string, n: nat)
    ensures ParseU16(s) == Some(n) <==> n <= 65535 && Reads(s, n)
  {
    hide ParseU16, Numeral;
    if plus: bool, z: nat :| s == Numeral(plus, z, n) {
      NumeralParses(plus, z, n);
    } else if ParseU16(s) == Some(n) {
      var plus, z := ParsedIsNumeral(s);
    }
  }

  lemma {:induction false} SplitOnceNone(s: string, sep: string)
    ensures SplitOnce(s, sep).None? <==> forall i :: 0 <= i <= |s| ==> !(sep <= s[i..])
  {
    assert s[0..] == s;
    if !(sep <= s) && s != [] {
      SplitOnceNone(s[1..], sep);
      forall i | 0 <= i <= |s| ensures i > 0 ==> s[i..] == s[1..][i - 1..] {}
      assert forall i :: 0 <= i <= |s[1..]| ==> s[1..][i..] == s[i + 1..];
    }
  }
}
