// The handful of Python string operations the service relies on:
// `str.strip`, `str.lstrip(c)`, `str.split(sep)`, partition at the first separator,
// `int(s)`, `str(n)` and lower-casing.

module Text {

  import opened Wrappers

  /** Python `str.isspace` for one character (ASCII and the Unicode space separators). */
  predicate IsSpace(c: char)
  {
    c == ' ' || ('\t' <= c <= '\r') || ('\U{1C}' <= c <= '\U{1F}') || c == '\U{85}'
    || c == '\U{A0}' || c == '\U{1680}' || ('\U{2000}' <= c <= '\U{200A}')
    || c == '\U{2028}' || c == '\U{2029}' || c == '\U{202F}' || c == '\U{205F}' || c == '\U{3000}'
  }

  predicate IsDigit(c: char) { '0' <= c <= '9' }

  predicate IsAsciiUpper(c: char) { 'A' <= c <= 'Z' }

  predicate IsAsciiLower(c: char) { 'a' <= c <= 'z' }

  predicate IsAsciiLetter(c: char) { IsAsciiUpper(c) || IsAsciiLower(c) }

  predicate AllDigits(s: string) { forall i :: 0 <= i < |s| ==> IsDigit(s[i]) }

  /** `s.lstrip()`: drop leading whitespace. */
  function LStrip(s: string): (r: string)
    ensures |r| <= |s| && r == s[|s| - |r|..]
    ensures r == [] || !IsSpace(r[0])
    ensures forall i :: 0 <= i < |s| - |r| ==> IsSpace(s[i])
  {
    if s != [] && IsSpace(s[0]) then LStrip(s[1..]) else s
  }

  /** `s.rstrip()`: drop trailing whitespace. */
  function RStrip(s: string): (r: string)
    ensures |r| <= |s| && r == s[..|r|]
    ensures r == [] || !IsSpace(r[|r| - 1])
    ensures forall i :: |r| <= i < |s| ==> IsSpace(s[i])
  {
    if s != [] && IsSpace(s[|s| - 1]) then RStrip(s[..|s| - 1]) else s
  }

  /** `s.strip()`: the longest infix with no whitespace at either end. */
  function Strip(s: string): (r: string)
    ensures |r| <= |s|
    ensures r == [] || (!IsSpace(r[0]) && !IsSpace(r[|r| - 1]))
  {
    RStrip(LStrip(s))
  }

  lemma StripOfUnpadded(s: string)
    requires s == [] || (!IsSpace(s[0]) && !IsSpace(s[|s| - 1]))
    ensures Strip(s) == s
  {
  }

  /** Stripping twice is stripping once. */
  lemma StripIdempotent(s: string)
    ensures Strip(Strip(s)) == Strip(s)
  {
    StripOfUnpadded(Strip(s));
  }

  /** `s.lstrip(c)`: drop every leading `c`. */
  function LStripChar(s: string, c: char): (r: string)
    ensures |r| <= |s| && r == s[|s| - |r|..]
    ensures r == [] || r[0] != c
    ensures forall i :: 0 <= i < |s| - |r| ==> s[i] == c
  {
    if s != [] && s[0] == c then LStripChar(s[1..], c) else s
  }

  /** `s.rstrip(c)`: drop every trailing `c`. */
  function RStripChar(s: string, c: char): (r: string)
    ensures |r| <= |s| && r == s[..|r|]
    ensures r == [] || r[|r| - 1] != c
    ensures forall i :: |r| <= i < |s| ==> s[i] == c
  {
    if s != [] && s[|s| - 1] == c then RStripChar(s[..|s| - 1], c) else s
  }

  /** Python `str.lower` restricted to ASCII letters. */
  function LowerAscii(s: string): (r: string)
    ensures |r| == |s|
    ensures forall i :: 0 <= i < |s| ==> r[i] == (if IsAsciiUpper(s[i]) then (s[i] as int + 32) as char else s[i])
  {
    if s == [] then []
    else [if IsAsciiUpper(s[0]) then (s[0] as int + 32) as char else s[0]] + LowerAscii(s[1..])
  }

  /** The pieces of `s.split(sep)`, glued back with `sep`. */
  function Join(pieces: seq<string>, sep: char): string
  {
    if pieces == [] then ""
    else if |pieces| == 1 then pieces[0]
    else pieces[0] + [sep] + Join(pieces[1..], sep)
  }

  /** `s.split(sep)`: at least one piece, no piece holds `sep`. */
  function Split(s: string, sep: char): (r: seq<string>)
    ensures |r| >= 1
    ensures forall i :: 0 <= i < |r| ==> sep !in r[i]
  {
    if s == [] then [""]
    else
      var rest := Split(s[1..], sep);
      if s[0] == sep then [""] + rest
      else [[s[0]] + rest[0]] + rest[1..]
  }

  /** Splitting and joining with the same separator gives the string back. */
  lemma {:induction false} SplitJoin(s: string, sep: char)
    ensures Join(Split(s, sep), sep) == s
  {
    if s != [] {
      var rest := Split(s[1..], sep);
      SplitJoin(s[1..], sep);
      if s[0] == sep {
        assert Split(s, sep) == [""] + rest;
        assert ([""] + rest)[1..] == rest;
      } else {
        var r := Split(s, sep);
        assert r == [[s[0]] + rest[0]] + rest[1..];
        if |rest| == 1 {
          assert Join(rest, sep) == rest[0];
        } else {
          assert r[1..] == rest[1..];
          assert Join(rest, sep) == rest[0] + [sep] + Join(rest[1..], sep);
        }
      }
    }
  }

  /** The position of the first `c` in `s`. */
  function IndexOf(s: string, c: char): (r: Option<nat>)
    ensures r.Some? ==> r.value < |s| && s[r.value] == c && c !in s[..r.value]
    ensures r.None? ==> c !in s
  {
    if s == [] then None
    else if s[0] == c then Some(0)
    else
      match IndexOf(s[1..], c)
      case None => None
      case Some(i) =>
        assert s[1..][..i] == s[1..i + 1];
        Some(i + 1)
  }

  /** `s.split(c)[0]`: everything before the first `c` (all of `s` when there is none). */
  function BeforeFirst(s: string, c: char): (r: string)
    ensures c !in r
    ensures IndexOf(s, c).None? ==> r == s
    ensures IndexOf(s, c).Some? ==> r == s[..IndexOf(s, c).value]
  {
    match IndexOf(s, c)
    case None => s
    case Some(i) => s[..i]
  }

  /** `s.split(c, 1)[1]`: everything after the first `c`; None where Python raises IndexError. */
  function AfterFirst(s: string, c: char): (r: Option<string>)
    ensures r.None? <==> c !in s
    ensures r.Some? ==> s == BeforeFirst(s, c) + [c] + r.value
  {
    match IndexOf(s, c)
    case None => None
    case Some(i) => Some(s[i + 1..])
  }

  /** For a string with a separator, taking before and after the first one and gluing them back is the identity. */
  lemma PartitionAt(a: string, c: char, b: string)
    requires c !in a
    ensures BeforeFirst(a + [c] + b, c) == a
    ensures AfterFirst(a + [c] + b, c) == Some(b)
  {
    var s := a + [c] + b;
    assert s[|a|] == c;
    var i := IndexOf(s, c).value;
    assert s[..|a|] == a;
    assert s[i + 1..] == b;
  }

  function DigitValue(c: char): nat
    requires IsDigit(c)
  {
    c as int - '0' as int
  }

  function DigitChar(d: nat): (c: char)
    requires d < 10
    ensures IsDigit(c) && DigitValue(c) == d
  {
    ('0' as int + d) as char
  }

  /** The value of a string of decimal digits, most significant first. */
  function DecimalValue(s: string): nat
    requires AllDigits(s)
  {
    if s == [] then 0 else DecimalValue(s[..|s| - 1]) * 10 + DigitValue(s[|s| - 1])
  }

  /** `str(n)` for a natural number: its shortest decimal spelling. */
  function NatToString(n: nat): (r: string)
    ensures |r| >= 1 && AllDigits(r)
  {
    if n < 10 then [DigitChar(n)] else NatToString(n / 10) + [DigitChar(n % 10)]
  }

  lemma {:induction false} NatToStringValue(n: nat)
    ensures DecimalValue(NatToString(n)) == n
  {
    var r := NatToString(n);
    if n >= 10 {
      NatToStringValue(n / 10);
      assert r[..|r| - 1] == NatToString(n / 10);
    }
  }

  /** `str(n)` for an integer. */
  function IntToString(n: int): (r: string)
    ensures |r| >= 1
    ensures n >= 0 ==> AllDigits(r)
    ensures n < 0 ==> r[0] == '-' && AllDigits(r[1..])
  {
    if n < 0 then "-" + NatToString(-n) else NatToString(n)
  }

  /** The digits of a numeral, its underscores dropped. */
  function Underscoreless(s: string): (r: string)
    ensures |r| <= |s|
    ensures '_' !in r
  {
    if s == [] then [] else (if s[0] == '_' then [] else [s[0]]) + Underscoreless(s[1..])
  }

  lemma {:induction false} UnderscorelessAppend(a: string, b: string)
    ensures Underscoreless(a + b) == Underscoreless(a) + Underscoreless(b)
  {
    if a != [] {
      var h := if a[0] == '_' then [] else [a[0]];
      assert (a + b)[0] == a[0] && (a + b)[1..] == a[1..] + b;
      UnderscorelessAppend(a[1..], b);
      calc {
        Underscoreless(a + b);
        h + Underscoreless(a[1..] + b);
        h + (Underscoreless(a[1..]) + Underscoreless(b));
        (h + Underscoreless(a[1..])) + Underscoreless(b);
      }
    } else {
      assert a + b == b;
    }
  }

  lemma {:induction false} UnderscorelessOfDigits(d: string)
    requires AllDigits(d)
    ensures Underscoreless(d) == d
  {
    if d != [] {
      UnderscorelessOfDigits(d[1..]);
    }
  }

  /** A non-empty run of digits is a numeral, read as itself. */
  lemma DigitsAreNumeral(d: string)
    requires d != [] && AllDigits(d)
    ensures Numeral(d) && Underscoreless(d) == d
  {
    UnderscorelessOfDigits(d);
  }

  /**
   * The digit part that `int()` accepts: ASCII digits, where an underscore may stand between
   * two digits (a single one, never first or last).
   */
  predicate Numeral(d: string)
  {
    d != [] && IsDigit(d[0]) && IsDigit(d[|d| - 1])
    && (forall i :: 0 <= i < |d| ==> IsDigit(d[i]) || d[i] == '_')
    && (forall i, j :: 0 <= i < |d| && 0 <= j < |d| && j == i + 1 && d[i] == '_' ==> d[j] != '_')
  }

  /** Digits and underscores lose their underscores and leave digits. */
  lemma {:induction false} UnderscorelessDigits(d: string)
    requires forall i :: 0 <= i < |d| ==> IsDigit(d[i]) || d[i] == '_'
    ensures AllDigits(Underscoreless(d))
  {
    if d != [] {
      var rest := d[1..];
      assert forall i :: 0 <= i < |rest| ==> rest[i] == d[i + 1];
      UnderscorelessDigits(rest);
    }
  }

  lemma NumeralDigits(d: string)
    requires Numeral(d)
    ensures AllDigits(Underscoreless(d))
  {
    UnderscorelessDigits(d);
  }

  /** `int()` after stripping: an optional sign, then a numeral. */
  function ParseNumeral(t: string): (r: Option<int>)
    ensures t != [] && AllDigits(t) ==> r == Some(DecimalValue(t))
    ensures r.Some? ==> t != [] && forall i :: 0 <= i < |t| ==>
      IsDigit(t[i]) || t[i] == '_' || (i == 0 && (t[i] == '-' || t[i] == '+'))
    ensures r.Some? && r.value < 0 ==> t[0] == '-'
  {
    if t == [] then None
    else if t[0] == '-' || t[0] == '+' then
      var d := t[1..];
      if Numeral(d) then
        NumeralDigits(d);
        var v: int := DecimalValue(Underscoreless(d));
        assert forall i :: 1 <= i < |t| ==> t[i] == d[i - 1];
        Some(if t[0] == '-' then -v else v)
      else None
    else if Numeral(t) then
      NumeralDigits(t);
      assert forall i :: 0 <= i < |t| ==> IsDigit(t[i]) || t[i] == '_';
      if AllDigits(t) then UnderscorelessOfDigits(t); Some(DecimalValue(t))
      else Some(DecimalValue(Underscoreless(t)))
    else None
  }

  /** Python `int(s)` on a string: surrounding whitespace, an optional sign, then a numeral. */
  function ParseInt(s: string): (r: Option<int>)
  {
    ParseNumeral(Strip(s))
  }

  /** Without surrounding whitespace, `int()` reads the string itself. */
  lemma ParseIntOfUnpadded(s: string)
    requires s == [] || (!IsSpace(s[0]) && !IsSpace(s[|s| - 1]))
    ensures ParseInt(s) == ParseNumeral(s)
  {
    StripOfUnpadded(s);
  }

  /** A numeral without a sign is read as the value of its digits. */
  lemma ParseNumeralOfNumeral(t: string)
    requires Numeral(t)
    ensures AllDigits(Underscoreless(t)) && ParseNumeral(t) == Some(DecimalValue(Underscoreless(t)))
  {
    NumeralDigits(t);
    if AllDigits(t) {
      UnderscorelessOfDigits(t);
    }
  }

  /** A minus sign before a numeral negates its value. */
  lemma ParseNegated(d: string)
    requires Numeral(d)
    ensures AllDigits(Underscoreless(d)) && ParseNumeral("-" + d) == Some(-(DecimalValue(Underscoreless(d)) as int))
  {
    NumeralDigits(d);
    assert ("-" + d)[1..] == d;
  }

  /** Two runs of digits glued by one underscore make a numeral. */
  lemma UnderscoredNumeral(a: string, b: string)
    requires a != [] && b != [] && AllDigits(a) && AllDigits(b)
    ensures Numeral(a + ['_'] + b)
  {
    var s := a + ['_'] + b;
    forall i | 0 <= i < |s| ensures IsDigit(s[i]) || s[i] == '_' {
      if i < |a| {
        assert s[i] == a[i];
      } else if i > |a| {
        assert s[i] == b[i - |a| - 1];
      }
    }
    forall i, j | 0 <= i < |s| && 0 <= j < |s| && j == i + 1 ensures s[i] == '_' ==> s[j] != '_' {
      if i < |a| {
        assert s[i] == a[i];
      } else if i == |a| {
        assert s[j] == b[0];
      } else {
        assert s[i] == b[i - |a| - 1];
      }
    }
    assert s[|s| - 1] == b[|b| - 1];
  }

  /** Dropping the underscore of two glued runs of digits glues the runs. */
  lemma UnderscorelessGlued(a: string, b: string)
    requires AllDigits(a) && AllDigits(b)
    ensures Underscoreless(a + ['_'] + b) == a + b
  {
    var u: string := ['_'];
    assert Underscoreless(u) == [] by {
      assert u[1..] == [];
    }
    UnderscorelessAppend(a, u);
    UnderscorelessOfDigits(a);
    assert Underscoreless(a + u) == a;
    UnderscorelessAppend(a + u, b);
    UnderscorelessOfDigits(b);
  }

  /** Underscores between digits are ignored: `int("1_0") == 10`. */
  lemma ParseIntIgnoresUnderscore(a: string, b: string)
    requires a != [] && b != [] && AllDigits(a) && AllDigits(b)
    ensures ParseInt(a + ['_'] + b) == Some(DecimalValue(a + b))
  {
    var s := a + ['_'] + b;
    assert s[0] == a[0] && s[|s| - 1] == b[|b| - 1];
    ParseIntOfUnpadded(s);
    UnderscoredNumeral(a, b);
    UnderscorelessGlued(a, b);
    ParseNumeralOfNumeral(s);
  }

  /** Two underscores in a row are refused: `int("1__0")` raises. */
  lemma ParseIntRejectsDoubleUnderscore(a: string, b: string)
    requires a != [] && b != [] && AllDigits(a) && AllDigits(b)
    ensures ParseInt(a + ['_', '_'] + b) == None
  {
    var s := a + ['_', '_'] + b;
    assert s[0] == a[0] && s[|s| - 1] == b[|b| - 1];
    ParseIntOfUnpadded(s);
    assert s[|a|] == '_' && s[|a| + 1] == '_';
    assert !Numeral(s);
  }

  /** `int(str(n)) == n`. */
  lemma ParseIntToString(n: int)
    ensures ParseInt(IntToString(n)) == Some(n)
  {
    if n < 0 {
      ParseNegative(-n);
      assert IntToString(n) == "-" + NatToString(-n);
    } else {
      ParseNat(n);
    }
  }

  lemma ParseNat(m: nat)
    ensures ParseInt(NatToString(m)) == Some(m)
  {
    var r := NatToString(m);
    assert !IsSpace(r[0]) && !IsSpace(r[|r| - 1]);
    ParseIntOfUnpadded(r);
    NatToStringValue(m);
  }

  lemma ParseNegative(m: nat)
    requires m > 0
    ensures ParseInt("-" + NatToString(m)) == Some(-(m as int))
  {
    var r := "-" + NatToString(m);
    assert !IsSpace(r[0]) && !IsSpace(r[|r| - 1]);
    ParseIntOfUnpadded(r);
    DigitsAreNumeral(NatToString(m));
    ParseNegated(NatToString(m));
    NatToStringValue(m);
  }

  /** `str(n)` holds only digits and the sign. */
  lemma IntToStringChars(n: int, c: char)
    requires c != '-' && !IsDigit(c)
    ensures c !in IntToString(n)
  {
    var s := IntToString(n);
    forall i | 0 <= i < |s| ensures s[i] != c {
      if n < 0 && i > 0 {
        assert s[1..][i - 1] == s[i];
      }
    }
  }

  /** A string that `int()` accepts holds no separator other than its sign, digits and padding. */
  lemma ParseIntRejectsNonNumeric(s: string)
    requires s != [] && forall i :: 0 <= i < |s| ==> !IsSpace(s[i]) && !IsDigit(s[i]) && s[i] != '-' && s[i] != '+'
    ensures ParseInt(s) == None
  {
    StripOfUnpadded(s);
  }
}
