/** The parts of the Kotlin standard library (JVM) that the coursework screens rely on:
    nullable values, 32-bit Int range and wrap-around, Char.isWhitespace, trim/isBlank,
    String.toIntOrNull, Int.toString, split on one delimiter, take/takeLast and
    ASCII case handling. A Dafny string is a sequence of Unicode scalar values, while a
    JVM string is a sequence of UTF-16 code units: Utf16Length gives String.length. */
module KotlinText {

  /** A Kotlin nullable value `T?`. */
  datatype Option<+T> = None | Some(value: T) {
    function GetOr(default: T): T {
      match this
      case Some(v) => v
      case None => default
    }
  }

  // ---------------------------------------------------------------- Int

  const MinInt: int := -0x8000_0000
  const MaxInt: int := 0x7FFF_FFFF

  predicate IsInt(n: int) { MinInt <= n <= MaxInt }

  /** Two's-complement wrap-around of a mathematical integer into Kotlin's Int. */
  function Wrap(n: int): (r: int)
    ensures IsInt(r)
    ensures IsInt(n) ==> r == n
    ensures (r - n) % 0x1_0000_0000 == 0
  {
    (n - MinInt) % 0x1_0000_0000 + MinInt
  }

  // ---------------------------------------------------------------- characters

  /** Char.isWhitespace on the JVM: Character.isWhitespace(c) || Character.isSpaceChar(c).
      That is the ASCII controls TAB..CR and FS..US, and every space, line or paragraph
      separator of Unicode (including the no-break spaces). */
  predicate IsWhitespace(c: char) {
    || ('\t' <= c <= '\r')
    || ('\U{1C}' <= c <= ' ')
    || c == '\U{A0}' || c == '\U{1680}'
    || ('\U{2000}' <= c <= '\U{200A}')
    || c == '\U{2028}' || c == '\U{2029}' || c == '\U{202F}' || c == '\U{205F}'
    || c == '\U{3000}'
  }

  predicate IsDigit(c: char) { '0' <= c <= '9' }

  function DigitValue(c: char): (d: nat)
    requires IsDigit(c)
    ensures d < 10
  {
    (c - '0') as nat
  }

  function DigitChar(d: nat): (c: char)
    requires d < 10
    ensures IsDigit(c) && DigitValue(c) == d
  {
    ('0' as int + d) as char
  }

  /** Char.lowercaseChar restricted to ASCII: 'A'..'Z' map to 'a'..'z', all else is kept. */
  function LowerChar(c: char): char {
    if 'A' <= c <= 'Z' then (c as int + 32) as char else c
  }

  // ---------------------------------------------------------------- strings

  /** CharSequence.isBlank(): empty or whitespace only. */
  predicate IsBlank(s: string) {
    forall i :: 0 <= i < |s| ==> IsWhitespace(s[i])
  }

  predicate Contains(s: string, c: char) { c in s }

  predicate StartsWith(s: string, prefix: string) {
    |prefix| <= |s| && s[..|prefix|] == prefix
  }

  /** String.trimStart(): drops the leading whitespace. */
  function TrimStart(s: string): (r: string)
    ensures |r| <= |s| && r == s[|s| - |r|..]
    ensures r == [] || !IsWhitespace(r[0])
    ensures IsBlank(s[..|s| - |r|])
  {
    if s != [] && IsWhitespace(s[0]) then
      var r := TrimStart(s[1..]);
      assert s[..|s| - |r|] == [s[0]] + s[1..][..|s| - 1 - |r|];
      r
    else s
  }

  /** String.trimEnd(): drops the trailing whitespace. */
  function TrimEnd(s: string): (r: string)
    ensures |r| <= |s| && r == s[..|r|]
    ensures r == [] || !IsWhitespace(r[|r| - 1])
    ensures IsBlank(s[|r|..])
  {
    if s != [] && IsWhitespace(s[|s| - 1]) then
      var r := TrimEnd(s[..|s| - 1]);
      assert s[|r|..] == s[..|s| - 1][|r|..] + [s[|s| - 1]];
      r
    else s
  }

  /** String.trim(): drops leading and trailing whitespace. */
  function Trim(s: string): string {
    TrimEnd(TrimStart(s))
  }

  /** Leading whitespace does not change what trimStart keeps. */
  lemma {:induction false} TrimStartBlankPrefix(w: string, s: string)
    requires IsBlank(w)
    ensures TrimStart(w + s) == TrimStart(s)
  {
    if w != [] {
      assert (w + s)[1..] == w[1..] + s;
      TrimStartBlankPrefix(w[1..], s);
    } else {
      assert w + s == s;
    }
  }

  lemma BlankTail(s: string)
    requires s != [] && IsWhitespace(s[0])
    ensures IsBlank(s) <==> IsBlank(s[1..])
  {
    if IsBlank(s[1..]) {
      forall i | 0 <= i < |s| ensures IsWhitespace(s[i]) {
        if i > 0 { assert s[i] == s[1..][i - 1]; }
      }
    }
  }

  /** Whatever follows a string with a non-blank character is kept by trimStart. */
  lemma {:induction false} TrimStartAppend(s: string, t: string)
    ensures TrimStart(s + t) == if IsBlank(s) then TrimStart(t) else TrimStart(s) + t
  {
    if s == [] {
      assert s + t == t;
    } else if IsWhitespace(s[0]) {
      assert (s + t)[1..] == s[1..] + t;
      TrimStartAppend(s[1..], t);
      BlankTail(s);
    } else {
      assert (s + t)[0] == s[0];
      assert !IsBlank(s);
    }
  }

  /** Trailing whitespace does not change what trimEnd keeps. */
  lemma {:induction false} TrimEndBlankSuffix(s: string, w: string)
    requires IsBlank(w)
    ensures TrimEnd(s + w) == TrimEnd(s)
  {
    if w != [] {
      assert (s + w)[..|s + w| - 1] == s + w[..|w| - 1];
      TrimEndBlankSuffix(s, w[..|w| - 1]);
    } else {
      assert s + w == s;
    }
  }

  /** trim() ignores whitespace added around its input. */
  lemma TrimIgnoresPadding(pre: string, s: string, post: string)
    requires IsBlank(pre) && IsBlank(post)
    ensures Trim(pre + s + post) == Trim(s)
  {
    assert pre + s + post == pre + (s + post);
    TrimStartBlankPrefix(pre, s + post);
    TrimStartAppend(s, post);
    if IsBlank(s) {
      TrimStartAppend(s, []);
      assert s + [] == s;
      TrimStartBlankPrefix(post, []);
      assert post + [] == post;
      assert TrimStart([]) == [];
    } else {
      TrimEndBlankSuffix(TrimStart(s), post);
    }
  }

  /** A string without whitespace at either end is its own trim. */
  lemma TrimNoEdges(s: string)
    requires s == [] || (!IsWhitespace(s[0]) && !IsWhitespace(s[|s| - 1]))
    ensures Trim(s) == s
  {
  }

  /** The lower-cased string, ASCII letters only (see LowerChar). */
  function Lowercase(s: string): (r: string)
    ensures |r| == |s|
    ensures forall i :: 0 <= i < |s| ==> r[i] == LowerChar(s[i])
  {
    seq(|s|, i requires 0 <= i < |s| => LowerChar(s[i]))
  }

  /** String.equals(other, ignoreCase = true), ASCII letters only. */
  predicate EqualsIgnoreCase(a: string, b: string) {
    |a| == |b| && forall i :: 0 <= i < |a| ==> LowerChar(a[i]) == LowerChar(b[i])
  }

  /** take(n): the first min(n, length) elements. */
  function Take<T>(s: seq<T>, n: nat): (r: seq<T>)
    ensures |r| == if n < |s| then n else |s|
    ensures r == s[..|r|]
  {
    if n < |s| then s[..n] else s
  }

  /** takeLast(n): the last min(n, length) elements. */
  function TakeLast<T>(s: seq<T>, n: nat): (r: seq<T>)
    ensures |r| == if n < |s| then n else |s|
    ensures r == s[|s| - |r|..]
  {
    if n < |s| then s[|s| - n..] else s
  }

  /** A list of exactly 2n elements is covered once by take(n) followed by takeLast(n). */
  lemma TakeThenTakeLast<T>(s: seq<T>, n: nat)
    requires |s| == 2 * n
    ensures Take(s, n) + TakeLast(s, n) == s
  {
  }

  // ---------------------------------------------------------------- split / join

  /** CharSequence.split(delimiter) for a one-character delimiter, without limit:
      every occurrence splits, empty pieces (leading, trailing, adjacent) are kept. */
  function Split(s: string, d: char): (parts: seq<string>)
    ensures |parts| >= 1
  {
    if s == [] then [""]
    else
      var rest := Split(s[1..], d);
      if s[0] == d then [""] + rest else [[s[0]] + rest[0]] + rest[1..]
  }

  /** joinToString(d): the pieces with d between neighbours. */
  function Join(parts: seq<string>, d: char): string {
    if |parts| <= 1 then (if parts == [] then "" else parts[0])
    else parts[0] + [d] + Join(parts[1..], d)
  }

  /** joinToString(""): plain concatenation. */
  function Concat(parts: seq<string>): string {
    if parts == [] then "" else Concat(parts[..|parts| - 1]) + parts[|parts| - 1]
  }

  /** String.length: the number of UTF-16 code units, two for a character beyond U+FFFF. */
  function Utf16Length(s: string): (n: nat)
    ensures |s| <= n <= 2 * |s|
  {
    if s == [] then 0
    else Utf16Length(s[..|s| - 1]) + (if s[|s| - 1] as int >= 0x1_0000 then 2 else 1)
  }

  /** The length of a concatenation is the sum of the lengths. */
  lemma {:induction false} Utf16LengthAppend(a: string, b: string)
    ensures Utf16Length(a + b) == Utf16Length(a) + Utf16Length(b)
    decreases |b|
  {
    if b == [] {
      assert a + b == a;
    } else {
      assert (a + b)[..|a + b| - 1] == a + b[..|b| - 1];
      Utf16LengthAppend(a, b[..|b| - 1]);
    }
  }

  /** A character beyond U+FFFF is a surrogate pair: its length is two. */
  lemma BeyondBmpTwoUnits(c: char)
    requires c as int >= 0x1_0000
    ensures Utf16Length([c]) == 2
  {
    assert [c][..0] == [];
  }

  /** A string of length at most one is empty or a single character below U+10000. */
  lemma Utf16LengthAtMostOne(s: string)
    ensures Utf16Length(s) <= 1 <==> s == [] || (|s| == 1 && s[0] as int < 0x1_0000)
  {
    if |s| == 1 {
      assert s[..0] == [];
    }
  }

  /** No piece produced by Split contains the delimiter. */
  lemma {:induction false} SplitPiecesFree(s: string, d: char)
    ensures forall i :: 0 <= i < |Split(s, d)| ==> d !in Split(s, d)[i]
  {
    if s != [] {
      SplitPiecesFree(s[1..], d);
    }
  }

  /** Joining the pieces again gives back the original string. */
  lemma {:induction false} SplitJoin(s: string, d: char)
    ensures Join(Split(s, d), d) == s
  {
    if s != [] {
      SplitJoin(s[1..], d);
      var rest := Split(s[1..], d);
      if s[0] != d && |rest| > 1 {
        assert Split(s, d)[1..] == rest[1..];
      }
    }
  }

  /** A string without the delimiter is one piece. */
  lemma {:induction false} SplitNone(s: string, d: char)
    requires d !in s
    ensures Split(s, d) == [s]
  {
    if s != [] {
      SplitNone(s[1..], d);
      assert [s[0]] + s[1..] == s;
    }
  }

  /** The text before the first delimiter is the first piece; the remainder is split on. */
  lemma {:induction false} SplitAt(a: string, d: char, b: string)
    requires d !in a
    ensures Split(a + [d] + b, d) == [a] + Split(b, d)
  {
    if a == [] {
      assert a + [d] + b == [d] + b;
      assert ([d] + b)[1..] == b;
    } else {
      assert (a + [d] + b)[1..] == a[1..] + [d] + b;
      SplitAt(a[1..], d, b);
      assert [a[0]] + a[1..] == a;
    }
  }

  /** The first piece is the longest delimiter-free prefix. */
  lemma {:induction false} SplitFirst(s: string, d: char)
    ensures var p := Split(s, d)[0];
      |p| <= |s| && s[..|p|] == p && (|p| == |s| || s[|p|] == d)
  {
    if s != [] {
      SplitFirst(s[1..], d);
    }
  }

  // ---------------------------------------------------------------- numbers as text

  predicate AllDigits(s: string) {
    forall i :: 0 <= i < |s| ==> IsDigit(s[i])
  }

  /** The value of a run of decimal digits (leading zeros allowed). */
  function DigitsValue(s: string): nat
    requires AllDigits(s)
  {
    if s == [] then 0 else DigitsValue(s[..|s| - 1]) * 10 + DigitValue(s[|s| - 1])
  }

  /** String.toIntOrNull() (radix 10): an optional '+' or '-' followed by at least one
      digit, whose value fits in an Int; null for anything else. As in the library, a
      first character below '0' is read as a possible sign. */
  function ToIntOrNull(s: string): (r: Option<int>)
    ensures r.Some? ==> IsInt(r.value)
  {
    if |s| == 0 then None
    else if s[0] < '0' then
      if |s| == 1 then None
      else if s[0] == '-' then
        if AllDigits(s[1..]) && MinInt <= 0 - DigitsValue(s[1..]) then Some(0 - DigitsValue(s[1..])) else None
      else if s[0] == '+' then
        if AllDigits(s[1..]) && DigitsValue(s[1..]) <= MaxInt then Some(DigitsValue(s[1..])) else None
      else None
    else if AllDigits(s) && DigitsValue(s) <= MaxInt then Some(DigitsValue(s))
    else None
  }

  /** A run of digits whose value is beyond the largest Int does not parse. */
  lemma ToIntOrNullTooLarge(s: string)
    requires s != [] && AllDigits(s) && DigitsValue(s) > MaxInt
    ensures ToIntOrNull(s) == None
  {
    assert IsDigit(s[0]);
  }

  /** The decimal digits of a natural number, without leading zeros. */
  function NatToString(n: nat): (s: string)
    ensures |s| >= 1 && AllDigits(s)
  {
    if n < 10 then [DigitChar(n)] else NatToString(n / 10) + [DigitChar(n % 10)]
  }

  /** Int.toString(): a '-' for negative numbers, then the digits. */
  function IntToString(n: int): (s: string)
    ensures |s| >= 1
  {
    if n < 0 then "-" + NatToString(-n) else NatToString(n)
  }

  lemma {:induction false} NatToStringValue(n: nat)
    ensures DigitsValue(NatToString(n)) == n
  {
    if n >= 10 {
      NatToStringValue(n / 10);
      var s := NatToString(n);
      assert s[..|s| - 1] == NatToString(n / 10);
    }
  }

  /** Printing an Int and parsing it back gives the same Int. */
  lemma IntToStringRoundTrip(n: int)
    requires IsInt(n)
    ensures ToIntOrNull(IntToString(n)) == Some(n)
  {
    if n < 0 {
      NatToStringValue(-n);
      assert IntToString(n)[1..] == NatToString(-n);
    } else {
      NatToStringValue(n);
    }
  }
}
