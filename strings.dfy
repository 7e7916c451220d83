/**
 * The string primitives the formatter relies on: removal of tabs and newlines,
 * the cut at fmt's "%!(" error marker, splitting on a separator, trimming of
 * white space, and the decimal and zero-padded renderings of integers that
 * strconv.Itoa and fmt's "%0Nd" produce.
 */
module StringUtil {

  import opened Wrappers

  // ---------------------------------------------------------------------------
  // Removing characters
  // ---------------------------------------------------------------------------

  /** strings.ReplaceAll(s, string(c), ""): every occurrence of c dropped. */
  function RemoveAll(s: string, c: char): (r: string)
    ensures c !in r
    ensures |r| <= |s|
    ensures c !in s ==> r == s
    ensures forall x :: x != c ==> multiset(r)[x] == multiset(s)[x]
  {
    if s == [] then []
    else
      assert s == [s[0]] + s[1..];
      (if s[0] == c then [] else [s[0]]) + RemoveAll(s[1..], c)
  }

  /** cleanTabsAndNewlines: first every "\n", then every "\t" is removed. */
  function CleanTabsAndNewlines(s: string): (r: string)
    ensures '\n' !in r && '\t' !in r
    ensures forall x :: x != '\n' && x != '\t' ==> multiset(r)[x] == multiset(s)[x]
    ensures '\n' !in s && '\t' !in s ==> r == s
  {
    var withoutNewlines := RemoveAll(s, '\n');
    assert '\t' !in s ==> '\t' !in withoutNewlines by {
      if '\t' !in s {
        assert multiset(s)['\t'] == 0;
      }
    }
    var r := RemoveAll(withoutNewlines, '\t');
    assert multiset(r)['\n'] == multiset(withoutNewlines)['\n'] == 0;
    r
  }

  lemma {:induction false} RemoveAllConcat(a: string, b: string, c: char)
    ensures RemoveAll(a + b, c) == RemoveAll(a, c) + RemoveAll(b, c)
    decreases |a|
  {
    if a != [] {
      assert (a + b)[1..] == a[1..] + b;
      RemoveAllConcat(a[1..], b, c);
    } else {
      assert a + b == b;
    }
  }

  /** Removal works character by character: it distributes over concatenation. */
  lemma CleanConcat(a: string, b: string)
    ensures CleanTabsAndNewlines(a + b) == CleanTabsAndNewlines(a) + CleanTabsAndNewlines(b)
  {
    RemoveAllConcat(a, b, '\n');
    RemoveAllConcat(RemoveAll(a, '\n'), RemoveAll(b, '\n'), '\t');
  }

  /** On one character: a tab or a newline vanishes, anything else is kept. */
  lemma CleanChar(x: char)
    ensures CleanTabsAndNewlines([x]) == if x == '\n' || x == '\t' then [] else [x]
  {
    assert [x][1..] == [];
  }

  lemma CleanIdempotent(s: string)
    ensures CleanTabsAndNewlines(CleanTabsAndNewlines(s)) == CleanTabsAndNewlines(s)
  {
  }

  // ---------------------------------------------------------------------------
  // The "%!(" cut
  // ---------------------------------------------------------------------------

  /** fmt.Sprintf writes "%!(" before each formatting error (missing or extra arguments). */
  const FormatErrorMarker: string := "%!("

  predicate MarkerAt(s: string, i: int)
  {
    0 <= i && i + |FormatErrorMarker| <= |s| && s[i..i + |FormatErrorMarker|] == FormatErrorMarker
  }

  lemma MarkerAtShift(s: string)
    requires s != []
    ensures forall i :: 1 <= i ==> (MarkerAt(s, i) <==> MarkerAt(s[1..], i - 1))
  {
    forall i | 1 <= i
      ensures MarkerAt(s, i) <==> MarkerAt(s[1..], i - 1)
    {
      if i + 3 <= |s| {
        assert s[i..i + 3] == s[1..][i - 1..i + 2];
      }
    }
  }

  /**
   * strings.Split(s, "%!(")[0]: the part of s before the first marker, or all
   * of s when the marker does not occur. The ensures determine r uniquely.
   */
  function TextBeforeMarker(s: string): (r: string)
    ensures |r| <= |s| && r == s[..|r|]
    ensures forall i :: 0 <= i < |r| ==> !MarkerAt(s, i)
    ensures |r| < |s| ==> MarkerAt(s, |r|)
    decreases |s|
  {
    if s == [] then ""
    else if MarkerAt(s, 0) then ""
    else
      MarkerAtShift(s);
      [s[0]] + TextBeforeMarker(s[1..])
  }

  /** Text without a marker comes through whole. */
  lemma TextWithoutMarkerUnchanged(s: string)
    requires forall i :: 0 <= i < |s| ==> !MarkerAt(s, i)
    ensures TextBeforeMarker(s) == s
  {
  }

  // ---------------------------------------------------------------------------
  // Splitting on a separator
  // ---------------------------------------------------------------------------

  function IndexOf(s: string, c: char): (i: nat)
    requires c in s
    ensures i < |s| && s[i] == c && c !in s[..i]
  {
    if s[0] == c then 0
    else
      assert c in s[1..] by { assert s == [s[0]] + s[1..]; }
      var j := IndexOf(s[1..], c);
      assert s[..j + 1] == [s[0]] + s[1..][..j];
      j + 1
  }

  /** strings.Split(s, string(sep)): the pieces between separators, at least one. */
  function Split(s: string, sep: char): (r: seq<string>)
    ensures |r| >= 1
    ensures forall i :: 0 <= i < |r| ==> sep !in r[i]
    decreases |s|
  {
    if sep !in s then [s]
    else
      var i := IndexOf(s, sep);
      [s[..i]] + Split(s[i + 1..], sep)
  }

  /** strings.Join(parts, string(sep)). */
  function Join(parts: seq<string>, sep: char): string
    requires |parts| >= 1
  {
    if |parts| == 1 then parts[0] else parts[0] + [sep] + Join(parts[1..], sep)
  }

  /** Splitting loses nothing: joining the pieces gives the input back. */
  lemma {:induction false} JoinSplit(s: string, sep: char)
    ensures Join(Split(s, sep), sep) == s
    decreases |s|
  {
    if sep in s {
      var i := IndexOf(s, sep);
      var rest := Split(s[i + 1..], sep);
      assert Split(s, sep) == [s[..i]] + rest;
      assert ([s[..i]] + rest)[1..] == rest;
      JoinSplit(s[i + 1..], sep);
      assert s == s[..i] + [sep] + s[i + 1..];
    }
  }

  // ---------------------------------------------------------------------------
  // Trimming white space
  // ---------------------------------------------------------------------------

  /** unicode.IsSpace: the characters with Unicode's White_Space property. */
  const WhiteSpace: set<char> := {
    ' ', '\t', '\n', '\U{0B}', '\U{0C}', '\r', '\U{85}', '\U{A0}', '\U{1680}',
    '\U{2000}', '\U{2001}', '\U{2002}', '\U{2003}', '\U{2004}', '\U{2005}', '\U{2006}',
    '\U{2007}', '\U{2008}', '\U{2009}', '\U{200A}',
    '\U{2028}', '\U{2029}', '\U{202F}', '\U{205F}', '\U{3000}'}

  predicate IsSpace(c: char)
  {
    c in WhiteSpace
  }

  /** r is the infix of s that remains once some characters of the class `space` are dropped from each end. */
  ghost predicate TrimmedFrom(s: string, r: string, space: set<char>)
  {
    exists i, j :: 0 <= i <= j <= |s| && r == s[i..j]
      && (forall k :: 0 <= k < i ==> s[k] in space)
      && (forall k :: j <= k < |s| ==> s[k] in space)
  }

  /**
   * s with the characters of the class `space` dropped from both ends: what
   * remains neither starts nor ends with such a character.
   */
  function Trim(s: string, space: set<char>): (r: string)
    ensures r == [] || (r[0] !in space && r[|r| - 1] !in space)
    ensures |r| <= |s|
    ensures s == [] || (s[0] !in space && s[|s| - 1] !in space) ==> r == s
    decreases |s|
  {
    if s != [] && s[0] in space then Trim(s[1..], space)
    else if s != [] && s[|s| - 1] in space then Trim(s[..|s| - 1], space)
    else s
  }

  /** Trimming leaves an infix of the input with only `space` characters outside it. */
  lemma {:induction false} TrimIsInfix(s: string, space: set<char>)
    ensures TrimmedFrom(s, Trim(s, space), space)
    decreases |s|
  {
    if s != [] && s[0] in space {
      TrimIsInfix(s[1..], space);
      InfixDropFirst(s, Trim(s, space), space);
    } else if s != [] && s[|s| - 1] in space {
      TrimIsInfix(s[..|s| - 1], space);
      InfixDropLast(s, Trim(s, space), space);
    } else {
      InfixWitness(s, s, 0, |s|, space);
    }
  }

  /** A `space` character before an infix can join the dropped prefix. */
  lemma InfixDropFirst(s: string, r: string, space: set<char>)
    requires s != [] && s[0] in space && TrimmedFrom(s[1..], r, space)
    ensures TrimmedFrom(s, r, space)
  {
    var t := s[1..];
    var i, j :| 0 <= i <= j <= |t| && r == t[i..j]
      && (forall k :: 0 <= k < i ==> t[k] in space)
      && (forall k :: j <= k < |t| ==> t[k] in space);
    forall k | 0 <= k < i + 1
      ensures s[k] in space
    {
      if k > 0 {
        assert s[k] == t[k - 1];
      }
    }
    forall k | j + 1 <= k < |s|
      ensures s[k] in space
    {
      assert s[k] == t[k - 1];
    }
    assert r == s[i + 1..j + 1];
    InfixWitness(s, r, i + 1, j + 1, space);
  }

  /** A `space` character after an infix can join the dropped suffix. */
  lemma InfixDropLast(s: string, r: string, space: set<char>)
    requires s != [] && s[|s| - 1] in space && TrimmedFrom(s[..|s| - 1], r, space)
    ensures TrimmedFrom(s, r, space)
  {
    var t := s[..|s| - 1];
    var i, j :| 0 <= i <= j <= |t| && r == t[i..j]
      && (forall k :: 0 <= k < i ==> t[k] in space)
      && (forall k :: j <= k < |t| ==> t[k] in space);
    forall k | 0 <= k < i
      ensures s[k] in space
    {
      assert s[k] == t[k];
    }
    forall k | j <= k < |s|
      ensures s[k] in space
    {
      if k < |s| - 1 {
        assert s[k] == t[k];
      }
    }
    assert r == s[i..j];
    InfixWitness(s, r, i, j, space);
  }

  /** What trimming leaves holds no character the input lacks. */
  lemma TrimmedKeepsOnlyItsCharacters(s: string, r: string, space: set<char>)
    requires TrimmedFrom(s, r, space)
    ensures forall c :: c in r ==> c in s
  {
    var i, j :| 0 <= i <= j <= |s| && r == s[i..j];
    assert forall k :: 0 <= k < |r| ==> r[k] == s[i + k];
  }

  /** An infix with only `space` characters outside it is what trimming leaves. */
  lemma InfixWitness(s: string, r: string, i: nat, j: nat, space: set<char>)
    requires i <= j <= |s| && r == s[i..j]
    requires forall k :: 0 <= k < i ==> s[k] in space
    requires forall k :: j <= k < |s| ==> s[k] in space
    ensures TrimmedFrom(s, r, space)
  {
  }

  /**
   * strings.TrimSpace: the infix of s left once white space is dropped
   * from both ends.
   */
  function TrimSpace(s: string): (r: string)
    ensures r == [] || (!IsSpace(r[0]) && !IsSpace(r[|r| - 1]))
    ensures |r| <= |s|
    ensures TrimmedFrom(s, r, WhiteSpace)
    ensures s == [] || (!IsSpace(s[0]) && !IsSpace(s[|s| - 1])) ==> r == s
  {
    TrimIsInfix(s, WhiteSpace);
    Trim(s, WhiteSpace)
  }

  // ---------------------------------------------------------------------------
  // Decimal renderings
  // ---------------------------------------------------------------------------

  predicate IsDigit(c: char) { '0' <= c <= '9' }

  predicate AllDigits(s: string) { forall i :: 0 <= i < |s| ==> IsDigit(s[i]) }

  function DigitChar(d: nat): (c: char)
    requires d < 10
    ensures IsDigit(c) && (c as int) - ('0' as int) == d
  {
    (('0' as int) + d) as char
  }

  /** The value of a string of decimal digits (leading zeros allowed). */
  function DecimalValue(s: string): nat
    requires AllDigits(s)
  {
    if s == [] then 0
    else DecimalValue(s[..|s| - 1]) * 10 + ((s[|s| - 1] as int) - ('0' as int))
  }

  /** strconv.Itoa for a non-negative number: digits without leading zeros. */
  function NatToDecimal(n: nat): (r: string)
    ensures |r| >= 1 && AllDigits(r)
    ensures r[0] == '0' ==> n == 0
  {
    if n < 10 then [DigitChar(n)] else NatToDecimal(n / 10) + [DigitChar(n % 10)]
  }

  /** Rendering then reading back gives the number: the rendering is injective. */
  lemma {:induction false} DecimalRoundTrip(n: nat)
    ensures DecimalValue(NatToDecimal(n)) == n
  {
    if n >= 10 {
      var r := NatToDecimal(n);
      assert r[..|r| - 1] == NatToDecimal(n / 10);
      DecimalRoundTrip(n / 10);
    }
  }

  lemma NatToDecimalInjective(a: nat, b: nat)
    requires NatToDecimal(a) == NatToDecimal(b)
    ensures a == b
  {
    DecimalRoundTrip(a);
    DecimalRoundTrip(b);
  }

  /** strconv.Itoa / fmt "%d": a minus sign before the digits of a negative number. */
  function Itoa(i: int): (r: string)
  {
    if i < 0 then "-" + NatToDecimal(-i) else NatToDecimal(i)
  }

  /**
   * Reads an optional '-' followed by decimal digits back as an integer: the
   * reader for Itoa's output. Leading zeros and "-0" are accepted, so
   * Itoa(Atoi(s).value) need not be s.
   */
  function Atoi(s: string): Option<int>
  {
    if |s| >= 2 && s[0] == '-' && AllDigits(s[1..]) then Some(0 - DecimalValue(s[1..]))
    else if |s| >= 1 && AllDigits(s) then Some(DecimalValue(s))
    else None
  }

  /** Every integer's decimal form reads back as that integer. */
  lemma ItoaRoundTrip(i: int)
    ensures Atoi(Itoa(i)) == Some(i)
  {
    if i < 0 {
      assert Itoa(i)[1..] == NatToDecimal(-i);
      DecimalRoundTrip(-i);
    } else {
      DecimalRoundTrip(i);
    }
  }

  function Zeros(n: nat): (r: string)
    ensures |r| == n && AllDigits(r)
    ensures forall i :: 0 <= i < n ==> r[i] == '0'
  {
    if n == 0 then "" else "0" + Zeros(n - 1)
  }

  /** The digits of n, zero-padded on the left to at least `width` characters. */
  function ZeroPad(n: nat, width: nat): (r: string)
    ensures AllDigits(r)
    ensures |r| == if |NatToDecimal(n)| < width then width else |NatToDecimal(n)|
  {
    var digits := NatToDecimal(n);
    (if |digits| < width then Zeros(width - |digits|) else "") + digits
  }

  /** fmt.Sprintf("%0<width>d", i): the sign counts towards the width. */
  function FormatPadded(i: int, width: nat): string
  {
    if i < 0 then "-" + ZeroPad(-i, if width > 0 then width - 1 else 0) else ZeroPad(i, width)
  }

  lemma {:induction false} LeadingZeroValue(s: string)
    requires AllDigits(s)
    ensures AllDigits("0" + s) && DecimalValue("0" + s) == DecimalValue(s)
    decreases |s|
  {
    if s != [] {
      var t := "0" + s;
      assert t[..|t| - 1] == "0" + s[..|s| - 1];
      LeadingZeroValue(s[..|s| - 1]);
    }
  }

  lemma {:induction false} ZerosValue(k: nat, s: string)
    requires AllDigits(s)
    ensures AllDigits(Zeros(k) + s) && DecimalValue(Zeros(k) + s) == DecimalValue(s)
    decreases k
  {
    if k == 0 {
      assert Zeros(k) + s == s;
    } else {
      ZerosValue(k - 1, s);
      assert Zeros(k) + s == "0" + (Zeros(k - 1) + s);
      LeadingZeroValue(Zeros(k - 1) + s);
    }
  }

  /** Zero padding keeps the value: the padded number reads back exactly. */
  lemma ZeroPadRoundTrip(n: nat, width: nat)
    ensures DecimalValue(ZeroPad(n, width)) == n
  {
    var digits := NatToDecimal(n);
    DecimalRoundTrip(n);
    if |digits| < width {
      ZerosValue(width - |digits|, digits);
    } else {
      assert ZeroPad(n, width) == digits;
    }
  }

  lemma {:induction false} DecimalLength(n: nat, k: nat, bound: nat)
    requires k >= 1 && bound == Power10(k) && n < bound
    ensures |NatToDecimal(n)| <= k
    decreases k
  {
    if n >= 10 {
      assert Power10(1) == 10;
      DecimalLength(n / 10, k - 1, Power10(k - 1));
    }
  }

  function Power10(k: nat): nat
  {
    if k == 0 then 1 else 10 * Power10(k - 1)
  }

  /**
   * For 0 <= n < 10^width, "%0<width>d" is exactly `width` digits that read
   * back as n.
   */
  lemma FixedWidth(n: int, width: nat)
    requires 0 <= n < Power10(width) && width >= 1
    ensures |FormatPadded(n, width)| == width
    ensures AllDigits(FormatPadded(n, width))
    ensures DecimalValue(FormatPadded(n, width)) == n
  {
    DecimalLength(n, width, Power10(width));
    ZeroPadRoundTrip(n, width);
  }
}
