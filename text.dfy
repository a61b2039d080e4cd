/**
 * The Python string operations the pipeline relies on, restricted to what
 * the scripts use: ASCII case mapping (`str.lower`, `str.title`),
 * `str.strip`, `str.replace` of one character, `str.join`, the `in`
 * substring test and decimal rendering of integers (plain and with the
 * `,` thousands separator of the format mini-language).
 */
module Text {

  // ---------------------------------------------------------------------
  // Characters

  predicate IsAsciiUpper(c: char) { 'A' <= c <= 'Z' }

  predicate IsAsciiLower(c: char) { 'a' <= c <= 'z' }

  /** The cased characters of the model: ASCII letters. */
  predicate IsAsciiLetter(c: char) { IsAsciiUpper(c) || IsAsciiLower(c) }

  predicate IsDigit(c: char) { '0' <= c <= '9' }

  function ToLowerChar(c: char): char
  {
    if IsAsciiUpper(c) then (c as int + 32) as char else c
  }

  function ToUpperChar(c: char): char
  {
    if IsAsciiLower(c) then (c as int - 32) as char else c
  }

  /** The characters for which Python's `str.isspace` holds; `str.strip` removes them. */
  predicate IsSpace(c: char)
  {
    var n := c as int;
    n == 0x20 || 0x09 <= n <= 0x0D || 0x1C <= n <= 0x1F || n == 0x85 || n == 0xA0
    || n == 0x1680 || 0x2000 <= n <= 0x200A || n == 0x2028 || n == 0x2029
    || n == 0x202F || n == 0x205F || n == 0x3000
  }

  // ---------------------------------------------------------------------
  // Prefixes, suffixes and substrings

  predicate StartsWith(s: string, prefix: string) { prefix <= s }

  predicate EndsWith(s: string, suffix: string)
  {
    |suffix| <= |s| && s[|s| - |suffix|..] == suffix
  }

  /** A string built as `a + b + c` starts with `a` and ends with `c`. */
  lemma Affixes(a: string, b: string, c: string)
    ensures StartsWith(a + b + c, a) && EndsWith(a + b + c, c)
  {
    assert (a + b + c)[..|a|] == a;
    assert (a + b + c)[|a + b + c| - |c|..] == c;
  }

  predicate OccursAt(s: string, sub: string, i: int)
  {
    0 <= i <= |s| - |sub| && s[i..i + |sub|] == sub
  }

  /** Python's `sub in s`. */
  predicate Contains(s: string, sub: string)
  {
    exists i | 0 <= i <= |s| - |sub| :: OccursAt(s, sub, i)
  }

  /** A string found inside `b` is found inside any string that has `b` as an infix. */
  lemma ContainsInfix(a: string, b: string, c: string, sub: string)
    requires Contains(b, sub)
    ensures Contains(a + b + c, sub)
  {
    var i :| 0 <= i <= |b| - |sub| && OccursAt(b, sub, i);
    var s := a + b + c;
    assert s[|a| + i..|a| + i + |sub|] == b[i..i + |sub|];
    assert OccursAt(s, sub, |a| + i);
  }

  /** A substring of a substring is a substring. */
  lemma ContainsTransitive(s: string, mid: string, sub: string)
    requires Contains(s, mid) && Contains(mid, sub)
    ensures Contains(s, sub)
  {
    var i :| 0 <= i <= |s| - |mid| && OccursAt(s, mid, i);
    var j :| 0 <= j <= |mid| - |sub| && OccursAt(mid, sub, j);
    assert forall t :: 0 <= t < |sub| ==> s[i + j + t] == s[i..i + |mid|][j + t] == sub[t];
    assert OccursAt(s, sub, i + j);
  }

  lemma ContainsItself(a: string, b: string, c: string)
    ensures Contains(a + b + c, b)
  {
    assert OccursAt(b, b, 0);
    ContainsInfix(a, b, c, b);
  }

  // ---------------------------------------------------------------------
  // Case mapping

  /** `str.lower` on the ASCII range; other characters are left as they are. */
  function Lower(s: string): (r: string)
    ensures |r| == |s|
  {
    seq(|s|, i requires 0 <= i < |s| => ToLowerChar(s[i]))
  }

  lemma LowerConcat(a: string, b: string)
    ensures Lower(a + b) == Lower(a) + Lower(b)
  {
    assert forall i :: 0 <= i < |a + b| ==> Lower(a + b)[i] == (Lower(a) + Lower(b))[i];
  }

  lemma LowerSlice(s: string, i: int, j: int)
    requires 0 <= i <= j <= |s|
    ensures Lower(s)[i..j] == Lower(s[i..j])
  {
  }

  /** Case-insensitive search finds whatever exact search finds. */
  lemma ContainsLower(s: string, sub: string)
    requires Contains(s, sub)
    ensures Contains(Lower(s), Lower(sub))
  {
    var i :| 0 <= i <= |s| - |sub| && OccursAt(s, sub, i);
    LowerSlice(s, i, i + |sub|);
    assert OccursAt(Lower(s), Lower(sub), i);
  }

  /**
   * `str.title` on the ASCII range: a letter is upper-cased when the
   * character before it is not a letter (or it comes first) and
   * lower-cased otherwise; every other character is kept. `prevCased`
   * says whether the character before `s` was a letter.
   */
  function TitleFrom(s: string, prevCased: bool): (r: string)
    ensures |r| == |s|
    decreases |s|
  {
    if s == [] then []
    else
      var c := s[0];
      [if !IsAsciiLetter(c) then c else if prevCased then ToLowerChar(c) else ToUpperChar(c)]
      + TitleFrom(s[1..], IsAsciiLetter(c))
  }

  function Title(s: string): string
  {
    TitleFrom(s, false)
  }

  /** The case a letter of a title-cased string takes, position by position. */
  function TitleCharAt(s: string, i: int, prevCased: bool): char
    requires 0 <= i < |s|
  {
    var before := if i == 0 then prevCased else IsAsciiLetter(s[i - 1]);
    if !IsAsciiLetter(s[i]) then s[i]
    else if before then ToLowerChar(s[i])
    else ToUpperChar(s[i])
  }

  lemma {:induction false} TitleFromAt(s: string, prevCased: bool, i: int)
    requires 0 <= i < |s|
    ensures TitleFrom(s, prevCased)[i] == TitleCharAt(s, i, prevCased)
    decreases i
  {
    if i > 0 {
      TitleFromAt(s[1..], IsAsciiLetter(s[0]), i - 1);
    }
  }

  /**
   * Python's title-casing, stated character by character: a letter is
   * upper-case exactly when it starts a run of letters.
   */
  lemma TitleAt(s: string, i: int)
    requires 0 <= i < |s|
    ensures |Title(s)| == |s|
    ensures IsAsciiLetter(Title(s)[i]) == IsAsciiLetter(s[i])
    ensures !IsAsciiLetter(s[i]) ==> Title(s)[i] == s[i]
    ensures IsAsciiLetter(s[i]) && (i == 0 || !IsAsciiLetter(s[i - 1])) ==> Title(s)[i] == ToUpperChar(s[i])
    ensures IsAsciiLetter(s[i]) && i > 0 && IsAsciiLetter(s[i - 1]) ==> Title(s)[i] == ToLowerChar(s[i])
  {
    TitleFromAt(s, false, i);
  }

  /** Title-casing keeps every character that is not a letter, and never makes one. */
  lemma TitleKeepsNonLetters(s: string)
    ensures |Title(s)| == |s|
    ensures forall i :: 0 <= i < |s| ==> IsAsciiLetter(Title(s)[i]) == IsAsciiLetter(s[i])
    ensures forall i :: 0 <= i < |s| && !IsAsciiLetter(s[i]) ==> Title(s)[i] == s[i]
  {
    forall i | 0 <= i < |s|
      ensures IsAsciiLetter(Title(s)[i]) == IsAsciiLetter(s[i])
      ensures !IsAsciiLetter(s[i]) ==> Title(s)[i] == s[i]
    {
      TitleAt(s, i);
    }
  }

  /** Title-casing changes only case: the lower-cased forms agree. */
  lemma LowerTitle(s: string)
    ensures Lower(Title(s)) == Lower(s)
  {
    forall i | 0 <= i < |s|
      ensures Lower(Title(s))[i] == Lower(s)[i]
    {
      TitleAt(s, i);
    }
  }

  /** Title-casing an already title-cased string changes nothing. */
  lemma TitleIdempotent(s: string)
    ensures Title(Title(s)) == Title(s)
  {
    var t := Title(s);
    forall i | 0 <= i < |s|
      ensures Title(t)[i] == t[i]
    {
      TitleAt(s, i);
      TitleAt(t, i);
      if i > 0 {
        TitleAt(s, i - 1);
      }
    }
  }

  // ---------------------------------------------------------------------
  // Replacing, joining, stripping

  /** `s.replace(from, to)` for single characters. */
  function ReplaceChar(s: string, from: char, to: char): (r: string)
    ensures |r| == |s|
  {
    seq(|s|, i requires 0 <= i < |s| => if s[i] == from then to else s[i])
  }

  /** `sep.join(parts)`. */
  function Join(sep: string, parts: seq<string>): string
  {
    if |parts| == 0 then ""
    else if |parts| == 1 then parts[0]
    else parts[0] + sep + Join(sep, parts[1..])
  }

  /** Every joined part occurs in the result, and the result starts with the first part. */
  lemma {:induction false} JoinContainsParts(sep: string, parts: seq<string>, k: int)
    requires 0 <= k < |parts|
    ensures Contains(Join(sep, parts), parts[k])
    ensures StartsWith(Join(sep, parts), parts[0])
  {
    if |parts| == 1 {
      ContainsItself("", parts[0], "");
      assert "" + parts[0] + "" == parts[0];
    } else {
      var rest := Join(sep, parts[1..]);
      if k == 0 {
        ContainsItself("", parts[0], sep + rest);
        assert "" + parts[0] + (sep + rest) == Join(sep, parts);
      } else {
        JoinContainsParts(sep, parts[1..], k - 1);
        ContainsInfix(parts[0] + sep, rest, "", parts[k]);
        assert parts[0] + sep + rest + "" == Join(sep, parts);
      }
    }
  }

  function LeadingSpaces(s: string): (n: nat)
    ensures n <= |s|
    ensures forall k :: 0 <= k < n ==> IsSpace(s[k])
    ensures n < |s| ==> !IsSpace(s[n])
    decreases |s|
  {
    if s != [] && IsSpace(s[0]) then 1 + LeadingSpaces(s[1..]) else 0
  }

  function TrailingSpaces(s: string): (n: nat)
    ensures n <= |s|
    ensures forall k :: |s| - n <= k < |s| ==> IsSpace(s[k])
    ensures n < |s| ==> !IsSpace(s[|s| - 1 - n])
    decreases |s|
  {
    if s != [] && IsSpace(s[|s| - 1]) then 1 + TrailingSpaces(s[..|s| - 1]) else 0
  }

  /** `str.strip()`: the infix left after removing whitespace at both ends. */
  function Strip(s: string): (r: string)
    ensures r == [] || (!IsSpace(r[0]) && !IsSpace(r[|r| - 1]))
    ensures r == [] <==> forall k :: 0 <= k < |s| ==> IsSpace(s[k])
    ensures Contains(s, r)
    ensures LeadingSpaces(s) + |r| <= |s| && s[LeadingSpaces(s)..LeadingSpaces(s) + |r|] == r
    ensures forall k :: LeadingSpaces(s) + |r| <= k < |s| ==> IsSpace(s[k])
  {
    var i := LeadingSpaces(s);
    var t := s[i..];
    var r := t[..|t| - TrailingSpaces(t)];
    assert s[i..i + |r|] == r;
    assert OccursAt(s, r, i);
    forall k | i + |r| <= k < |s| ensures IsSpace(s[k]) {
      assert s[k] == t[k - i];
    }
    // An all-space tail would have been counted among the leading spaces.
    assert i < |s| ==> r != [] by {
      if i < |s| {
        assert t[0] == s[i];
      }
    }
    r
  }

  // ---------------------------------------------------------------------
  // Decimal rendering

  predicate AllDigits(s: string)
  {
    forall k :: 0 <= k < |s| ==> IsDigit(s[k])
  }

  function DigitChar(d: nat): (c: char)
    requires d < 10
    ensures IsDigit(c)
  {
    "0123456789"[d]
  }

  function DigitValue(c: char): nat
  {
    if IsDigit(c) then c as int - '0' as int else 0
  }

  /** `str(n)` for a non-negative integer. */
  function Digits(n: nat): (r: string)
    ensures |r| >= 1 && AllDigits(r)
    decreases n
  {
    if n < 10 then [DigitChar(n)] else Digits(n / 10) + [DigitChar(n % 10)]
  }

  /** `str(i)` for any integer. */
  function IntStr(i: int): string
  {
    if i < 0 then "-" + Digits(-i) else Digits(i)
  }

  /** The value a string of decimal digits denotes. */
  function DecimalValue(s: string): nat
  {
    if s == [] then 0 else DecimalValue(s[..|s| - 1]) * 10 + DigitValue(s[|s| - 1])
  }

  /** Reading back a rendered number gives the number. */
  lemma {:induction false} DigitsRoundTrip(n: nat)
    ensures DecimalValue(Digits(n)) == n
    decreases n
  {
    if n >= 10 {
      DigitsRoundTrip(n / 10);
      var d := Digits(n);
      assert d[..|d| - 1] == Digits(n / 10);
    }
  }

  /** The last three digits of a number below 1000, zero-padded. */
  function Pad3(r: nat): (p: string)
    requires r < 1000
    ensures |p| == 3 && AllDigits(p)
  {
    [DigitChar(r / 100), DigitChar(r / 10 % 10), DigitChar(r % 10)]
  }

  /** `format(n, ",")` for a non-negative integer: digits grouped in threes from the right. */
  function Grouped(n: nat): (r: string)
    decreases n
  {
    if n < 1000 then Digits(n) else Grouped(n / 1000) + "," + Pad3(n % 1000)
  }

  /** Only zero renders with a leading `0`. */
  lemma {:induction false} DigitsLeading(n: nat)
    ensures Digits(n)[0] == '0' <==> n == 0
    decreases n
  {
    if n >= 10 {
      DigitsLeading(n / 10);
      assert Digits(n)[0] == Digits(n / 10)[0];
    }
  }

  /** Grouping keeps that: only zero is written with a leading `0`. */
  lemma {:induction false} GroupedLeading(n: nat)
    ensures |Grouped(n)| >= 1 && (Grouped(n)[0] == '0' <==> n == 0)
    decreases n
  {
    if n < 1000 {
      DigitsLeading(n);
    } else {
      GroupedLeading(n / 1000);
      assert Grouped(n)[0] == Grouped(n / 1000)[0];
    }
  }

  /** The string with every `,` removed. */
  function Ungroup(s: string): string
  {
    if s == [] then ""
    else Ungroup(s[..|s| - 1]) + (if s[|s| - 1] == ',' then "" else [s[|s| - 1]])
  }

  /** A first group of one to three digits followed by `,`-separated groups of exactly three. */
  predicate WellGrouped(s: string)
    decreases |s|
  {
    || (1 <= |s| <= 3 && AllDigits(s))
    || (|s| >= 5 && s[|s| - 4] == ',' && AllDigits(s[|s| - 3..]) && WellGrouped(s[..|s| - 4]))
  }

  lemma {:induction false} UngroupConcat(a: string, b: string)
    ensures Ungroup(a + b) == Ungroup(a) + Ungroup(b)
    decreases |b|
  {
    if b != [] {
      var b' := b[..|b| - 1];
      assert (a + b)[..|a + b| - 1] == a + b';
      UngroupConcat(a, b');
    } else {
      assert a + b == a;
    }
  }

  lemma {:induction false} UngroupDigits(s: string)
    requires AllDigits(s)
    ensures Ungroup(s) == s
    decreases |s|
  {
    if s != [] {
      UngroupDigits(s[..|s| - 1]);
    }
  }

  lemma DigitsBelow1000(n: nat)
    requires n < 1000
    ensures |Digits(n)| <= 3
  {
    if n >= 10 {
      assert |Digits(n)| == |Digits(n / 10)| + 1;
      if n / 10 >= 10 {
        assert |Digits(n / 10)| == |Digits(n / 10 / 10)| + 1;
        assert n / 10 / 10 < 10;
      }
    }
  }

  /** Appending a digit `b` to `a` gives `n`: the decimal digits of `a`, then `b`. */
  lemma DigitsAppend(a: nat, b: nat, n: nat)
    requires a >= 1 && b < 10 && n == a * 10 + b
    ensures Digits(n) == Digits(a) + [DigitChar(b)]
  {
    assert n / 10 == a && n % 10 == b;
  }

  /** The arithmetic behind splitting off three digits. */
  lemma ThousandsDigits(q: nat, r: nat) returns (n2: nat, n1: nat)
    requires q >= 1 && r < 1000
    ensures n2 == q * 10 + r / 100 && n1 == n2 * 10 + r / 10 % 10 && q * 1000 + r == n1 * 10 + r % 10
    ensures n2 >= 1 && n1 >= 1
  {
    assert r == 100 * (r / 100) + 10 * (r / 10 % 10) + r % 10;
    n2 := q * 10 + r / 100;
    n1 := n2 * 10 + r / 10 % 10;
  }

  /** Splitting off the last three digits of a number of four or more digits. */
  lemma DigitsSplit(q: nat, r: nat)
    requires q >= 1 && r < 1000
    ensures Digits(q * 1000 + r) == Digits(q) + Pad3(r)
  {
    var n2, n1 := ThousandsDigits(q, r);
    DigitsAppend(q, r / 100, n2);
    DigitsAppend(n2, r / 10 % 10, n1);
    DigitsAppend(n1, r % 10, q * 1000 + r);
    assert Digits(q) + [DigitChar(r / 100)] + [DigitChar(r / 10 % 10)] + [DigitChar(r % 10)] == Digits(q) + Pad3(r);
  }

  /** Grouping only inserts separators: removing them gives the plain digits. */
  lemma {:induction false} GroupedUngroup(n: nat)
    ensures Ungroup(Grouped(n)) == Digits(n)
    decreases n
  {
    if n < 1000 {
      UngroupDigits(Digits(n));
    } else {
      var q, r := n / 1000, n % 1000;
      GroupedUngroup(q);
      UngroupConcat(Grouped(q) + ",", Pad3(r));
      UngroupConcat(Grouped(q), ",");
      UngroupDigits(Pad3(r));
      assert Ungroup(",") == "";
      DigitsSplit(q, r);
      assert q * 1000 + r == n;
    }
  }

  /** Every grouped rendering has the separator shape of the `,` format. */
  lemma {:induction false} GroupedWellGrouped(n: nat)
    ensures WellGrouped(Grouped(n))
    decreases n
  {
    if n < 1000 {
      DigitsBelow1000(n);
    } else {
      GroupedWellGrouped(n / 1000);
      var g := Grouped(n);
      assert g[..|g| - 4] == Grouped(n / 1000);
      assert g[|g| - 3..] == Pad3(n % 1000);
    }
  }

  /** Reading back a grouped rendering, separators ignored, gives the number. */
  lemma GroupedRoundTrip(n: nat)
    ensures DecimalValue(Ungroup(Grouped(n))) == n
  {
    GroupedUngroup(n);
    DigitsRoundTrip(n);
  }
}
