/**
 * String rendering and scanning used by the dashboard: decimal and hexadecimal
 * rendering of non-negative integers (JavaScript's `String(n)` and
 * `n.toString(16)`), `padStart`, ASCII case mapping, substring search
 * (`includes`), a code-point ordering of strings (standing for
 * `localeCompare`), and `join`/`split` on one separator character.
 */
module Text {

  // ---------------------------------------------------------------- digits

  predicate IsDigit(c: char) { '0' <= c <= '9' }

  function DigitChar(d: nat): (c: char)
    requires d < 10
    ensures IsDigit(c) && (c as int) - ('0' as int) == d
  {
    (('0' as int) + d) as char
  }

  function DigitValue(c: char): (d: nat)
    requires IsDigit(c)
    ensures d < 10 && DigitChar(d) == c
  {
    (c as int) - ('0' as int)
  }

  /** Decimal rendering without leading zeros, as `String(n)` for a non-negative integer. */
  function DecimalString(n: nat): (s: string)
    ensures |s| >= 1
    ensures forall k :: 0 <= k < |s| ==> IsDigit(s[k])
    ensures n >= 10 <==> |s| >= 2
    decreases n
  {
    if n < 10 then [DigitChar(n)] else DecimalString(n / 10) + [DigitChar(n % 10)]
  }

  /** Reads a string of decimal digits back as a number. */
  function ParseDecimal(s: string): nat
    requires forall k :: 0 <= k < |s| ==> IsDigit(s[k])
    decreases |s|
  {
    if s == [] then 0 else ParseDecimal(s[..|s| - 1]) * 10 + DigitValue(s[|s| - 1])
  }

  /** Parsing undoes decimal rendering. */
  lemma {:induction false} DecimalRoundTrip(n: nat)
    ensures ParseDecimal(DecimalString(n)) == n
    decreases n
  {
    if n >= 10 {
      var s := DecimalString(n);
      assert s[..|s| - 1] == DecimalString(n / 10);
      DecimalRoundTrip(n / 10);
    }
  }

  /** Different numbers render differently. */
  lemma DecimalInjective(m: nat, n: nat)
    requires DecimalString(m) == DecimalString(n)
    ensures m == n
  {
    DecimalRoundTrip(m);
    DecimalRoundTrip(n);
  }

  /** An optional '-' followed by at least one decimal digit. */
  predicate IsNumberText(s: string)
  {
    if s != [] && s[0] == '-' then |s| >= 2 && forall k :: 1 <= k < |s| ==> IsDigit(s[k])
    else s != [] && forall k :: 0 <= k < |s| ==> IsDigit(s[k])
  }

  /** Reads an optionally signed decimal number back. */
  function ParseNumber(s: string): int
    requires IsNumberText(s)
  {
    if s[0] == '-' then -(ParseDecimal(s[1..]) as int) else ParseDecimal(s)
  }

  /**
   * A JavaScript integer rendered in decimal (`${n}`): the text reads back as
   * `n`, and it starts with '-' exactly when `n` is negative.
   */
  function NumberString(n: int): (s: string)
    ensures IsNumberText(s) && ParseNumber(s) == n
    ensures n < 0 <==> s[0] == '-'
  {
    if n >= 0 then
      DecimalRoundTrip(n);
      DecimalString(n)
    else
      var d := DecimalString(-n);
      DecimalRoundTrip(-n);
      assert (['-'] + d)[1..] == d;
      ['-'] + d
  }

  // ------------------------------------------------------------ hexadecimal

  /** The lower-case hexadecimal digit for `d`, as `toString(16)` writes it. */
  function LowerHexDigit(d: nat): char
    requires d < 16
  {
    if d < 10 then DigitChar(d) else (('a' as int) + d - 10) as char
  }

  /** The upper-case hexadecimal digit for `d`. */
  function UpperHexDigit(d: nat): char
    requires d < 16
  {
    if d < 10 then DigitChar(d) else (('A' as int) + d - 10) as char
  }

  lemma UpperHexDigitDistinct(a: nat, b: nat)
    requires a < 16 && b < 16 && a != b
    ensures UpperHexDigit(a) != UpperHexDigit(b)
  {
  }

  /** Lower-case hexadecimal rendering without leading zeros, as `n.toString(16)`. */
  function HexString(n: nat): (s: string)
    ensures |s| >= 1
    ensures n < 16 <==> |s| == 1
    ensures n < 256 <==> |s| <= 2
    decreases n
  {
    if n < 16 then [LowerHexDigit(n)] else HexString(n / 16) + [LowerHexDigit(n % 16)]
  }

  /** `s.padStart(width, fill)`: left-pads with `fill` up to `width` characters. */
  function PadStart(s: string, width: nat, fill: char): (r: string)
    ensures |r| == if |s| >= width then |s| else width
    ensures r[|r| - |s|..] == s
    ensures forall k :: 0 <= k < |r| - |s| ==> r[k] == fill
  {
    if |s| >= width then s else seq(width - |s|, _ => fill) + s
  }

  // ------------------------------------------------------------- ASCII case

  function UpperChar(c: char): (r: char)
    ensures 'a' <= c <= 'z' ==> 'A' <= r <= 'Z'
    ensures !('a' <= c <= 'z') ==> r == c
  {
    if 'a' <= c <= 'z' then (c as int - 32) as char else c
  }

  function LowerChar(c: char): (r: char)
    ensures 'A' <= c <= 'Z' ==> 'a' <= r <= 'z'
    ensures !('A' <= c <= 'Z') ==> r == c
  {
    if 'A' <= c <= 'Z' then (c as int + 32) as char else c
  }

  /**
   * `toLowerCase` restricted to ASCII letters: no upper-case letter remains,
   * every other character is kept in place.
   */
  function Lower(s: string): (r: string)
    ensures |r| == |s|
    ensures forall k :: 0 <= k < |r| ==> !('A' <= r[k] <= 'Z')
    ensures forall k :: 0 <= k < |s| && !('A' <= s[k] <= 'Z') ==> r[k] == s[k]
  {
    seq(|s|, k requires 0 <= k < |s| => LowerChar(s[k]))
  }

  /** Lower-casing twice is lower-casing once. */
  lemma LowerIdempotent(s: string)
    ensures Lower(Lower(s)) == Lower(s)
  {
  }

  /**
   * `toUpperCase` restricted to ASCII letters: no lower-case letter remains,
   * every other character is kept in place, and the text is equal to the
   * original once both are lower-cased.
   */
  function Upper(s: string): (r: string)
    ensures |r| == |s|
    ensures forall k :: 0 <= k < |r| ==> !('a' <= r[k] <= 'z')
    ensures forall k :: 0 <= k < |s| && !('a' <= s[k] <= 'z') ==> r[k] == s[k]
    ensures Lower(r) == Lower(s)
  {
    var r := seq(|s|, k requires 0 <= k < |s| => UpperChar(s[k]));
    assert forall k :: 0 <= k < |s| ==> LowerChar(r[k]) == LowerChar(s[k]);
    r
  }

  // -------------------------------------------------------- substring search

  /** `needle` occurs in `hay` starting at offset `k`. */
  predicate OccursAt(hay: string, needle: string, k: nat)
  {
    k + |needle| <= |hay| && hay[k..k + |needle|] == needle
  }

  /** `hay.includes(needle)`: needle occurs at some offset of hay. */
  function Contains(hay: string, needle: string): (b: bool)
    ensures b <==> exists k: nat :: OccursAt(hay, needle, k)
    decreases |hay|
  {
    if |needle| <= |hay| && hay[..|needle|] == needle then
      assert OccursAt(hay, needle, 0);
      true
    else if hay == [] then
      false
    else
      var b := Contains(hay[1..], needle);
      OccursInTail(hay, needle);
      b
  }

  /** Away from offset 0, the occurrences in `hay` are those in its tail, shifted by one. */
  lemma OccursInTail(hay: string, needle: string)
    requires hay != [] && !OccursAt(hay, needle, 0)
    ensures (exists k: nat :: OccursAt(hay, needle, k)) <==> (exists k: nat :: OccursAt(hay[1..], needle, k))
  {
    if exists k: nat :: OccursAt(hay[1..], needle, k) {
      var k: nat :| OccursAt(hay[1..], needle, k);
      assert hay[k + 1..k + 1 + |needle|] == hay[1..][k..k + |needle|];
      assert OccursAt(hay, needle, k + 1);
    }
    if exists k: nat :: OccursAt(hay, needle, k) {
      var k: nat :| OccursAt(hay, needle, k);
      assert k >= 1;
      assert hay[1..][k - 1..k - 1 + |needle|] == hay[k..k + |needle|];
      assert OccursAt(hay[1..], needle, k - 1);
    }
  }

  /** Every string contains the empty string. */
  lemma ContainsEmpty(hay: string)
    ensures Contains(hay, "")
  {
    assert OccursAt(hay, "", 0);
  }

  // ---------------------------------------------------- code-point ordering

  /**
   * Three-way comparison of strings by code points (negative, zero,
   * positive), standing for `a.localeCompare(b)`.
   */
  function CompareStrings(a: string, b: string): (r: int)
    ensures -1 <= r <= 1
    ensures r == 0 <==> a == b
    decreases |a|
  {
    if a == [] && b == [] then 0
    else if a == [] then -1
    else if b == [] then 1
    else if a[0] < b[0] then -1
    else if a[0] > b[0] then 1
    else
      var r := CompareStrings(a[1..], b[1..]);
      assert r == 0 ==> a == [a[0]] + a[1..] == [b[0]] + b[1..] == b;
      r
  }

  /** Swapping the arguments negates the comparison. */
  lemma {:induction false} CompareAntisymmetric(a: string, b: string)
    ensures CompareStrings(b, a) == -CompareStrings(a, b)
    decreases |a|
  {
    if a != [] && b != [] && a[0] == b[0] {
      CompareAntisymmetric(a[1..], b[1..]);
    }
  }

  /** "At most" by code points is transitive. */
  lemma {:induction false} CompareTransitive(a: string, b: string, c: string)
    requires CompareStrings(a, b) <= 0 && CompareStrings(b, c) <= 0
    ensures CompareStrings(a, c) <= 0
    decreases |a|
  {
    if a != [] && b != [] && c != [] && a[0] == b[0] == c[0] {
      CompareTransitive(a[1..], b[1..], c[1..]);
    }
  }

  // ------------------------------------------------------------ join / split

  /** `parts.join(sep)` for a one-character separator. */
  function Join(parts: seq<string>, sep: char): (s: string)
    decreases |parts|
  {
    if parts == [] then ""
    else if |parts| == 1 then parts[0]
    else parts[0] + [sep] + Join(parts[1..], sep)
  }

  /** `s.split(sep)` for a one-character separator: always at least one part. */
  function Split(s: string, sep: char): (parts: seq<string>)
    ensures |parts| >= 1
    decreases |s|
  {
    if s == [] then [""]
    else if s[0] == sep then [""] + Split(s[1..], sep)
    else
      var rest := Split(s[1..], sep);
      [[s[0]] + rest[0]] + rest[1..]
  }

  /** A string without the separator splits into itself. */
  lemma {:induction false} SplitNoSeparator(p: string, sep: char)
    requires sep !in p
    ensures Split(p, sep) == [p]
    decreases |p|
  {
    if p != [] {
      SplitNoSeparator(p[1..], sep);
      assert [p[0]] + p[1..] == p;
    }
  }

  /** Splitting stops at the first separator. */
  lemma {:induction false} SplitAtFirst(p: string, sep: char, t: string)
    requires sep !in p
    ensures Split(p + [sep] + t, sep) == [p] + Split(t, sep)
    decreases |p|
  {
    if p == [] {
      assert p + [sep] + t == [sep] + t;
      assert ([sep] + t)[1..] == t;
    } else {
      var s := p + [sep] + t;
      assert s[1..] == p[1..] + [sep] + t;
      SplitAtFirst(p[1..], sep, t);
      assert [p[0]] + p[1..] == p;
    }
  }

  /** Splitting undoes joining when no part holds the separator. */
  lemma {:induction false} SplitJoin(parts: seq<string>, sep: char)
    requires |parts| >= 1
    requires forall k :: 0 <= k < |parts| ==> sep !in parts[k]
    ensures Split(Join(parts, sep), sep) == parts
    decreases |parts|
  {
    if |parts| == 1 {
      SplitNoSeparator(parts[0], sep);
    } else {
      SplitJoin(parts[1..], sep);
      SplitAtFirst(parts[0], sep, Join(parts[1..], sep));
      assert [parts[0]] + parts[1..] == parts;
    }
  }

  /** A character that is neither the separator nor in any part is not in the join. */
  lemma {:induction false} JoinAvoids(parts: seq<string>, sep: char, c: char)
    requires c != sep
    requires forall k :: 0 <= k < |parts| ==> c !in parts[k]
    ensures c !in Join(parts, sep)
    decreases |parts|
  {
    if |parts| > 1 {
      JoinAvoids(parts[1..], sep, c);
    }
  }

  /** The first part of a join is the first part of the split, whatever the later parts hold. */
  lemma JoinFirstPart(parts: seq<string>, sep: char)
    requires |parts| >= 1 && sep !in parts[0]
    ensures Split(Join(parts, sep), sep)[0] == parts[0]
  {
    if |parts| == 1 {
      SplitNoSeparator(parts[0], sep);
    } else {
      SplitAtFirst(parts[0], sep, Join(parts[1..], sep));
    }
  }

  /** A join ends with the last part. */
  lemma {:induction false} JoinEndsWithLast(parts: seq<string>, sep: char)
    requires |parts| >= 1
    ensures |Join(parts, sep)| >= |parts[|parts| - 1]|
    ensures Join(parts, sep)[|Join(parts, sep)| - |parts[|parts| - 1]|..] == parts[|parts| - 1]
    decreases |parts|
  {
    if |parts| > 1 {
      JoinEndsWithLast(parts[1..], sep);
    }
  }
}
