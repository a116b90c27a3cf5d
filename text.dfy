/**
 * The JavaScript string operations the dashboard relies on, on `seq<char>`:
 * `toLowerCase` (ASCII letters only), `includes`, `startsWith`, `trim`,
 * `split` on one character, `Array.prototype.join`, `Number.prototype.toString`
 * for integers and the global `parseInt` without a radix argument.
 */
module Text {
  import opened Wrappers

  // ---------------------------------------------------------------------------
  // toLowerCase

  /** ASCII lower-casing of one character; every other character is kept. */
  function LowerChar(c: char): char {
    if 'A' <= c <= 'Z' then (c as int - 'A' as int + 'a' as int) as char else c
  }

  /** `s.toLowerCase()`, restricted to the ASCII letters. */
  function ToLower(s: string): (r: string)
    ensures |r| == |s|
    ensures forall i :: 0 <= i < |s| ==> r[i] == LowerChar(s[i])
  {
    if s == [] then [] else [LowerChar(s[0])] + ToLower(s[1..])
  }

  /** Lower-casing twice is lower-casing once. */
  lemma ToLowerIdempotent(s: string)
    ensures ToLower(ToLower(s)) == ToLower(s)
  {
    var once, twice := ToLower(s), ToLower(ToLower(s));
    forall i | 0 <= i < |s| ensures twice[i] == once[i] {
      assert LowerChar(LowerChar(s[i])) == LowerChar(s[i]);
    }
  }

  // ---------------------------------------------------------------------------
  // startsWith / includes

  /** `s.startsWith(prefix)`. */
  predicate StartsWith(s: string, prefix: string) {
    |prefix| <= |s| && s[..|prefix|] == prefix
  }

  /** A prefix agrees with its string on every shorter prefix, so two strings that differ early cannot be prefix and string. */
  lemma DifferEarly(a: string, b: string, n: nat)
    requires n <= |a| && n <= |b| && a[..n] != b[..n]
    ensures !StartsWith(b, a)
  {
  }

  /** `s.includes(sub)`: `sub` starts at some position of `s`. */
  predicate Contains(s: string, sub: string)
    decreases |s|
  {
    StartsWith(s, sub) || (s != [] && Contains(s[1..], sub))
  }

  /** `sub` occurs in `s` starting at index `i`. */
  ghost predicate OccursAt(s: string, sub: string, i: int) {
    0 <= i <= |s| - |sub| && s[i..i + |sub|] == sub
  }

  /** `Contains` finds exactly the occurrences of `sub` at some index of `s`. */
  lemma ContainsOccurrence(s: string, sub: string)
    ensures Contains(s, sub) <==> exists i :: OccursAt(s, sub, i)
  {
    if Contains(s, sub) {
      ContainsHasOccurrence(s, sub);
    }
    if exists i :: OccursAt(s, sub, i) {
      var i :| OccursAt(s, sub, i);
      OccurrenceIsContained(s, sub, i);
    }
  }

  lemma {:induction false} ContainsHasOccurrence(s: string, sub: string)
    requires Contains(s, sub)
    ensures exists i :: OccursAt(s, sub, i)
  {
    if StartsWith(s, sub) {
      assert OccursAt(s, sub, 0);
    } else {
      ContainsHasOccurrence(s[1..], sub);
      var i :| OccursAt(s[1..], sub, i);
      assert s[1..][i..i + |sub|] == s[i + 1..i + 1 + |sub|];
      assert OccursAt(s, sub, i + 1);
    }
  }

  lemma {:induction false} OccurrenceIsContained(s: string, sub: string, i: int)
    requires OccursAt(s, sub, i)
    ensures Contains(s, sub)
  {
    if i > 0 {
      assert s[1..][i - 1..i - 1 + |sub|] == s[i..i + |sub|];
      OccurrenceIsContained(s[1..], sub, i - 1);
    } else {
      assert StartsWith(s, sub);
    }
  }

  /** A string occurs in any text built around it. */
  lemma ContainsInfix(pre: string, x: string, post: string)
    ensures Contains(pre + (x + post), x)
  {
    var s := pre + (x + post);
    assert s[|pre|..|pre| + |x|] == x;
    OccurrenceIsContained(s, x, |pre|);
  }

  /** The same, with the text in front of it given in three parts. */
  lemma ContainsInfixAfter(a: string, b: string, c: string, x: string, post: string)
    ensures Contains(a + (b + (c + (x + post))), x)
  {
    assert a + (b + (c + (x + post))) == (a + b + c) + (x + post);
    ContainsInfix(a + b + c, x, post);
  }

  /** Text put in front of a string keeps every occurrence in it. */
  lemma ContainsAfterPrefix(pre: string, s: string, x: string)
    requires Contains(s, x)
    ensures Contains(pre + s, x)
  {
    ContainsHasOccurrence(s, x);
    var i :| OccursAt(s, x, i);
    assert (pre + s)[|pre| + i..|pre| + i + |x|] == s[i..i + |x|];
    OccurrenceIsContained(pre + s, x, |pre| + i);
  }

  // ---------------------------------------------------------------------------
  // trim

  /** The characters `String.prototype.trim` removes: white space and line terminators. */
  predicate IsWhitespace(c: char) {
    || c == '\t' || c == '\n' || c == '\U{000B}' || c == '\U{000C}' || c == '\r' || c == ' '
    || c == '\U{00A0}' || c == '\U{1680}' || ('\U{2000}' <= c <= '\U{200A}')
    || c == '\U{2028}' || c == '\U{2029}' || c == '\U{202F}' || c == '\U{205F}'
    || c == '\U{3000}' || c == '\U{FEFF}'
  }

  /** `s.trimStart()`. */
  function TrimStart(s: string): string {
    if s != [] && IsWhitespace(s[0]) then TrimStart(s[1..]) else s
  }

  /** What `trimStart` removes is a run of white space, and what it keeps starts with something else. */
  lemma {:induction false} TrimStartRemovesBlankPrefix(s: string)
    ensures |TrimStart(s)| <= |s| && TrimStart(s) == s[|s| - |TrimStart(s)|..]
    ensures TrimStart(s) == [] || !IsWhitespace(TrimStart(s)[0])
    ensures forall i :: 0 <= i < |s| - |TrimStart(s)| ==> IsWhitespace(s[i])
  {
    if s != [] && IsWhitespace(s[0]) {
      TrimStartRemovesBlankPrefix(s[1..]);
      forall i | 1 <= i < |s| - |TrimStart(s)| ensures IsWhitespace(s[i]) {
        assert s[i] == s[1..][i - 1];
      }
    }
  }

  /** `s.trimEnd()`. */
  function TrimEnd(s: string): string {
    if s != [] && IsWhitespace(s[|s| - 1]) then TrimEnd(s[..|s| - 1]) else s
  }

  /** What `trimEnd` removes is a run of white space at the end; a string starting with something else keeps it. */
  lemma {:induction false} TrimEndRemovesBlankSuffix(s: string)
    ensures |TrimEnd(s)| <= |s| && TrimEnd(s) == s[..|TrimEnd(s)|]
    ensures forall i :: |TrimEnd(s)| <= i < |s| ==> IsWhitespace(s[i])
    ensures s != [] && !IsWhitespace(s[0]) ==> TrimEnd(s) != []
    ensures TrimEnd(s) == [] || !IsWhitespace(TrimEnd(s)[|TrimEnd(s)| - 1])
  {
    if s != [] && IsWhitespace(s[|s| - 1]) {
      var t := s[..|s| - 1];
      TrimEndRemovesBlankSuffix(t);
      forall i | |TrimEnd(s)| <= i < |s| - 1 ensures IsWhitespace(s[i]) {
        assert s[i] == t[i];
      }
      if !IsWhitespace(s[0]) && |s| > 1 {
        assert t[0] == s[0];
      }
    }
  }

  /** `s.trim()`. */
  function Trim(s: string): (r: string)
    ensures |r| <= |s|
    ensures r == [] || (!IsWhitespace(r[0]) && !IsWhitespace(r[|r| - 1]))
  {
    TrimStartRemovesBlankPrefix(s);
    TrimEndRemovesBlankSuffix(TrimStart(s));
    TrimEnd(TrimStart(s))
  }

  /** `!s.trim()` holds exactly for the strings made only of white space (the empty one included). */
  lemma TrimEmptyIffBlank(s: string)
    ensures Trim(s) == [] <==> forall i :: 0 <= i < |s| ==> IsWhitespace(s[i])
  {
    var t := TrimStart(s);
    TrimStartRemovesBlankPrefix(s);
    TrimEndRemovesBlankSuffix(t);
    if t != [] {
      assert !IsWhitespace(s[|s| - |t|]);
    }
  }

  // ---------------------------------------------------------------------------
  // split / join

  /** `s.split(c)` for a one-character separator: the pieces between the separators. */
  function Split(s: string, c: char): (r: seq<string>)
    ensures |r| >= 1
    ensures forall k :: 0 <= k < |r| ==> c !in r[k]
  {
    if s == [] then [[]]
    else
      var rest := Split(s[1..], c);
      if s[0] == c then [[]] + rest else [[s[0]] + rest[0]] + rest[1..]
  }

  /** `xs.join(sep)`. */
  function Join(xs: seq<string>, sep: string): (r: string)
    ensures xs != [] ==> StartsWith(r, xs[0])
    ensures |xs| > 1 ==> StartsWith(r, xs[0] + sep)
  {
    if xs == [] then []
    else if |xs| == 1 then xs[0]
    else xs[0] + sep + Join(xs[1..], sep)
  }

  /** Joining the pieces of a split with the separator gives back the string. */
  lemma {:induction false} JoinSplit(s: string, c: char)
    ensures Join(Split(s, c), [c]) == s
  {
    if s != [] {
      var rest := Split(s[1..], c);
      JoinSplit(s[1..], c);
      if s[0] == c {
        assert Split(s, c)[1..] == rest;
      } else {
        var pieces := Split(s, c);
        assert pieces[0] == [s[0]] + rest[0] && pieces[1..] == rest[1..];
        if |rest| > 1 {
          assert Join(rest, [c]) == rest[0] + [c] + Join(rest[1..], [c]);
        }
      }
    }
  }

  /** The first piece of a split is the text before the first separator, or all of it when there is none. */
  lemma SplitHead(s: string, c: char)
    ensures |Split(s, c)[0]| <= |s| && s[..|Split(s, c)[0]|] == Split(s, c)[0]
    ensures |Split(s, c)[0]| < |s| ==> s[|Split(s, c)[0]|] == c
    ensures |Split(s, c)[0]| == |s| <==> c !in s
  {
    var xs := Split(s, c);
    JoinSplit(s, c);
    if |xs| > 1 {
      assert s == xs[0] + [c] + Join(xs[1..], [c]);
      assert s[|xs[0]|] == c;
    }
  }

  /** A piece without the separator splits to itself. */
  lemma {:induction false} SplitWithout(a: string, c: char)
    requires c !in a
    ensures Split(a, c) == [a]
  {
    if a != [] {
      assert c !in a[1..];
      SplitWithout(a[1..], c);
      assert [a[0]] + a[1..] == a;
    }
  }

  /** A separator after a first piece without separators starts a new piece. */
  lemma {:induction false} SplitAfterPiece(a: string, b: string, c: char)
    requires c !in a
    ensures Split(a + [c] + b, c) == [a] + Split(b, c)
  {
    if a == [] {
      assert (a + [c] + b)[1..] == b;
    } else {
      assert (a + [c] + b)[1..] == a[1..] + [c] + b;
      SplitAfterPiece(a[1..], b, c);
      assert [a[0]] + a[1..] == a;
    }
  }

  /** Splitting a join of separator-free pieces gives back the pieces. */
  lemma {:induction false} SplitJoin(xs: seq<string>, c: char)
    requires xs != []
    requires forall k :: 0 <= k < |xs| ==> c !in xs[k]
    ensures Split(Join(xs, [c]), c) == xs
  {
    if |xs| == 1 {
      SplitWithout(xs[0], c);
    } else {
      var tail := xs[1..];
      forall k | 0 <= k < |tail| ensures c !in tail[k] {
        assert tail[k] == xs[k + 1];
      }
      SplitJoin(tail, c);
      var rest := Join(tail, [c]);
      assert Join(xs, [c]) == xs[0] + [c] + rest;
      SplitAfterPiece(xs[0], rest, c);
      assert [xs[0]] + tail == xs;
    }
  }

  // ---------------------------------------------------------------------------
  // Number.prototype.toString and parseInt

  /** The decimal digit character for `d`. */
  function DigitChar(d: nat): char
    requires d < 10
  {
    ('0' as int + d) as char
  }

  /** The value of `c` as a digit in radix 36; 36 for a character that is no digit at all. */
  function DigitValue(c: char): nat {
    if '0' <= c <= '9' then c as int - '0' as int
    else if 'a' <= c <= 'z' then c as int - 'a' as int + 10
    else if 'A' <= c <= 'Z' then c as int - 'A' as int + 10
    else 36
  }

  /** The decimal numeral of `n`, with no leading zero. */
  function NatToString(n: nat): (r: string)
    ensures |r| >= 1
    ensures forall i :: 0 <= i < |r| ==> '0' <= r[i] <= '9'
    ensures r[0] == '0' ==> r == "0"
  {
    if n < 10 then [DigitChar(n)] else NatToString(n / 10) + [DigitChar(n % 10)]
  }

  /** `n.toString()` for an integer `n`. */
  function IntToString(n: int): string {
    if n < 0 then "-" + NatToString(-n) else NatToString(n)
  }

  /** The longest prefix of `s` made of digits of `radix`. */
  function DigitPrefix(s: string, radix: nat): (r: string)
    ensures |r| <= |s| && r == s[..|r|]
    ensures forall i :: 0 <= i < |r| ==> DigitValue(r[i]) < radix
    ensures |r| < |s| ==> DigitValue(s[|r|]) >= radix
  {
    if s != [] && DigitValue(s[0]) < radix then [s[0]] + DigitPrefix(s[1..], radix) else []
  }

  /** The number a string of digits denotes in `radix`, most significant digit first. */
  function DigitsValue(ds: string, radix: nat): nat {
    if ds == [] then 0 else DigitsValue(ds[..|ds| - 1], radix) * radix + DigitValue(ds[|ds| - 1])
  }

  /** The sign `parseInt` reads after the leading white space. */
  function SignOf(s: string): int {
    var t := TrimStart(s);
    if t != [] && t[0] == '-' then -1 else 1
  }

  /** The text after the leading white space and one sign character. */
  function Unsigned(s: string): string {
    var t := TrimStart(s);
    if t != [] && (t[0] == '-' || t[0] == '+') then t[1..] else t
  }

  /** `u` starts with `0x` or `0X`. */
  predicate HasHexPrefix(u: string) {
    |u| >= 2 && u[0] == '0' && (u[1] == 'x' || u[1] == 'X')
  }

  /** The radix `parseInt` settles on: 16 after a hex prefix, 10 otherwise. */
  function RadixOf(s: string): nat {
    if HasHexPrefix(Unsigned(s)) then 16 else 10
  }

  /** The text in which `parseInt` looks for digits. */
  function DigitsPart(s: string): string {
    var u := Unsigned(s);
    if HasHexPrefix(u) then u[2..] else u
  }

  /**
   * `parseInt(s)` without a radix: leading white space is skipped, one sign is
   * read, a `0x`/`0X` prefix selects radix 16, and the longest run of digits
   * that follows is the value; with no digits the result is NaN (`None`).
   */
  function ParseInt(s: string): (n: Option<int>)
    ensures n.None? <==> DigitsPart(s) == [] || DigitValue(DigitsPart(s)[0]) >= RadixOf(s)
    ensures n.Some? && SignOf(s) == 1 ==> n.value >= 0
  {
    var digits := DigitPrefix(DigitsPart(s), RadixOf(s));
    if digits == [] then None else Some(SignOf(s) * DigitsValue(digits, RadixOf(s)))
  }

  /** The decimal numeral of `n` denotes `n`. */
  lemma {:induction false} NatToStringValue(n: nat)
    ensures DigitsValue(NatToString(n), 10) == n
  {
    if n >= 10 {
      var r, q, d := NatToString(n), n / 10, n % 10;
      NatToStringValue(q);
      assert r == NatToString(q) + [DigitChar(d)];
      assert r[..|r| - 1] == NatToString(q);
      assert DigitValue(r[|r| - 1]) == d;
      assert DigitsValue(r, 10) == q * 10 + d;
    }
  }

  /** The whole decimal numeral of `n` is read as digits. */
  lemma NatToStringAllDigits(n: nat)
    ensures DigitPrefix(NatToString(n), 10) == NatToString(n)
  {
    var r := NatToString(n);
    assert forall i :: 0 <= i < |r| ==> DigitValue(r[i]) < 10;
    DigitPrefixOfDigits(r, 10);
  }

  lemma {:induction false} DigitPrefixOfDigits(s: string, radix: nat)
    requires forall i :: 0 <= i < |s| ==> DigitValue(s[i]) < radix
    ensures DigitPrefix(s, radix) == s
  {
    if s != [] {
      DigitPrefixOfDigits(s[1..], radix);
    }
  }

  /** What `parseInt` sees of a numeral `toString` wrote: its sign, radix 10 and the digits. */
  lemma IntToStringParts(n: int)
    ensures SignOf(IntToString(n)) * (if n < 0 then -n else n) == n
    ensures RadixOf(IntToString(n)) == 10
    ensures DigitsPart(IntToString(n)) == NatToString(if n < 0 then -n else n)
  {
    var s := IntToString(n);
    assert !IsWhitespace(s[0]);
    assert TrimStart(s) == s;
    if n < 0 {
      assert s[1..] == NatToString(-n);
    }
  }

  /** `parseInt` reads back what `toString` writes for every integer. */
  lemma ParseIntToString(n: int)
    ensures ParseInt(IntToString(n)) == Some(n)
  {
    NatToStringValue(if n < 0 then -n else n);
    NatToStringAllDigits(if n < 0 then -n else n);
    IntToStringParts(n);
  }
}
