/** The JavaScript string operations the modelled code relies on: `trim`,
    `\s`, `indexOf`, `lastIndexOf`, `startsWith`, `includes`, `join`,
    `split` on one character, and decimal rendering and reading of numbers.
    Characters are Unicode scalar values. */
module JsText {

  /** JavaScript's WhiteSpace and LineTerminator characters: exactly what
      `String.prototype.trim` removes and what `\s` matches in a regular expression. */
  predicate IsWhitespace(c: char) {
    || c == '\t' || c == '\n' || c == '\U{B}' || c == '\U{C}' || c == '\r' || c == ' '
    || c == '\U{A0}' || c == '\U{1680}' || ('\U{2000}' <= c <= '\U{200A}')
    || c == '\U{2028}' || c == '\U{2029}' || c == '\U{202F}' || c == '\U{205F}'
    || c == '\U{3000}' || c == '\U{FEFF}'
  }

  predicate AllWhitespace(s: string) {
    forall i :: 0 <= i < |s| ==> IsWhitespace(s[i])
  }

  /** The length of the longest whitespace prefix of `s`. */
  function LeadingBlank(s: string): (n: nat)
    ensures n <= |s| && AllWhitespace(s[..n])
    ensures n == |s| || !IsWhitespace(s[n])
  {
    if s != [] && IsWhitespace(s[0]) then
      var n := LeadingBlank(s[1..]) + 1;
      assert s[..n] == [s[0]] + s[1..][..n - 1];
      n
    else 0
  }

  /** The length left once the longest whitespace suffix of `s` is dropped. */
  function KeptLength(s: string): (n: nat)
    ensures n <= |s| && AllWhitespace(s[n..])
    ensures n == 0 || !IsWhitespace(s[n - 1])
  {
    if s != [] && IsWhitespace(s[|s| - 1]) then
      var n := KeptLength(s[..|s| - 1]);
      assert s[n..] == s[..|s| - 1][n..] + [s[|s| - 1]];
      n
    else |s|
  }

  /** `trimStart`: drop the longest whitespace prefix. */
  function TrimStart(s: string): (r: string)
    ensures |r| <= |s|
    ensures r == [] || !IsWhitespace(r[0])
  {
    s[LeadingBlank(s)..]
  }

  /** `trimEnd`: drop the longest whitespace suffix. */
  function TrimEnd(s: string): (r: string)
    ensures |r| <= |s|
    ensures r == [] || !IsWhitespace(r[|r| - 1])
  {
    s[..KeptLength(s)]
  }

  /** `String.prototype.trim`: the slice of `s` left after removing
      whitespace at both ends. */
  function Trim(s: string): (r: string)
    ensures |r| <= |s|
    ensures r == [] || (!IsWhitespace(r[0]) && !IsWhitespace(r[|r| - 1]))
    ensures exists k :: 0 <= k <= |s| - |r| && r == s[k..k + |r|]
                        && AllWhitespace(s[..k]) && AllWhitespace(s[k + |r|..])
  {
    var k := LeadingBlank(s);
    var t := TrimStart(s);
    var r := TrimEnd(t);
    assert r == s[k..k + |r|] && s[k + |r|..] == t[|r|..];
    r
  }

  /** Every character of a slice is a character of the whole. */
  lemma SliceChars(s: string, i: int, j: int, c: char)
    requires 0 <= i <= j <= |s|
    requires c in s[i..j]
    ensures c in s
  {
    var k :| 0 <= k < j - i && s[i..j][k] == c;
    assert s[i + k] == c;
  }

  /** A character absent from a prefix differs from each of its positions. */
  lemma NotInPrefix(s: string, c: char, k: int)
    requires 0 <= k <= |s| && c !in s[..k]
    ensures forall i :: 0 <= i < k ==> s[i] != c
  {
    assert forall i :: 0 <= i < k ==> s[i] == s[..k][i];
  }

  /** A character absent from a suffix differs from each of its positions. */
  lemma NotInSuffix(s: string, c: char, k: int)
    requires 0 <= k <= |s| && c !in s[k..]
    ensures forall i :: k <= i < |s| ==> s[i] != c
  {
    assert forall i :: k <= i < |s| ==> s[i] == s[k..][i - k];
  }

  /** The empty string is what trimming leaves of a blank string, and only of one. */
  lemma TrimEmptyIffBlank(s: string)
    ensures Trim(s) == [] <==> AllWhitespace(s)
  {
    var n := LeadingBlank(s);
    var t := TrimStart(s);
    assert s[..|s|] == s && t[0..] == t;
    assert n < |s| ==> t[0] == s[n];
  }

  /** Trimming the start of a blank string leaves nothing. */
  lemma TrimStartBlank(s: string)
    requires AllWhitespace(s)
    ensures TrimStart(s) == []
  {
  }

  lemma {:induction false} LeadingBlankConcat(x: string, y: string)
    requires y != [] && !IsWhitespace(y[0])
    ensures LeadingBlank(x + y) == LeadingBlank(x)
  {
    if x == [] {
      assert x + y == y;
    } else if IsWhitespace(x[0]) {
      assert (x + y)[1..] == x[1..] + y;
      LeadingBlankConcat(x[1..], y);
    } else {
      assert (x + y)[0] == x[0];
    }
  }

  /** TrimStart runs through a whitespace-free boundary untouched. */
  lemma TrimStartConcat(x: string, y: string)
    requires y != [] && !IsWhitespace(y[0])
    ensures TrimStart(x + y) == TrimStart(x) + y
  {
    LeadingBlankConcat(x, y);
    assert (x + y)[LeadingBlank(x)..] == x[LeadingBlank(x)..] + y;
  }

  lemma {:induction false} KeptLengthConcat(x: string, y: string)
    requires x != [] && !IsWhitespace(x[|x| - 1])
    ensures KeptLength(x + y) == |x| + KeptLength(y)
    decreases |y|
  {
    if y == [] {
      assert x + y == x;
    } else if IsWhitespace(y[|y| - 1]) {
      assert (x + y)[..|x + y| - 1] == x + y[..|y| - 1];
      KeptLengthConcat(x, y[..|y| - 1]);
    } else {
      assert (x + y)[|x + y| - 1] == y[|y| - 1];
    }
  }

  /** TrimEnd runs through a whitespace-free boundary untouched. */
  lemma TrimEndConcat(x: string, y: string)
    requires x != [] && !IsWhitespace(x[|x| - 1])
    ensures TrimEnd(x + y) == x + TrimEnd(y)
  {
    KeptLengthConcat(x, y);
    assert (x + y)[..|x| + KeptLength(y)] == x + y[..KeptLength(y)];
  }

  /** `s.startsWith(p)`. */
  predicate StartsWith(s: string, p: string) {
    |p| <= |s| && s[..|p|] == p
  }

  /** A string starts with any of its prefixes. */
  lemma StartsWithConcat(a: string, b: string)
    ensures StartsWith(a + b, a)
  {
    assert (a + b)[..|a|] == a;
  }

  /** Lower-case mapping on ASCII letters; other characters are unchanged. */
  function AsciiLower(c: char): char {
    if 'A' <= c <= 'Z' then (c as int + 32) as char else c
  }

  /** `s` starts with the lower-case ASCII word `p`, letters compared without case. */
  predicate StartsWithIgnoringCase(s: string, p: string) {
    |p| <= |s| && forall i :: 0 <= i < |p| ==> AsciiLower(s[i]) == p[i]
  }

  /** `s.indexOf(c)`: the first position of `c`, or -1. */
  function IndexOf(s: string, c: char): (r: int)
    ensures -1 <= r < |s|
    ensures r == -1 ==> forall j :: 0 <= j < |s| ==> s[j] != c
    ensures r >= 0 ==> s[r] == c && forall j :: 0 <= j < r ==> s[j] != c
  {
    if s == [] then -1
    else if s[0] == c then 0
    else
      var k := IndexOf(s[1..], c);
      if k == -1 then -1 else k + 1
  }

  /** `s.lastIndexOf(c)`: the last position of `c`, or -1. */
  function LastIndexOf(s: string, c: char): (r: int)
    ensures -1 <= r < |s|
    ensures r == -1 ==> forall j :: 0 <= j < |s| ==> s[j] != c
    ensures r >= 0 ==> s[r] == c && forall j :: r < j < |s| ==> s[j] != c
  {
    if s == [] then -1
    else if s[|s| - 1] == c then |s| - 1
    else LastIndexOf(s[..|s| - 1], c)
  }

  /** `indexOf` finds `c` exactly when `c` is in the string. */
  lemma IndexOfFinds(s: string, c: char)
    ensures IndexOf(s, c) == -1 <==> c !in s
    ensures LastIndexOf(s, c) == -1 <==> c !in s
  {
  }

  /** The whitespace prefix is the one up to the first non-whitespace character. */
  lemma LeadingBlankUnique(t: string, m: int)
    requires 0 <= m <= |t| && AllWhitespace(t[..m]) && (m == |t| || !IsWhitespace(t[m]))
    ensures LeadingBlank(t) == m
  {
    var n := LeadingBlank(t);
    assert forall j :: 0 <= j < m ==> IsWhitespace(t[j]) by {
      assert forall j :: 0 <= j < m ==> t[..m][j] == t[j];
    }
    assert forall j :: 0 <= j < n ==> IsWhitespace(t[j]) by {
      assert forall j :: 0 <= j < n ==> t[..n][j] == t[j];
    }
  }

  /** A position holding `c` with no `c` before it is what `indexOf` returns. */
  lemma IndexOfUnique(s: string, c: char, r: int)
    requires 0 <= r < |s| && s[r] == c && forall j :: 0 <= j < r ==> s[j] != c
    ensures IndexOf(s, c) == r
  {
  }

  /** The first `c` after a stretch without one is found at the stretch's end. */
  lemma IndexOfConcat(x: string, c: char, y: string)
    requires c !in x
    ensures IndexOf(x + [c] + y, c) == |x|
  {
    assert forall j :: 0 <= j < |x| ==> x[j] in x;
    IndexOfUnique(x + [c] + y, c, |x|);
  }

  /** The last `c` before a stretch without one is found just before it. */
  lemma {:induction false} LastIndexOfConcat(x: string, c: char, y: string)
    requires c !in y
    ensures LastIndexOf(x + [c] + y, c) == |x|
    decreases |y|
  {
    var s := x + [c] + y;
    if y != [] {
      assert s[..|s| - 1] == x + [c] + y[..|y| - 1];
      assert y[|y| - 1] in y;
      assert c !in y[..|y| - 1] by {
        assert forall i :: 0 <= i < |y| - 1 ==> y[..|y| - 1][i] == y[i];
      }
      LastIndexOfConcat(x, c, y[..|y| - 1]);
    }
  }

  /** `sub` occurs in `s` at position `i`. */
  predicate OccursAt(s: string, sub: string, i: int) {
    0 <= i <= |s| - |sub| && s[i..i + |sub|] == sub
  }

  /** `s.includes(sub)`. */
  predicate Contains(s: string, sub: string) {
    exists i | 0 <= i <= |s| - |sub| :: OccursAt(s, sub, i)
  }

  /** `xs.join(sep)`. */
  function Join(xs: seq<string>, sep: string): string {
    if |xs| == 0 then ""
    else if |xs| == 1 then xs[0]
    else xs[0] + sep + Join(xs[1..], sep)
  }

  /** `s.split(c)` for a one-character separator: the pieces between the
      occurrences of `c`. */
  function Split(s: string, c: char): (parts: seq<string>)
    ensures |parts| >= 1
    decreases |s|
  {
    var k := IndexOf(s, c);
    if k == -1 then [s] else [s[..k]] + Split(s[k + 1..], c)
  }

  /** No piece holds the separator. */
  predicate PiecesFree(parts: seq<string>, c: char)
    decreases |parts|
  {
    |parts| == 0 || (c !in parts[0] && PiecesFree(parts[1..], c))
  }

  /** The pieces `split` returns hold no separator. */
  lemma {:induction false} SplitPiecesFree(s: string, c: char)
    ensures PiecesFree(Split(s, c), c)
    decreases |s|
  {
    var k := IndexOf(s, c);
    if k == -1 {
      WholePieceFree(s, c);
    } else {
      SplitPiecesFree(s[k + 1..], c);
    }
  }

  lemma WholePieceFree(s: string, c: char)
    requires IndexOf(s, c) == -1
    ensures PiecesFree(Split(s, c), c)
  {
    IndexOfFinds(s, c);
    SplitNoSeparator(s, c);
  }

  /** Joining the pieces with the separator gives back the text. */
  lemma {:induction false} SplitJoin(s: string, c: char)
    ensures Join(Split(s, c), [c]) == s
    decreases |s|
  {
    var k := IndexOf(s, c);
    if k == -1 {
      IndexOfFinds(s, c);
      SplitNoSeparator(s, c);
    } else {
      SplitJoin(s[k + 1..], c);
      SplitAtFirst(s, c, k);
      JoinCons(s[..k], Split(s[k + 1..], c), [c]);
      Rejoin(s, c, k);
    }
  }

  lemma Rejoin(s: string, c: char, k: int)
    requires 0 <= k < |s| && s[k] == c
    ensures s == s[..k] + [c] + s[k + 1..]
  {
  }

  /** Joining a piece in front of at least one more adds it and the separator. */
  lemma JoinCons(h: string, t: seq<string>, sep: string)
    requires |t| >= 1
    ensures Join([h] + t, sep) == h + sep + Join(t, sep)
  {
    assert ([h] + t)[1..] == t;
  }

  /** A text without the separator is one piece. */
  lemma SplitNoSeparator(w: string, c: char)
    requires c !in w
    ensures Split(w, c) == [w]
  {
    IndexOfFinds(w, c);
  }

  /** Splitting cuts at the first separator. */
  lemma SplitAtFirst(s: string, c: char, k: int)
    requires 0 <= k < |s| && IndexOf(s, c) == k
    ensures Split(s, c) == [s[..k]] + Split(s[k + 1..], c)
  {
  }

  lemma SlicesOfAppend(v: string, x: string, k: nat)
    requires k < |v|
    ensures (v + x)[..k] == v[..k] && (v + x)[k + 1..] == v[k + 1..] + x
  {
  }

  /** Appending a separator and a piece without one adds that piece. */
  lemma {:induction false} SplitAppend(v: string, c: char, w: string)
    requires c !in w
    ensures Split(v + ([c] + w), c) == Split(v, c) + [w]
    decreases |v|
  {
    var k := IndexOf(v, c);
    if k == -1 {
      SplitAppendPlain(v, c, w);
    } else {
      SplitAppend(v[k + 1..], c, w);
      SplitCutAppend(v, [c] + w, c, k);
      SplitAtFirst(v, c, k);
      ConsAppend(Split(v + ([c] + w), c), Split(v, c), v[..k], Split(v[k + 1..] + ([c] + w), c),
                 Split(v[k + 1..], c), w);
    }
  }

  lemma SplitAppendPlain(v: string, c: char, w: string)
    requires c !in w && IndexOf(v, c) == -1
    ensures Split(v + ([c] + w), c) == Split(v, c) + [w]
  {
    var s := v + ([c] + w);
    SplitNoSeparator(w, c);
    IndexOfFinds(v, c);
    SplitNoSeparator(v, c);
    assert v + [c] + w == s;
    IndexOfConcat(v, c, w);
    assert s[..|v|] == v && s[|v| + 1..] == w;
    SplitAtFirst(s, c, |v|);
  }

  /** Splitting text with something appended cuts at the same first separator. */
  lemma SplitCutAppend(v: string, x: string, c: char, k: int)
    requires 0 <= k < |v| && IndexOf(v, c) == k
    ensures Split(v + x, c) == [v[..k]] + Split(v[k + 1..] + x, c)
  {
    IndexOfExtends(v, x, c);
    SlicesOfAppend(v, x, k);
    SplitAtFirst(v + x, c, k);
  }

  lemma ConsAppend(a: seq<string>, b: seq<string>, h: string, ta: seq<string>, tb: seq<string>, w: string)
    requires a == [h] + ta && b == [h] + tb && ta == tb + [w]
    ensures a == b + [w]
  {
  }

  /** A found character stays the first one whatever is appended. */
  lemma IndexOfExtends(v: string, x: string, c: char)
    requires IndexOf(v, c) >= 0
    ensures IndexOf(v + x, c) == IndexOf(v, c)
  {
    var k := IndexOf(v, c);
    assert forall j :: 0 <= j <= k ==> (v + x)[j] == v[j];
    IndexOfUnique(v + x, c, k);
  }

  predicate IsDigit(c: char) { '0' <= c <= '9' }

  /** A (possibly empty) run of ASCII decimal digits. */
  predicate IsDigits(s: string) {
    forall i :: 0 <= i < |s| ==> IsDigit(s[i])
  }

  /** The value of a run of decimal digits; the empty run reads as 0,
      as `Number("")` does. */
  function DigitsValue(s: string): nat
    requires IsDigits(s)
  {
    if s == [] then 0
    else DigitsValue(s[..|s| - 1]) * 10 + (s[|s| - 1] as int - '0' as int)
  }

  function DigitChar(d: nat): char
    requires d < 10
  {
    ('0' as int + d) as char
  }

  /** The decimal rendering of a natural number, as `String(n)` gives it. */
  function NatToString(n: nat): (r: string)
    ensures r != [] && IsDigits(r)
  {
    if n < 10 then [DigitChar(n)]
    else NatToString(n / 10) + [DigitChar(n % 10)]
  }

  /** `String(i)` for an integer. */
  function IntToString(i: int): string {
    if i < 0 then "-" + NatToString(-i) else NatToString(i)
  }

  /** Reading back a rendered number gives the number. */
  lemma {:induction false} DigitsRoundTrip(n: nat)
    ensures DigitsValue(NatToString(n)) == n
  {
    if n >= 10 {
      var s := NatToString(n);
      assert s[..|s| - 1] == NatToString(n / 10);
      DigitsRoundTrip(n / 10);
    }
  }

  /** Distinct numbers render differently. */
  lemma NatToStringInjective(a: nat, b: nat)
    requires NatToString(a) == NatToString(b)
    ensures a == b
  {
    DigitsRoundTrip(a);
    DigitsRoundTrip(b);
  }
}
