/**
 * String operations of the JavaScript runtime that the plugin relies on:
 * `parseInt` on decimal digit runs, number-to-string, `trim`, `split`,
 * `join` and a global single-character `replace`.
 */
module Text {
  import opened Wrappers

  // ---------------------------------------------------------------------
  // Decimal digits
  // ---------------------------------------------------------------------

  /** The regular-expression class `\d`: ASCII decimal digits only. */
  predicate IsDigit(c: char) {
    '0' <= c <= '9'
  }

  predicate AllDigits(s: string) {
    forall i :: 0 <= i < |s| ==> IsDigit(s[i])
  }

  function DigitValue(c: char): (d: nat)
    requires IsDigit(c)
    ensures d < 10
  {
    c as int - '0' as int
  }

  function DigitChar(d: nat): (c: char)
    requires d < 10
    ensures IsDigit(c) && DigitValue(c) == d
  {
    ('0' as int + d) as char
  }

  function Pow10(k: nat): (p: nat)
    ensures p >= 1
  {
    if k == 0 then 1 else 10 * Pow10(k - 1)
  }

  /** The value `parseInt(s, 10)` gives for a run of decimal digits. */
  function DigitsValue(s: string): (n: nat)
    requires AllDigits(s)
    ensures n < Pow10(|s|)
  {
    if s == [] then 0 else DigitsValue(s[..|s| - 1]) * 10 + DigitValue(s[|s| - 1])
  }

  /** The decimal text of a natural number, as template literals print it. */
  function NatToString(n: nat): (s: string)
    ensures |s| > 0 && AllDigits(s)
    ensures DigitsValue(s) == n
  {
    if n < 10 then [DigitChar(n)]
    else
      var s := NatToString(n / 10) + [DigitChar(n % 10)];
      assert s[..|s| - 1] == NatToString(n / 10);
      s
  }

  /** Different numbers print differently. */
  lemma NatToStringInjective(m: nat, n: nat)
    requires NatToString(m) == NatToString(n)
    ensures m == n
  {
  }

  // ---------------------------------------------------------------------
  // length
  // ---------------------------------------------------------------------

  /** `s.length` in JavaScript: UTF-16 code units, two for a character above U+FFFF. */
  function JsLength(s: string): (n: nat)
    ensures |s| <= n <= 2 * |s|
  {
    if s == [] then 0 else JsLength(s[..|s| - 1]) + (if s[|s| - 1] as int > 0xFFFF then 2 else 1)
  }

  /** The length of a concatenation is the sum of the lengths. */
  lemma {:induction false} JsLengthAppend(a: string, b: string)
    ensures JsLength(a + b) == JsLength(a) + JsLength(b)
    decreases |b|
  {
    if b == [] {
      assert a + b == a;
    } else {
      var front := b[..|b| - 1];
      assert (a + b)[..|a + b| - 1] == a + front;
      JsLengthAppend(a, front);
    }
  }

  /** Characters up to U+FFFF count one code unit each. */
  lemma {:induction false} JsLengthBmp(s: string)
    requires forall i :: 0 <= i < |s| ==> s[i] as int <= 0xFFFF
    ensures JsLength(s) == |s|
  {
    if s != [] {
      JsLengthBmp(s[..|s| - 1]);
    }
  }

  /** Characters above U+FFFF count two code units each. */
  lemma {:induction false} JsLengthAstral(s: string)
    requires forall i :: 0 <= i < |s| ==> s[i] as int > 0xFFFF
    ensures JsLength(s) == 2 * |s|
  {
    if s != [] {
      JsLengthAstral(s[..|s| - 1]);
    }
  }

  // ---------------------------------------------------------------------
  // trim
  // ---------------------------------------------------------------------

  /**
   * The characters `String.prototype.trim` removes: the ECMAScript
   * WhiteSpace and LineTerminator productions (Unicode category Zs in
   * full, as of Unicode 15).
   */
  predicate IsJsSpace(c: char) {
    || c == '\t' || c == '\n' || c == '\U{B}' || c == '\U{C}' || c == '\r'
    || c == ' ' || c == '\U{A0}' || c == '\U{1680}'
    || ('\U{2000}' <= c <= '\U{200A}')
    || c == '\U{2028}' || c == '\U{2029}' || c == '\U{202F}'
    || c == '\U{205F}' || c == '\U{3000}' || c == '\U{FEFF}'
  }

  predicate AllSpace(s: string) {
    forall i :: 0 <= i < |s| ==> IsJsSpace(s[i])
  }

  /** The length of the run of white space at the front of `s`. */
  function LeadingSpace(s: string): (k: nat)
    ensures k <= |s| && AllSpace(s[..k]) && (k < |s| ==> !IsJsSpace(s[k]))
    decreases |s|
  {
    if s != [] && IsJsSpace(s[0]) then
      var k := LeadingSpace(s[1..]);
      LeadingStep(s, k);
      k + 1
    else
      0
  }

  /** A run of white space in `s[1..]` after a white-space `s[0]` is one character longer in `s`. */
  lemma LeadingStep(s: string, k: nat)
    requires s != [] && IsJsSpace(s[0]) && k <= |s| - 1 && AllSpace(s[1..][..k])
    requires k < |s| - 1 ==> !IsJsSpace(s[1..][k])
    ensures AllSpace(s[..k + 1]) && (k + 1 < |s| ==> !IsJsSpace(s[k + 1]))
  {
    var front := s[..k + 1];
    var rest := s[1..][..k];
    forall i | 0 <= i < k + 1 ensures IsJsSpace(front[i]) {
      if i > 0 {
        assert front[i] == rest[i - 1];
      }
    }
    if k + 1 < |s| {
      assert s[k + 1] == s[1..][k];
    }
  }

  /** The length of the run of white space at the back of `s`. */
  function TrailingSpace(s: string): (k: nat)
    ensures k <= |s| && AllSpace(s[|s| - k..]) && (k < |s| ==> !IsJsSpace(s[|s| - k - 1]))
    decreases |s|
  {
    if s != [] && IsJsSpace(s[|s| - 1]) then
      var k := TrailingSpace(s[..|s| - 1]);
      TrailingStep(s, k);
      k + 1
    else
      0
  }

  /** A run of white space at the back of `s` without its last character grows by one when that character is white space. */
  lemma TrailingStep(s: string, k: nat)
    requires s != [] && IsJsSpace(s[|s| - 1]) && k <= |s| - 1
    requires AllSpace(s[..|s| - 1][|s| - 1 - k..])
    requires k < |s| - 1 ==> !IsJsSpace(s[..|s| - 1][|s| - 2 - k])
    ensures AllSpace(s[|s| - k - 1..]) && (k + 1 < |s| ==> !IsJsSpace(s[|s| - k - 2]))
  {
    var rest := s[..|s| - 1][|s| - 1 - k..];
    var dropped := s[|s| - k - 1..];
    assert dropped == rest + [s[|s| - 1]];
    forall i | 0 <= i < |dropped| ensures IsJsSpace(dropped[i]) {
      if i < |rest| {
        assert dropped[i] == rest[i];
      }
    }
    if k + 1 < |s| {
      assert s[|s| - k - 2] == s[..|s| - 1][|s| - 2 - k];
    }
  }

  /** `r` is the suffix of `s` after a run of white space, and starts with another character if any. */
  predicate FrontTrimmed(s: string, r: string) {
    |r| <= |s| && r == s[|s| - |r|..] && AllSpace(s[..|s| - |r|]) && (r == [] || !IsJsSpace(r[0]))
  }

  /** `r` is the prefix of `s` before a run of white space, and ends with another character if any. */
  predicate BackTrimmed(s: string, r: string) {
    |r| <= |s| && r == s[..|r|] && AllSpace(s[|r|..]) && (r == [] || !IsJsSpace(r[|r| - 1]))
  }

  /** Drops leading white space: the result is the suffix that starts at the first other character. */
  function TrimStart(s: string): (r: string)
    ensures FrontTrimmed(s, r)
  {
    s[LeadingSpace(s)..]
  }

  /** Drops trailing white space: the result is the prefix that ends at the last other character. */
  function TrimEnd(s: string): (r: string)
    ensures BackTrimmed(s, r)
  {
    s[..|s| - TrailingSpace(s)]
  }

  /** `s.trim()`. */
  function Trim(s: string): (r: string)
    ensures |r| <= |s|
    ensures r == [] <==> AllSpace(s)
    ensures r != [] ==> !IsJsSpace(r[0]) && !IsJsSpace(r[|r| - 1])
  {
    var t := TrimStart(s);
    var r := TrimEnd(t);
    TrimBoth(s, t, r);
    r
  }

  /** Trimming both ends leaves nothing exactly when all is white space, and otherwise starts and ends with another character. */
  lemma TrimBoth(s: string, t: string, r: string)
    requires FrontTrimmed(s, t) && BackTrimmed(t, r)
    ensures r == [] <==> AllSpace(s)
    ensures r != [] ==> !IsJsSpace(r[0]) && !IsJsSpace(r[|r| - 1])
  {
    var front := s[..|s| - |t|];
    assert s == front + t;
    AllSpaceConcat(front, t);
    var back := t[|r|..];
    assert t == r + back;
    AllSpaceConcat(r, back);
    if r != [] {
      assert r[0] == t[0];
    }
  }

  /** A concatenation is all white space exactly when both parts are. */
  lemma AllSpaceConcat(a: string, b: string)
    ensures AllSpace(a + b) <==> AllSpace(a) && AllSpace(b)
  {
    if AllSpace(a + b) {
      forall i | 0 <= i < |b| ensures IsJsSpace(b[i]) {
        assert b[i] == (a + b)[|a| + i];
      }
      forall i | 0 <= i < |a| ensures IsJsSpace(a[i]) {
        assert a[i] == (a + b)[i];
      }
    }
  }

  /** `r` is the slice of `s` from `k` with only white space before and after it. */
  predicate SpaceAround(s: string, r: string, k: nat) {
    k + |r| <= |s| && r == s[k..k + |r|] && AllSpace(s[..k]) && AllSpace(s[k + |r|..])
  }

  /**
   * `Trim` removes white space at both ends and nothing else: the result
   * is the slice of `s` between a run of white space at the front and
   * one at the back.
   */
  lemma TrimSlice(s: string)
    ensures SpaceAround(s, Trim(s), |s| - |TrimStart(s)|)
  {
    var t := TrimStart(s);
    SliceOfSuffix(s, t, TrimEnd(t));
  }

  /** A prefix `r` of the suffix `t` of `s` is the slice of `s` that starts where `t` does. */
  lemma SliceOfSuffix(s: string, t: string, r: string)
    requires FrontTrimmed(s, t) && BackTrimmed(t, r)
    ensures SpaceAround(s, r, |s| - |t|)
  {
    var k := |s| - |t|;
    assert s[k + |r|..] == t[|r|..];
  }

  // ---------------------------------------------------------------------
  // Occurrences, split, join
  // ---------------------------------------------------------------------

  predicate OccursAt(s: string, pat: string, k: int) {
    0 <= k && k + |pat| <= |s| && s[k..k + |pat|] == pat
  }

  /** `s` holds no occurrence of `pat` anywhere. */
  predicate Free(s: string, pat: string) {
    forall k :: 0 <= k <= |s| ==> !OccursAt(s, pat, k)
  }

  /** `s.indexOf(pat, from)`, with `None` for -1. */
  function IndexOfFrom(s: string, pat: string, from: nat): (r: Option<nat>)
    requires |pat| > 0
    decreases |s| - from
    ensures r.Some? ==> from <= r.value && r.value + |pat| <= |s|
  {
    if from + |pat| > |s| then None
    else if s[from..from + |pat|] == pat then Some(from)
    else IndexOfFrom(s, pat, from + 1)
  }

  /** The search finds the first occurrence at or after `from`, and finds none only when there is none. */
  lemma {:induction false} IndexOfFromSpec(s: string, pat: string, from: nat)
    requires |pat| > 0
    ensures IndexOfFrom(s, pat, from).Some? ==>
              OccursAt(s, pat, IndexOfFrom(s, pat, from).value)
              && forall k :: from <= k < IndexOfFrom(s, pat, from).value ==> !OccursAt(s, pat, k)
    ensures IndexOfFrom(s, pat, from).None? ==> forall k :: from <= k ==> !OccursAt(s, pat, k)
    decreases |s| - from
  {
    if from + |pat| <= |s| && s[from..from + |pat|] != pat {
      IndexOfFromSpec(s, pat, from + 1);
    }
  }

  /** The search from `from` finds the first occurrence at or after `from`. */
  lemma {:induction false} IndexOfFromFirst(s: string, pat: string, from: nat, i: nat)
    requires |pat| > 0 && from <= i && OccursAt(s, pat, i)
    requires forall k :: from <= k < i ==> !OccursAt(s, pat, k)
    ensures IndexOfFrom(s, pat, from) == Some(i)
    decreases i - from
  {
    if from < i {
      assert !OccursAt(s, pat, from);
      IndexOfFromFirst(s, pat, from + 1, i);
    }
  }

  /**
   * `s.split(sep)` for a non-empty separator string: the pieces between
   * the non-overlapping occurrences of `sep`, found left to right.
   * Every split has at least one piece.
   */
  function Split(s: string, sep: string): (parts: seq<string>)
    requires |sep| > 0
    decreases |s|
    ensures |parts| >= 1
  {
    match IndexOfFrom(s, sep, 0)
    case None => [s]
    case Some(i) => [s[..i]] + Split(s[i + |sep|..], sep)
  }

  /** No piece of a split holds the separator. */
  lemma {:induction false} SplitPiecesFree(s: string, sep: string)
    requires |sep| > 0
    ensures forall j :: 0 <= j < |Split(s, sep)| ==> Free(Split(s, sep)[j], sep)
    decreases |s|
  {
    IndexOfFromSpec(s, sep, 0);
    match IndexOfFrom(s, sep, 0)
    case None =>
      assert Free(s, sep);
    case Some(i) =>
      var head := s[..i];
      assert Free(head, sep) by {
        forall k ensures !OccursAt(head, sep, k) {
          if 0 <= k && k + |sep| <= |head| {
            assert k < i && !OccursAt(s, sep, k);
            assert head[k..k + |sep|] == s[k..k + |sep|];
          }
        }
      }
      var rest := s[i + |sep|..];
      SplitPiecesFree(rest, sep);
      assert Split(s, sep) == [head] + Split(rest, sep);
      forall j | 0 <= j < |Split(s, sep)| ensures Free(Split(s, sep)[j], sep) {
        if j > 0 {
          assert Split(s, sep)[j] == Split(rest, sep)[j - 1];
        }
      }
  }

  /** Splitting at the first separator: the piece before it, then the split of the rest. */
  lemma SplitAt(s: string, sep: string, i: nat)
    requires |sep| > 0 && IndexOfFrom(s, sep, 0) == Some(i)
    ensures Split(s, sep) == [s[..i]] + Split(s[i + |sep|..], sep)
  {
  }

  /** `parts.join(sep)`. */
  function Join(parts: seq<string>, sep: string): string {
    if parts == [] then ""
    else if |parts| == 1 then parts[0]
    else parts[0] + sep + Join(parts[1..], sep)
  }

  /** Joining the pieces with the separator gives back the string. */
  lemma {:induction false} JoinSplit(s: string, sep: string)
    requires |sep| > 0
    ensures Join(Split(s, sep), sep) == s
    decreases |s|
  {
    IndexOfFromSpec(s, sep, 0);
    match IndexOfFrom(s, sep, 0)
    case None =>
      assert Split(s, sep) == [s];
    case Some(i) =>
      var rest := s[i + |sep|..];
      SplitAt(s, sep, i);
      JoinCons(s[..i], Split(rest, sep), sep);
      JoinSplit(rest, sep);
      AroundOccurrence(s, sep, i);
  }

  /** Joining a piece in front of at least one more puts the separator between them. */
  lemma JoinCons(head: string, tail: seq<string>, sep: string)
    requires |tail| >= 1
    ensures Join([head] + tail, sep) == head + sep + Join(tail, sep)
  {
    assert ([head] + tail)[1..] == tail;
  }

  /** A string is what comes before an occurrence, the occurrence, and what follows it. */
  lemma AroundOccurrence(s: string, pat: string, i: nat)
    requires OccursAt(s, pat, i)
    ensures s == s[..i] + pat + s[i + |pat|..]
  {
    assert s == s[..i] + s[i..i + |pat|] + s[i + |pat|..];
  }

  /** The concatenation of a list of strings (`parts.join('')`). */
  function Concat(parts: seq<string>): string {
    if parts == [] then "" else parts[0] + Concat(parts[1..])
  }

  lemma {:induction false} ConcatAppend(a: seq<string>, b: seq<string>)
    ensures Concat(a + b) == Concat(a) + Concat(b)
  {
    if a == [] {
      assert a + b == b;
    } else {
      assert (a + b)[0] == a[0];
      assert (a + b)[1..] == a[1..] + b;
      ConcatAppend(a[1..], b);
    }
  }

  // ---------------------------------------------------------------------
  // Global replace by one character
  // ---------------------------------------------------------------------

  /**
   * `s.replace(/pat/g, c)` for a literal pattern and a one-character
   * replacement: occurrences are taken leftmost first and do not overlap.
   */
  function ReplaceAll(s: string, pat: string, c: char): string
    requires |pat| > 0
    decreases |s|
  {
    if s == [] then []
    else if OccursAt(s, pat, 0) then [c] + ReplaceAll(s[|pat|..], pat, c)
    else [s[0]] + ReplaceAll(s[1..], pat, c)
  }

  /** Up to the first replacement character, the output copies the input. */
  lemma {:induction false} ReplaceAllPrefix(s: string, pat: string, c: char, k: nat)
    requires |pat| > 0
    ensures k <= |ReplaceAll(s, pat, c)| && (forall j :: 0 <= j < k ==> ReplaceAll(s, pat, c)[j] != c)
            ==> k <= |s| && ReplaceAll(s, pat, c)[..k] == s[..k]
    decreases |s|
  {
    var out := ReplaceAll(s, pat, c);
    if k == 0 {
    } else if s == [] {
      assert out == [];
    } else if OccursAt(s, pat, 0) {
      assert out[0] == c;
    } else {
      var r := ReplaceAll(s[1..], pat, c);
      assert out == [s[0]] + r;
      if k <= |out| && forall j :: 0 <= j < k ==> out[j] != c {
        forall j | 0 <= j < k - 1 ensures r[j] != c {
          assert r[j] == out[j + 1];
        }
        ReplaceAllPrefix(s[1..], pat, c, k - 1);
        assert out[..k] == [s[0]] + r[..k - 1];
        assert s[..k] == [s[0]] + s[1..][..k - 1];
      }
    }
  }

  /** An occurrence past the first character is an occurrence in the rest. */
  lemma OccursAfterHead(x: char, t: string, q: string, k: nat)
    requires k >= 1
    ensures OccursAt([x] + t, q, k) ==> OccursAt(t, q, k - 1)
  {
    if OccursAt([x] + t, q, k) {
      assert ([x] + t)[k..k + |q|] == t[k - 1..k - 1 + |q|];
    }
  }

  /** A string free of `q` has every suffix free of `q`. */
  lemma FreeSuffix(s: string, n: nat, q: string)
    requires n <= |s| && Free(s, q)
    ensures Free(s[n..], q)
  {
    forall k | 0 <= k <= |s| - n ensures !OccursAt(s[n..], q, k) {
      if k + |q| <= |s| - n {
        assert s[n..][k..k + |q|] == s[k + n..k + n + |q|];
        assert !OccursAt(s, q, k + n);
      }
    }
  }

  /**
   * When `s` does not start with `pat`, a window at the start of the
   * output that avoids `c` was already at the start of `s`.
   */
  lemma ReplaceAllFirstWindow(s: string, pat: string, c: char, q: string)
    requires |pat| > 0 && |q| > 0 && c !in q
    requires s != [] && !OccursAt(s, pat, 0)
    ensures OccursAt(ReplaceAll(s, pat, c), q, 0) ==> OccursAt(s, q, 0)
  {
    var r := ReplaceAll(s, pat, c);
    var rt := ReplaceAll(s[1..], pat, c);
    assert r == [s[0]] + rt;
    if OccursAt(r, q, 0) {
      forall j | 0 <= j < |q| - 1 ensures rt[j] != c {
        assert rt[j] == r[j + 1] == q[j + 1];
      }
      ReplaceAllPrefix(s[1..], pat, c, |q| - 1);
      assert s[..|q|] == [s[0]] + s[1..][..|q| - 1];
      assert r[..|q|] == [r[0]] + rt[..|q| - 1];
    }
  }

  /**
   * After replacing every `pat` by a character `c` that does not occur in
   * `q`: no `pat` is left (take `q == pat`), and no `q` appears that was
   * not there before.
   */
  lemma {:induction false} ReplaceAllFree(s: string, pat: string, c: char, q: string)
    requires |pat| > 0 && |q| > 0 && c !in q
    requires q == pat || Free(s, q)
    ensures Free(ReplaceAll(s, pat, c), q)
    decreases |s|
  {
    if s != [] {
      var starts := OccursAt(s, pat, 0);
      var n := if starts then |pat| else 1;
      var tail := s[n..];
      var r := ReplaceAll(s, pat, c);
      var rt := ReplaceAll(tail, pat, c);
      assert r == [if starts then c else s[0]] + rt;
      if q != pat {
        FreeSuffix(s, n, q);
      }
      ReplaceAllFree(tail, pat, c, q);
      forall k | 0 <= k <= |r| ensures !OccursAt(r, q, k) {
        if k >= 1 {
          assert !OccursAt(rt, q, k - 1);
          OccursAfterHead(r[0], rt, q, k);
        } else if starts {
          assert r[0] == c;
        } else {
          ReplaceAllFirstWindow(s, pat, c, q);
        }
      }
    }
  }

  /** A string with no occurrence of the pattern comes back unchanged. */
  lemma {:induction false} ReplaceAllUnchanged(s: string, pat: string, c: char)
    requires |pat| > 0 && Free(s, pat)
    ensures ReplaceAll(s, pat, c) == s
    decreases |s|
  {
    if s != [] {
      assert !OccursAt(s, pat, 0);
      FreeSuffix(s, 1, pat);
      ReplaceAllUnchanged(s[1..], pat, c);
      assert s == [s[0]] + s[1..];
    }
  }

  /**
   * The first occurrence, after a stretch `x` in which none starts, becomes
   * `c`: `x` is copied and the replacement goes on after the occurrence.
   */
  lemma {:induction false} ReplaceAllSplice(x: string, pat: string, y: string, c: char)
    requires |pat| > 0
    requires forall k :: 0 <= k < |x| ==> !OccursAt(x + pat + y, pat, k)
    ensures ReplaceAll(x + pat + y, pat, c) == x + [c] + ReplaceAll(y, pat, c)
    decreases |x|
  {
    var s := x + pat + y;
    if x == [] {
      assert s == pat + y && s[..|pat|] == pat && s[|pat|..] == y;
      assert OccursAt(s, pat, 0);
    } else {
      assert !OccursAt(s, pat, 0);
      var t := x[1..] + pat + y;
      assert s == [x[0]] + t;
      forall k | 0 <= k < |x[1..]| ensures !OccursAt(t, pat, k) {
        assert !OccursAt(s, pat, k + 1);
        if k + |pat| <= |t| {
          assert s[k + 1..k + 1 + |pat|] == t[k..k + |pat|];
        }
      }
      ReplaceAllSplice(x[1..], pat, y, c);
      assert s[1..] == t;
    }
  }

  // ---------------------------------------------------------------------
  // Line terminators
  // ---------------------------------------------------------------------

  /** The characters the regular-expression `.` does not match. */
  predicate IsLineTerminator(c: char) {
    c == '\n' || c == '\r' || c == '\U{2028}' || c == '\U{2029}'
  }

  /** The longest prefix without a line terminator: what a greedy `(.*)` captures. */
  function UntilLineTerminator(s: string): (r: string)
    ensures |r| <= |s| && r == s[..|r|]
    ensures forall i :: 0 <= i < |r| ==> !IsLineTerminator(r[i])
    ensures |r| < |s| ==> IsLineTerminator(s[|r|])
  {
    if s == [] || IsLineTerminator(s[0]) then [] else [s[0]] + UntilLineTerminator(s[1..])
  }
}
