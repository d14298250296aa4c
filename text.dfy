/**
 * The Python `str` operations the webhook relies on, over `string`, a
 * sequence of Unicode scalar values. A Python `str` may also hold lone
 * surrogates (U+D800 to U+DFFF), which a Dafny `char` cannot.
 */
module Text {

  /** `s.startswith(p)` */
  predicate StartsWith(s: string, p: string) {
    |p| <= |s| && s[..|p|] == p
  }

  /** `s.endswith(p)` */
  predicate EndsWith(s: string, p: string) {
    |p| <= |s| && s[|s| - |p|..] == p
  }

  /**
   * How Python resolves a slice bound `i` against a length `n`: a negative
   * bound counts from the end, and the result is clamped into 0..n.
   */
  function SliceBound(i: int, n: nat): (b: nat)
    ensures b <= n
    ensures 0 <= i <= n ==> b == i
    ensures -(n as int) <= i < 0 ==> b == n + i
    ensures i < -(n as int) ==> b == 0
    ensures i > n ==> b == n
  {
    if i < 0 then (if i + n < 0 then 0 else i + n)
    else if i > n then n
    else i
  }

  /** `s[start:stop]`: never fails, and is empty when the bounds cross. */
  function PySlice(s: string, start: int, stop: int): string {
    var lo, hi := SliceBound(start, |s|), SliceBound(stop, |s|);
    if lo < hi then s[lo..hi] else ""
  }

  /** `s[k:-m]` drops `k` characters at the front and `m` at the back. */
  lemma PySliceDropBoth(s: string, k: nat, m: nat)
    requires m > 0
    ensures PySlice(s, k, -(m as int)) == if k + m <= |s| then s[k..|s| - m] else ""
  {
  }

  /** The substring test `t in s`: `t` occurs at position `i` of `s`. */
  predicate OccursAt(s: string, t: string, i: nat) {
    i + |t| <= |s| && s[i..i + |t|] == t
  }

  predicate Contains(s: string, t: string) {
    exists i | 0 <= i <= |s| :: OccursAt(s, t, i)
  }

  /** `s.replace('/', '')` */
  function StripSlashes(s: string): (r: string)
    ensures '/' !in r
  {
    if s == [] then ""
    else (if s[0] == '/' then "" else [s[0]]) + StripSlashes(s[1..])
  }

  /** Removing slashes commutes with concatenation. */
  lemma {:induction false} StripSlashesAppend(a: string, b: string)
    ensures StripSlashes(a + b) == StripSlashes(a) + StripSlashes(b)
  {
    if a == [] {
      assert a + b == b;
    } else {
      var head := if a[0] == '/' then "" else [a[0]];
      assert (a + b)[0] == a[0];
      assert (a + b)[1..] == a[1..] + b;
      assert StripSlashes(a + b) == head + StripSlashes(a[1..] + b);
      StripSlashesAppend(a[1..], b);
      assert StripSlashes(a) == head + StripSlashes(a[1..]);
    }
  }

  /** A text without slashes is left as it is. */
  lemma {:induction false} StripSlashesFixed(s: string)
    requires '/' !in s
    ensures StripSlashes(s) == s
  {
    if s != [] {
      StripSlashesFixed(s[1..]);
    }
  }

  lemma StripSlashesIdempotent(s: string)
    ensures StripSlashes(StripSlashes(s)) == StripSlashes(s)
  {
    StripSlashesFixed(StripSlashes(s));
  }

  lemma DropLeadingSlash(b: string)
    ensures StripSlashes(['/'] + b) == StripSlashes(b)
  {
    assert (['/'] + b)[1..] == b;
  }

  /** The separator between base and quote asset disappears. */
  lemma StripOneSlash(a: string, b: string)
    requires '/' !in a && '/' !in b
    ensures StripSlashes(a + "/" + b) == a + b
  {
    DropLeadingSlash(b);
    StripSlashesAppend(a, ['/'] + b);
    StripSlashesFixed(a);
    StripSlashesFixed(b);
    assert a + "/" + b == a + (['/'] + b);
  }

  /** Python's `str.isspace()` for one character: the separators `split()` uses. */
  predicate IsSpace(c: char) {
    || c == ' ' || ('\t' <= c <= '\r') || ('\U{1C}' <= c <= '\U{1F}')
    || c == '\U{85}' || c == '\U{A0}' || c == '\U{1680}'
    || ('\U{2000}' <= c <= '\U{200A}') || c == '\U{2028}' || c == '\U{2029}'
    || c == '\U{202F}' || c == '\U{205F}' || c == '\U{3000}'
  }

  /** The length of the run of non-space characters at the start of `s`. */
  function WordLength(s: string): (n: nat)
    ensures n <= |s|
    ensures forall i | 0 <= i < n :: !IsSpace(s[i])
    ensures n == |s| || IsSpace(s[n])
  {
    if s == [] || IsSpace(s[0]) then 0 else 1 + WordLength(s[1..])
  }

  /** `s.split()`: the maximal runs of non-space characters, in order. */
  function Words(s: string): (ws: seq<string>)
    decreases |s|
  {
    if s == [] then []
    else if IsSpace(s[0]) then Words(s[1..])
    else
      var n := WordLength(s);
      [s[..n]] + Words(s[n..])
  }

  predicate AllSpace(s: string) {
    forall i | 0 <= i < |s| :: IsSpace(s[i])
  }

  /**
   * s[i..j] is the last word of `s`: a run of non-space characters, bounded
   * by a space (or the start) on the left, with only spaces after it.
   */
  predicate LastWordAt(s: string, i: nat, j: nat) {
    && i < j <= |s|
    && (forall k | i <= k < j :: !IsSpace(s[k]))
    && (i == 0 || IsSpace(s[i - 1]))
    && (forall k | j <= k < |s| :: IsSpace(s[k]))
  }

  ghost predicate IsLastWord(s: string, w: string) {
    exists i: nat, j: nat | LastWordAt(s, i, j) :: s[i..j] == w
  }

  lemma LastWordNotAllSpace(s: string, w: string)
    requires IsLastWord(s, w)
    ensures !AllSpace(s)
  {
    var i: nat, j: nat :| LastWordAt(s, i, j) && s[i..j] == w;
    assert !IsSpace(s[i]);
  }

  /** `s.split()` is empty exactly when `s` holds nothing but spaces. */
  lemma {:induction false} WordsEmpty(s: string)
    ensures Words(s) == [] <==> AllSpace(s)
    decreases |s|
  {
    if s != [] && IsSpace(s[0]) {
      WordsEmpty(s[1..]);
      assert forall i | 1 <= i < |s| :: s[i] == s[1..][i - 1];
    }
  }

  lemma LastWordAtShift(s: string, n: nat, i: nat, j: nat)
    requires n <= |s| && LastWordAt(s[n..], i, j)
    requires n == 0 || IsSpace(s[n - 1]) || (n < |s| && IsSpace(s[n]))
    ensures LastWordAt(s, n + i, n + j) && s[n + i..n + j] == s[n..][i..j]
  {
    var t := s[n..];
    assert forall k | n <= k < |s| :: s[k] == t[k - n];
  }

  lemma WordsOfSpace(s: string)
    requires s != [] && IsSpace(s[0])
    ensures Words(s) == Words(s[1..])
  {
  }

  lemma WordsOfWord(s: string)
    requires s != [] && !IsSpace(s[0])
    ensures WordLength(s) > 0
    ensures Words(s) == [s[..WordLength(s)]] + Words(s[WordLength(s)..])
  {
  }

  /** Where the last element of `s.split()` sits in `s`. */
  lemma {:induction false} LastOfWordsAt(s: string) returns (i: nat, j: nat)
    requires Words(s) != []
    ensures LastWordAt(s, i, j) && s[i..j] == Last(Words(s))
    decreases |s|, 1
  {
    if IsSpace(s[0]) {
      i, j := LastOfWordsAfterSpace(s);
    } else {
      i, j := LastOfWordsAfterWord(s);
    }
  }

  lemma {:induction false} LastOfWordsAfterSpace(s: string) returns (i: nat, j: nat)
    requires Words(s) != [] && IsSpace(s[0])
    ensures LastWordAt(s, i, j) && s[i..j] == Last(Words(s))
    decreases |s|, 0
  {
    WordsOfSpace(s);
    i, j := LastOfWordsAt(s[1..]);
    LastWordAtShift(s, 1, i, j);
    i, j := 1 + i, 1 + j;
  }

  lemma {:induction false} LastOfWordsAfterWord(s: string) returns (i: nat, j: nat)
    requires Words(s) != [] && !IsSpace(s[0])
    ensures LastWordAt(s, i, j) && s[i..j] == Last(Words(s))
    decreases |s|, 0
  {
    WordsOfWord(s);
    var n := WordLength(s);
    if Words(s[n..]) == [] {
      SoleWordIsLast(s);
      i, j := 0, n;
    } else {
      LastAppend([s[..n]], Words(s[n..]));
      i, j := LastOfWordsAt(s[n..]);
      LastWordAtShift(s, n, i, j);
      i, j := n + i, n + j;
    }
  }

  /** A leading word followed only by spaces is the last word. */
  lemma SoleWordIsLast(s: string)
    requires s != [] && !IsSpace(s[0]) && Words(s[WordLength(s)..]) == []
    ensures var n := WordLength(s);
      LastWordAt(s, 0, n) && s[0..n] == Last(Words(s))
  {
    var n := WordLength(s);
    WordsOfWord(s);
    WordsEmpty(s[n..]);
    assert s[0..n] == s[..n];
  }

  function Last<T>(xs: seq<T>): T
    requires xs != []
  {
    xs[|xs| - 1]
  }

  lemma LastAppend<T>(xs: seq<T>, ys: seq<T>)
    requires ys != []
    ensures Last(xs + ys) == Last(ys)
  {
  }

  /** The last element of `s.split()` is the last word of `s`. */
  lemma LastOfWords(s: string)
    requires Words(s) != []
    ensures IsLastWord(s, Words(s)[|Words(s)| - 1])
  {
    var i, j := LastOfWordsAt(s);
    assert s[i..j] == Words(s)[|Words(s)| - 1];
  }

  /** A string has at most one last word. */
  lemma LastWordUnique(s: string, w1: string, w2: string)
    requires IsLastWord(s, w1) && IsLastWord(s, w2)
    ensures w1 == w2
  {
    var i1: nat, j1: nat :| LastWordAt(s, i1, j1) && s[i1..j1] == w1;
    var i2: nat, j2: nat :| LastWordAt(s, i2, j2) && s[i2..j2] == w2;
    LastWordAtUnique(s, i1, j1, i2, j2);
  }

  lemma LastWordAtUnique(s: string, i1: nat, j1: nat, i2: nat, j2: nat)
    requires LastWordAt(s, i1, j1) && LastWordAt(s, i2, j2)
    ensures i1 == i2 && j1 == j2
  {
    assert !IsSpace(s[j1 - 1]) && !IsSpace(s[j2 - 1]);
  }

  /** `s.split(c)[0]`: everything before the first `c`, or all of `s`. */
  function BeforeFirst(s: string, c: char): (r: string)
    ensures |r| <= |s| && r == s[..|r|]
    ensures c !in r
    ensures |r| < |s| ==> s[|r|] == c
  {
    if s == [] || s[0] == c then "" else [s[0]] + BeforeFirst(s[1..], c)
  }

  /** The text before the first `c` is the prefix up to a `c` with none before it. */
  lemma BeforeFirstAt(s: string, c: char, n: nat)
    requires n < |s| && s[n] == c && c !in s[..n]
    ensures BeforeFirst(s, c) == s[..n]
  {
    assert forall k | 0 <= k < n :: s[..n][k] == s[k];
  }

  /** `str.upper()` on ASCII letters; every other character is left alone. */
  function UpperChar(c: char): char {
    if 'a' <= c <= 'z' then (c as int - 32) as char else c
  }

  function Upper(s: string): (r: string)
    ensures |r| == |s|
    ensures forall i | 0 <= i < |s| :: r[i] == UpperChar(s[i])
  {
    if s == [] then "" else [UpperChar(s[0])] + Upper(s[1..])
  }
}
