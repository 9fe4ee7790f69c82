/**
 * The handful of Python `str` operations and regular-expression character classes that the
 * log-analysis backend relies on, stated over Dafny strings (sequences of Unicode scalar
 * values, so `|s|` is Python's `len(s)`).
 *
 * Character classes:
 * - `IsSpace` is exactly the set of characters for which Python's `str.isspace()` holds,
 *   which is also what `\s` matches in a `str` pattern and what `str.strip()` removes;
 * - `IsDigit` stands for `\d`, restricted to the ASCII digits;
 * - `IsWordChar` stands for `\w`: ASCII letters and digits, `_`, and the CJK unified
 *   ideographs U+4E00..U+9FFF (other Unicode letters and digits are not modelled);
 * - `Lower` and `Upper` fold ASCII letters only (Python's `str.lower()` and `re.IGNORECASE`
 *   also fold non-ASCII letters, which the model does not).
 */
module Text {
  import opened Wrappers

  predicate IsUpperAscii(c: char) { 'A' <= c <= 'Z' }
  predicate IsLowerAscii(c: char) { 'a' <= c <= 'z' }
  predicate IsAsciiLetter(c: char) { IsUpperAscii(c) || IsLowerAscii(c) }
  predicate IsDigit(c: char) { '0' <= c <= '9' }
  predicate IsAsciiAlnum(c: char) { IsAsciiLetter(c) || IsDigit(c) }

  /** A character of the CJK unified ideographs block, `[一-鿿]`. */
  predicate IsCjk(c: char) { '一' <= c <= '鿿' }

  /** `\w` as modelled: ASCII alphanumerics, `_`, and CJK ideographs. */
  predicate IsWordChar(c: char) { IsAsciiAlnum(c) || c == '_' || IsCjk(c) }

  /** `\s`: the characters Python's `str.isspace()` accepts. */
  predicate IsSpace(c: char) {
    var n := c as int;
    (0x09 <= n <= 0x0D) || (0x1C <= n <= 0x20) || n == 0x85 || n == 0xA0 || n == 0x1680
    || (0x2000 <= n <= 0x200A) || n == 0x2028 || n == 0x2029 || n == 0x202F || n == 0x205F
    || n == 0x3000
  }

  function LowerChar(c: char): char { if IsUpperAscii(c) then (c as int + 32) as char else c }
  function UpperChar(c: char): char { if IsLowerAscii(c) then (c as int - 32) as char else c }

  /** `s.lower()`, folding ASCII letters. */
  function Lower(s: string): (r: string)
    ensures |r| == |s| && forall i :: 0 <= i < |s| ==> r[i] == LowerChar(s[i])
  {
    seq(|s|, i requires 0 <= i < |s| => LowerChar(s[i]))
  }

  /** Upper-case ASCII folding, used to compare a matched word with an upper-case keyword. */
  function Upper(s: string): (r: string)
    ensures |r| == |s| && forall i :: 0 <= i < |s| ==> r[i] == UpperChar(s[i])
  {
    seq(|s|, i requires 0 <= i < |s| => UpperChar(s[i]))
  }

  predicate StartsWith(s: string, prefix: string) { |prefix| <= |s| && s[..|prefix|] == prefix }
  predicate EndsWith(s: string, suffix: string) { |suffix| <= |s| && s[|s| - |suffix|..] == suffix }

  predicate OccursAt(s: string, sub: string, i: int) {
    0 <= i && i + |sub| <= |s| && s[i..i + |sub|] == sub
  }

  /** `s.find(sub)`: the first index at which `sub` occurs, if any. */
  function IndexOf(s: string, sub: string): (r: Option<nat>)
    ensures r.Some? ==> OccursAt(s, sub, r.value) && forall j :: 0 <= j < r.value ==> !OccursAt(s, sub, j)
    ensures r.None? ==> forall j :: !OccursAt(s, sub, j)
    decreases |s|
  {
    if |s| < |sub| then None
    else if s[..|sub|] == sub then Some(0)
    else
      OccursShift(s, sub);
      match IndexOf(s[1..], sub)
      case None => None
      case Some(k) => Some(k + 1)
  }

  /** An occurrence past the first character is an occurrence in the rest, one place earlier. */
  lemma OccursShift(s: string, sub: string)
    requires |s| > 0
    ensures forall j :: j > 0 ==> (OccursAt(s, sub, j) <==> OccursAt(s[1..], sub, j - 1))
  {
    forall j | j > 0
      ensures OccursAt(s, sub, j) <==> OccursAt(s[1..], sub, j - 1)
    {
      if j + |sub| <= |s| {
        assert s[1..][j - 1..j - 1 + |sub|] == s[j..j + |sub|];
      }
    }
  }

  /** Python's `sub in s`. */
  predicate Contains(s: string, sub: string) { IndexOf(s, sub).Some? }

  lemma ContainsAt(s: string, sub: string, i: int)
    requires OccursAt(s, sub, i)
    ensures Contains(s, sub)
  {
  }

  /** `sep.join(parts)`. */
  function Join(sep: string, parts: seq<string>): string
    decreases |parts|
  {
    if |parts| == 0 then ""
    else if |parts| == 1 then parts[0]
    else parts[0] + sep + Join(sep, parts[1..])
  }

  lemma {:induction false} JoinAppend(sep: string, a: seq<string>, b: seq<string>)
    requires |a| > 0 && |b| > 0
    ensures Join(sep, a + b) == Join(sep, a) + sep + Join(sep, b)
    decreases |a|
  {
    if |a| == 1 {
      assert (a + b)[1..] == b;
    } else {
      assert (a + b)[1..] == a[1..] + b;
      JoinAppend(sep, a[1..], b);
    }
  }

  /** `s.split(sep)` for a non-empty separator: always at least one piece, and the pieces
      joined by the separator give back `s`; no piece contains the separator. */
  function Split(s: string, sep: string): (r: seq<string>)
    requires |sep| > 0
    ensures |r| >= 1
    ensures Join(sep, r) == s
    ensures forall k :: 0 <= k < |r| ==> !Contains(r[k], sep)
    decreases |s|
  {
    match IndexOf(s, sep)
    case None => [s]
    case Some(i) =>
      var head, rest := s[..i], Split(s[i + |sep|..], sep);
      assert !Contains(head, sep) by {
        forall j ensures !OccursAt(head, sep, j) {
          if OccursAt(head, sep, j) { assert OccursAt(s, sep, j); }
        }
      }
      assert s == head + sep + s[i + |sep|..];
      [head] + rest
  }

  /** Splitting at a one-character separator undoes joining with it, when no part contains
      the separator. */
  lemma {:induction false} SplitJoin(sep: string, parts: seq<string>)
    requires |sep| == 1 && |parts| >= 1
    requires forall k :: 0 <= k < |parts| ==> !Contains(parts[k], sep)
    ensures Split(Join(sep, parts), sep) == parts
    decreases |parts|
  {
    var p := parts[0];
    if |parts| == 1 {
      assert IndexOf(p, sep).None?;
    } else {
      var rest := Join(sep, parts[1..]);
      var s := p + sep + rest;
      assert Join(sep, parts) == s;
      assert OccursAt(s, sep, |p|) by { assert s[|p|..|p| + 1] == sep; }
      forall j | 0 <= j < |p| ensures !OccursAt(s, sep, j) {
        if OccursAt(s, sep, j) {
          assert p[j..j + 1] == s[j..j + 1];
          ContainsAt(p, sep, j);
        }
      }
      assert IndexOf(s, sep) == Some(|p|);
      assert s[..|p|] == p && s[|p| + 1..] == rest;
      SplitJoin(sep, parts[1..]);
    }
  }

  /** The pieces of `s` around `sep` reassemble `s` from any split point `n`: the first `n`
      pieces, the separator, and the remaining pieces. */
  lemma SplitAround(s: string, sep: string, n: nat)
    requires |sep| > 0 && 0 < n < |Split(s, sep)|
    ensures Join(sep, Split(s, sep)[..n]) + sep + Join(sep, Split(s, sep)[n..]) == s
  {
    var p := Split(s, sep);
    assert p == p[..n] + p[n..];
    JoinAppend(sep, p[..n], p[n..]);
  }

  /** The separator followed by the last piece of `s.split(sep)`. */
  function SepLast(s: string, sep: string): string
    requires |sep| > 0
  {
    var p := Split(s, sep);
    sep + p[|p| - 1]
  }

  /** The pieces before the last one, then the separator glued to the last piece, make up
      the text. */
  lemma SplitLast(s: string, sep: string)
    requires |sep| > 0 && |Split(s, sep)| > 1
    ensures Join(sep, Split(s, sep)[..|Split(s, sep)| - 1]) + SepLast(s, sep) == s
  {
    JoinLast(sep, Split(s, sep));
  }

  /** Joining all but the last part, then the separator and the last part, is joining all. */
  lemma JoinLast(sep: string, parts: seq<string>)
    requires |parts| > 1
    ensures Join(sep, parts[..|parts| - 1]) + (sep + parts[|parts| - 1]) == Join(sep, parts)
  {
    var n := |parts| - 1;
    assert parts == parts[..n] + [parts[n]];
    JoinAppend(sep, parts[..n], [parts[n]]);
    ConcatAssoc(Join(sep, parts[..n]), sep, parts[n]);
  }

  lemma ConcatAssoc(a: string, b: string, c: string)
    ensures a + b + c == a + (b + c)
  {
  }

  function TrimStart(s: string): (r: string)
    ensures |r| <= |s| && EndsWith(s, r)
    ensures r == [] || !IsSpace(r[0])
  {
    if s != [] && IsSpace(s[0]) then TrimStart(s[1..]) else s
  }

  function TrimEnd(s: string): (r: string)
    ensures |r| <= |s| && StartsWith(s, r)
    ensures r == [] || !IsSpace(r[|r| - 1])
  {
    if s != [] && IsSpace(s[|s| - 1]) then TrimEnd(s[..|s| - 1]) else s
  }

  /** `s.strip()`: drops leading and trailing whitespace. */
  function Strip(s: string): (r: string)
    ensures |r| <= |s|
    ensures r == [] || (!IsSpace(r[0]) && !IsSpace(r[|r| - 1]))
  {
    TrimEnd(TrimStart(s))
  }

  function DigitChar(d: nat): char
    requires d < 10
  {
    ('0' as int + d) as char
  }

  /** `str(n)` for a non-negative integer: its decimal digits, no leading zero. */
  function NatToString(n: nat): (r: string)
    ensures |r| >= 1 && forall i :: 0 <= i < |r| ==> IsDigit(r[i])
    ensures |r| > 1 ==> r[0] != '0'
  {
    if n < 10 then [DigitChar(n)] else NatToString(n / 10) + [DigitChar(n % 10)]
  }

  /** `str(i)` for any integer. */
  function IntToString(i: int): string {
    if i < 0 then "-" + NatToString(-i) else NatToString(i)
  }

  /** The end of the run of `\w` characters of `s` that starts at `i`. */
  function RunEnd(s: string, i: nat): (j: nat)
    requires i <= |s|
    ensures i <= j <= |s|
    ensures forall k :: i <= k < j ==> IsWordChar(s[k])
    ensures j == |s| || !IsWordChar(s[j])
    decreases |s| - i
  {
    if i < |s| && IsWordChar(s[i]) then RunEnd(s, i + 1) else i
  }

  /** The maximal runs of `\w` characters of `s[i..]`, in order, when `i` is `0` or
      follows a non-word character. */
  function WordsFrom(s: string, i: nat): seq<string>
    requires i <= |s|
    decreases |s| - i
  {
    if i == |s| then []
    else if !IsWordChar(s[i]) then WordsFrom(s, i + 1)
    else
      var j := RunEnd(s, i);
      [s[i..j]] + WordsFrom(s, j)
  }

  /**
   * The maximal runs of `\w` characters of `s`, in order. A regular expression
   * `\bX\b` whose body X matches only `\w` characters can only match a whole such run: the
   * leading `\b` needs a non-word character (or the start) before it, the trailing one a
   * non-word character (or the end) after it, and every character in between is a word
   * character, so no boundary lies inside a run. So `re.findall` of such a pattern is a
   * filter of `Words(s)`, and `re.search` of one asks whether some word matches.
   */
  function Words(s: string): seq<string> { WordsFrom(s, 0) }

  /** A run of `\w` characters of `s` starting at `j` ends at the same place in any suffix
      `s[i..]` that contains `j`. */
  lemma {:induction false} RunEndShift(s: string, i: nat, j: nat)
    requires i <= j <= |s|
    ensures RunEnd(s, j) - i == RunEnd(s[i..], j - i)
    decreases |s| - j
  {
    if j < |s| && IsWordChar(s[j]) {
      assert s[i..][j - i] == s[j];
      RunEndShift(s, i, j + 1);
    } else if j < |s| {
      assert s[i..][j - i] == s[j];
    }
  }

  /** The words from position `j` on depend only on the suffix that contains `j`. */
  lemma {:induction false} WordsFromShift(s: string, i: nat, j: nat)
    requires i <= j <= |s|
    ensures WordsFrom(s, j) == WordsFrom(s[i..], j - i)
    decreases |s| - j
  {
    if j < |s| {
      if IsWordChar(s[j]) {
        WordsFromShift(s, i, RunEnd(s, j));
        WordShiftStep(s, i, j);
      } else {
        WordsFromShift(s, i, j + 1);
        GapShiftStep(s, i, j);
      }
    }
  }

  lemma WordShiftStep(s: string, i: nat, j: nat)
    requires i <= j < |s| && IsWordChar(s[j])
    requires WordsFrom(s, RunEnd(s, j)) == WordsFrom(s[i..], RunEnd(s, j) - i)
    ensures WordsFrom(s, j) == WordsFrom(s[i..], j - i)
  {
    var t := s[i..];
    var e := RunEnd(s, j);
    assert t[j - i] == s[j];
    RunEndShift(s, i, j);
    var a := RunEnd(t, j - i);
    assert a == e - i;
    WordsFromWord(s, j);
    WordsFromWord(t, j - i);
    SuffixSlice(s, i, j, e);
    assert t[j - i..a] == s[j..e];
    assert WordsFrom(t, a) == WordsFrom(s, e);
  }

  lemma SuffixSlice(s: string, i: nat, a: nat, b: nat)
    requires i <= a <= b <= |s|
    ensures s[i..][a - i..b - i] == s[a..b]
  {
  }

  lemma GapShiftStep(s: string, i: nat, j: nat)
    requires i <= j < |s| && !IsWordChar(s[j])
    requires WordsFrom(s, j + 1) == WordsFrom(s[i..], j + 1 - i)
    ensures WordsFrom(s, j) == WordsFrom(s[i..], j - i)
  {
    var t := s[i..];
    assert t[j - i] == s[j];
    WordsFromGap(s, j);
    WordsFromGap(t, j - i);
  }

  lemma WordsFromWord(s: string, j: nat)
    requires j < |s| && IsWordChar(s[j])
    ensures WordsFrom(s, j) == [s[j..RunEnd(s, j)]] + WordsFrom(s, RunEnd(s, j))
  {
  }

  lemma WordsFromGap(s: string, j: nat)
    requires j < |s| && !IsWordChar(s[j])
    ensures WordsFrom(s, j) == WordsFrom(s, j + 1)
  {
  }

  /** A non-empty run of `\w` characters. */
  predicate IsWord(w: string) { |w| > 0 && forall k :: 0 <= k < |w| ==> IsWordChar(w[k]) }

  /** A non-empty run of other characters. */
  predicate IsGap(g: string) { |g| > 0 && forall k :: 0 <= k < |g| ==> !IsWordChar(g[k]) }

  lemma {:induction false} RunEndThroughWord(w: string, t: string, k: nat)
    requires IsWord(w) && k <= |w| && (t == [] || !IsWordChar(t[0]))
    ensures RunEnd(w + t, k) == |w|
    decreases |w| - k
  {
    if k < |w| {
      assert (w + t)[k] == w[k];
      RunEndThroughWord(w, t, k + 1);
    } else if t != [] {
      assert (w + t)[k] == t[0];
    }
  }

  /** A word followed by a non-word character (or nothing) is the first word. */
  lemma WordsOfWordThen(w: string, t: string)
    requires IsWord(w) && (t == [] || !IsWordChar(t[0]))
    ensures Words(w + t) == [w] + Words(t)
  {
    RunEndThroughWord(w, t, 0);
    assert (w + t)[0] == w[0];
    assert (w + t)[0..|w|] == w;
    WordsFromShift(w + t, |w|, |w|);
    assert (w + t)[|w|..] == t;
  }

  lemma {:induction false} WordsAcrossGap(g: string, t: string, k: nat)
    requires IsGap(g) && k <= |g|
    ensures WordsFrom(g + t, k) == WordsFrom(g + t, |g|)
    decreases |g| - k
  {
    if k < |g| {
      assert (g + t)[k] == g[k];
      WordsAcrossGap(g, t, k + 1);
    }
  }

  /** Leading non-word characters contribute no word. */
  lemma WordsOfGapThen(g: string, t: string)
    requires IsGap(g)
    ensures Words(g + t) == Words(t)
  {
    WordsAcrossGap(g, t, 0);
    WordsFromShift(g + t, |g|, |g|);
    assert (g + t)[|g|..] == t;
  }

  /** The text made of `pieces`, in order. */
  function Concat(pieces: seq<string>): string {
    if pieces == [] then "" else pieces[0] + Concat(pieces[1..])
  }

  /** `pieces` splits a text into its words and the gaps between them: every piece is a word
      or a gap, and no two words are adjacent. */
  predicate Tokenized(pieces: seq<string>) {
    (forall k :: 0 <= k < |pieces| ==> IsWord(pieces[k]) || IsGap(pieces[k]))
    && forall k :: 0 <= k < |pieces| - 1 ==> IsWord(pieces[k]) ==> IsGap(pieces[k + 1])
  }

  function WordPieces(pieces: seq<string>): seq<string> {
    if pieces == [] then [] else (if IsWord(pieces[0]) then [pieces[0]] else []) + WordPieces(pieces[1..])
  }

  /** The words of a text given as words and gaps are its word pieces. */
  lemma {:induction false} WordsOfPieces(pieces: seq<string>)
    requires Tokenized(pieces)
    ensures Words(Concat(pieces)) == WordPieces(pieces)
    decreases |pieces|
  {
    if pieces != [] {
      var rest := pieces[1..];
      assert Tokenized(rest) by {
        forall k | 0 <= k < |rest| ensures IsWord(rest[k]) || IsGap(rest[k]) { assert rest[k] == pieces[k + 1]; }
        forall k | 0 <= k < |rest| - 1 ensures IsWord(rest[k]) ==> IsGap(rest[k + 1]) {
          assert rest[k] == pieces[k + 1] && rest[k + 1] == pieces[k + 2];
        }
      }
      WordsOfPieces(rest);
      if IsWord(pieces[0]) {
        if rest != [] {
          assert Concat(rest)[0] == rest[0][0];
        }
        WordsOfWordThen(pieces[0], Concat(rest));
      } else {
        WordsOfGapThen(pieces[0], Concat(rest));
      }
    }
  }

  /** The words of `s` (in the sense of `Words`) that satisfy `keep`, in order. */
  function FilterWords(words: seq<string>, keep: string -> bool): seq<string>
  {
    if words == [] then []
    else Kept(words[0], keep) + FilterWords(words[1..], keep)
  }

  function Kept(w: string, keep: string -> bool): seq<string> { if keep(w) then [w] else [] }

  lemma FilterWordsUnfold(words: seq<string>, keep: string -> bool)
    requires words != []
    ensures FilterWords(words, keep) == Kept(words[0], keep) + FilterWords(words[1..], keep)
  {
  }

  lemma FilterWordsCons(w: string, words: seq<string>, keep: string -> bool)
    ensures FilterWords([w] + words, keep) == Kept(w, keep) + FilterWords(words, keep)
  {
    assert ([w] + words)[1..] == words;
  }

  /** `a` is `b` with some elements left out, the rest in order. */
  predicate IsSubsequence<T(==)>(a: seq<T>, b: seq<T>)
    decreases |b|
  {
    if a == [] then true
    else if b == [] then false
    else
      (a[|a| - 1] == b[|b| - 1] && IsSubsequence(a[..|a| - 1], b[..|b| - 1]))
      || IsSubsequence(a, b[..|b| - 1])
  }

  lemma SubsequenceOfPrefix<T>(a: seq<T>, b: seq<T>, x: T)
    requires IsSubsequence(a, b)
    ensures IsSubsequence(a, b + [x])
  {
    assert (b + [x])[..|b|] == b;
  }

  lemma {:induction false} SubsequenceConsBoth<T>(x: T, a: seq<T>, b: seq<T>)
    requires IsSubsequence(a, b)
    ensures IsSubsequence([x] + a, [x] + b)
    decreases |b|
  {
    if a == [] {
      if b != [] {
        SubsequenceConsBoth(x, a, b[..|b| - 1]);
        assert ([x] + b)[..|b|] == [x] + b[..|b| - 1];
      } else {
        assert ([x] + a)[..0] == [];
      }
    } else if a[|a| - 1] == b[|b| - 1] && IsSubsequence(a[..|a| - 1], b[..|b| - 1]) {
      SubsequenceConsBoth(x, a[..|a| - 1], b[..|b| - 1]);
      assert ([x] + a)[..|a|] == [x] + a[..|a| - 1];
      assert ([x] + b)[..|b|] == [x] + b[..|b| - 1];
    } else {
      SubsequenceConsBoth(x, a, b[..|b| - 1]);
      assert ([x] + b)[..|b|] == [x] + b[..|b| - 1];
    }
  }

  lemma {:induction false} SubsequenceConsRight<T>(x: T, a: seq<T>, b: seq<T>)
    requires IsSubsequence(a, b)
    ensures IsSubsequence(a, [x] + b)
    decreases |b|
  {
    if a != [] {
      if a[|a| - 1] == b[|b| - 1] && IsSubsequence(a[..|a| - 1], b[..|b| - 1]) {
        SubsequenceConsRight(x, a[..|a| - 1], b[..|b| - 1]);
      } else {
        SubsequenceConsRight(x, a, b[..|b| - 1]);
      }
      assert ([x] + b)[..|b|] == [x] + b[..|b| - 1];
    }
  }

  /** The filtered words are the words that pass, in order: a subsequence of the words
      holding each passing word as often as the words do, and no other. */
  lemma {:induction false} FilterWordsOrder(words: seq<string>, keep: string -> bool)
    ensures IsSubsequence(FilterWords(words, keep), words)
    ensures forall w :: multiset(FilterWords(words, keep))[w] == if keep(w) then multiset(words)[w] else 0
  {
    if words != [] {
      FilterWordsOrder(words[1..], keep);
      FilterWordsCons(words[0], words[1..], keep);
      assert words == [words[0]] + words[1..];
      var rest := FilterWords(words[1..], keep);
      if keep(words[0]) {
        assert FilterWords(words, keep) == [words[0]] + rest;
        SubsequenceConsBoth(words[0], rest, words[1..]);
      } else {
        assert FilterWords(words, keep) == rest;
        SubsequenceConsRight(words[0], rest, words[1..]);
      }
      assert multiset(words) == multiset([words[0]]) + multiset(words[1..]);
    }
  }

  /** A word is kept exactly when it is one of the words and passes the test. */
  lemma {:induction false} FilterWordsMembers(words: seq<string>, keep: string -> bool)
    ensures forall w :: w in FilterWords(words, keep) <==> w in words && keep(w)
  {
    if words != [] {
      FilterWordsMembers(words[1..], keep);
      FilterWordsCons(words[0], words[1..], keep);
      assert words == [words[0]] + words[1..];
    }
  }

  /** Filtering four words keeps each one that passes, in order. */
  lemma FilterFour(a: string, b: string, c: string, d: string, keep: string -> bool)
    ensures FilterWords([a, b, c, d], keep) == Kept(a, keep) + Kept(b, keep) + Kept(c, keep) + Kept(d, keep)
  {
    var w := [a, b, c, d];
    FilterWordsUnfold(w, keep);
    FilterWordsUnfold(w[1..], keep);
    FilterWordsUnfold(w[2..], keep);
    FilterWordsUnfold(w[3..], keep);
    assert w[1..][1..] == w[2..] && w[2..][1..] == w[3..] && w[3..][1..] == [];
    assert w[0] == a && w[1..][0] == b && w[2..][0] == c && w[3..][0] == d;
  }
}
