/**
 * The text transformations `ConversationSession` compresses its context with: blank-line
 * collapsing, long-line shortening, keeping the last paragraphs that fit, and dropping short
 * and repeated lines. The session class that applies them is in module Sessions.
 */
module Compression {
  import opened Text
  import opened Patterns

  /** The number of newlines in `s[i..j]`. */
  function NewlinesIn(s: string, i: nat, j: nat): nat
    requires i <= j <= |s|
    decreases j - i
  {
    if i == j then 0 else (if s[j - 1] == '\n' then 1 else 0) + NewlinesIn(s, i, j - 1)
  }

  /** The last newline of `s[i..j]`. */
  function LastNewline(s: string, i: nat, j: nat): (k: nat)
    requires i <= j <= |s| && NewlinesIn(s, i, j) > 0
    ensures i <= k < j && s[k] == '\n'
    ensures forall m :: k < m < j ==> s[m] != '\n'
    decreases j - i
  {
    if s[j - 1] == '\n' then j - 1 else LastNewline(s, i, j - 1)
  }

  /** `re.sub(r'\n\s*\n\s*\n', '\n\n', s[i..])`. A match must start at a newline and lie
      inside the whitespace run that starts there, since `\s` takes newlines too. Both `\s*`
      are greedy, so the second newline of the pattern is the last-but-one newline of the run
      and the third is its last: a run starting at a newline with at least three newlines is
      replaced up to and including its last newline. A run with fewer newlines has no match
      at its first character, and none later on. The scan resumes after each replacement. */
  function CollapseFrom(s: string, i: nat): string
    requires i <= |s|
    decreases |s| - i
  {
    if i == |s| then []
    else if s[i] == '\n' && NewlinesIn(s, i, SpaceRunEnd(s, i)) >= 3 then
      "\n\n" + CollapseFrom(s, LastNewline(s, i, SpaceRunEnd(s, i)) + 1)
    else [s[i]] + CollapseFrom(s, i + 1)
  }

  function CollapseBlankLines(s: string): string {
    CollapseFrom(s, 0)
  }

  /** The characters of `s` that are not whitespace: what a reader sees. */
  function Visible(s: string): string {
    if s == [] then [] else (if IsSpace(s[0]) then [] else [s[0]]) + Visible(s[1..])
  }

  lemma {:induction false} VisibleAcrossSpaces(s: string, i: nat, j: nat)
    requires i <= j <= |s|
    requires forall k :: i <= k < j ==> IsSpace(s[k])
    ensures Visible(s[i..]) == Visible(s[j..])
    decreases j - i
  {
    if i < j {
      assert s[i..][1..] == s[i + 1..];
      VisibleAcrossSpaces(s, i + 1, j);
    }
  }

  lemma {:induction false} VisibleOfPrefix(c: string, t: string)
    ensures Visible(c + t) == Visible(c) + Visible(t)
    decreases |c|
  {
    if c != [] {
      assert (c + t)[0] == c[0] && (c + t)[1..] == c[1..] + t;
      VisibleOfPrefix(c[1..], t);
      assert Visible(c + t) == (if IsSpace(c[0]) then [] else [c[0]]) + Visible(c[1..] + t);
    } else {
      assert c + t == t;
    }
  }

  /** Collapsing blank lines never lengthens the text, keeps every visible character, in
      order, and leaves no stretch of whitespace with more than two newlines. */
  lemma CollapseFromKeeps(s: string, i: nat)
    requires i <= |s|
    ensures |CollapseFrom(s, i)| <= |s| - i
    ensures Visible(CollapseFrom(s, i)) == Visible(s[i..])
    ensures NoTripleBreak(CollapseFrom(s, i))
  {
    CollapseKeepsText(s, i);
    CollapseNoTripleBreak(s, i);
  }

  lemma {:induction false} CollapseKeepsText(s: string, i: nat)
    requires i <= |s|
    ensures |CollapseFrom(s, i)| <= |s| - i
    ensures Visible(CollapseFrom(s, i)) == Visible(s[i..])
    decreases |s| - i
  {
    if i < |s| {
      if s[i] == '\n' && NewlinesIn(s, i, SpaceRunEnd(s, i)) >= 3 {
        CollapseKeepsText(s, LastNewline(s, i, SpaceRunEnd(s, i)) + 1);
        CollapseRunStep(s, i);
      } else {
        CollapseKeepsText(s, i + 1);
        CopyStep(s, i);
      }
    }
  }

  /** The number of newlines in the whitespace that `t` starts with. */
  function LeadingNewlines(t: string): nat {
    if t == [] || !IsSpace(t[0]) then 0 else (if t[0] == '\n' then 1 else 0) + LeadingNewlines(t[1..])
  }

  /** No stretch of whitespace in `r` holds three newlines: wherever one starts, at most two
      newlines follow before the next visible character. */
  predicate NoTripleBreak(r: string) {
    forall p :: 0 <= p <= |r| ==> LeadingNewlines(r[p..]) <= 2
  }

  /** After the substitution no blank-line run of three or more newlines is left, and the
      text does not start with more newlines than the input did. */
  lemma {:induction false} CollapseNoTripleBreak(s: string, i: nat)
    requires i <= |s|
    ensures NoTripleBreak(CollapseFrom(s, i))
    ensures LeadingNewlines(CollapseFrom(s, i)) <= LeadingNewlines(s[i..])
    decreases |s| - i, 1
  {
    if i == |s| {
      EmptyNoTripleBreak();
      assert CollapseFrom(s, i) == [];
    } else if s[i] == '\n' && NewlinesIn(s, i, SpaceRunEnd(s, i)) >= 3 {
      RunCaseBreaks(s, i);
    } else {
      CopyCaseBreaks(s, i);
    }
  }

  lemma {:induction false} RunCaseBreaks(s: string, i: nat)
    requires i < |s| && s[i] == '\n' && NewlinesIn(s, i, SpaceRunEnd(s, i)) >= 3
    ensures NoTripleBreak(CollapseFrom(s, i))
    ensures LeadingNewlines(CollapseFrom(s, i)) <= LeadingNewlines(s[i..])
    decreases |s| - i, 0
  {
    var e := SpaceRunEnd(s, i);
    var l := LastNewline(s, i, e);
    assert i <= l < e <= |s|;
    CollapseNoTripleBreak(s, l + 1);
    var rest := CollapseFrom(s, l + 1);
    RunBreaks(s, i, e, l, rest);
  }

  lemma {:induction false} CopyCaseBreaks(s: string, i: nat)
    requires i < |s| && !(s[i] == '\n' && NewlinesIn(s, i, SpaceRunEnd(s, i)) >= 3)
    ensures NoTripleBreak(CollapseFrom(s, i))
    ensures LeadingNewlines(CollapseFrom(s, i)) <= LeadingNewlines(s[i..])
    decreases |s| - i, 0
  {
    CollapseNoTripleBreak(s, i + 1);
    CopiedBreaks(s, i, CollapseFrom(s, i + 1));
  }

  lemma EmptyNoTripleBreak()
    ensures NoTripleBreak([]) && LeadingNewlines([]) == 0
  {
    var r: string := [];
    assert r[0..] == [];
  }

  /** A collapsed run keeps the bound, given the rest of the output does. */
  lemma RunBreaks(s: string, i: nat, e: nat, l: nat, rest: string)
    requires i < |s| && s[i] == '\n' && e == SpaceRunEnd(s, i) && NewlinesIn(s, i, e) >= 3
    requires l == LastNewline(s, i, e) && rest == CollapseFrom(s, l + 1)
    requires NoTripleBreak(rest) && LeadingNewlines(rest) <= LeadingNewlines(s[l + 1..])
    ensures NoTripleBreak(CollapseFrom(s, i)) && LeadingNewlines(CollapseFrom(s, i)) <= LeadingNewlines(s[i..])
  {
    NoLeadingNewlines(s, l + 1, e);
    LeadingNewlinesRun(s, i);
    var n := LeadingNewlines(s[i..]);
    CollapsedRunBreaks(rest, n);
    CollapseRunUnfold(s, i);
  }

  /** The two newlines a run collapses to, before a text that starts with no newline. */
  lemma CollapsedRunBreaks(rest: string, n: nat)
    requires NoTripleBreak(rest) && LeadingNewlines(rest) == 0 && n >= 3
    ensures NoTripleBreak("\n\n" + rest) && LeadingNewlines("\n\n" + rest) <= n
  {
    LeadingNewlinesCons('\n', rest);
    PrependKeepsNoTripleBreak('\n', rest);
    LeadingNewlinesCons('\n', "\n" + rest);
    PrependKeepsNoTripleBreak('\n', "\n" + rest);
    assert "\n\n" + rest == ['\n'] + ("\n" + rest);
  }

  /** A copied character keeps the bound, given the rest of the output does. */
  lemma CopiedBreaks(s: string, i: nat, rest: string)
    requires i < |s| && !(s[i] == '\n' && NewlinesIn(s, i, SpaceRunEnd(s, i)) >= 3)
    requires rest == CollapseFrom(s, i + 1)
    requires NoTripleBreak(rest) && LeadingNewlines(rest) <= LeadingNewlines(s[i + 1..])
    ensures NoTripleBreak(CollapseFrom(s, i)) && LeadingNewlines(CollapseFrom(s, i)) <= LeadingNewlines(s[i..])
  {
    LeadingNewlinesRun(s, i);
    assert CollapseFrom(s, i) == [s[i]] + rest;
    assert rest[0..] == rest;
    assert s[i..] == [s[i]] + s[i + 1..];
    LeadingNewlinesCons(s[i], rest);
    LeadingNewlinesCons(s[i], s[i + 1..]);
    PrependKeepsNoTripleBreak(s[i], rest);
  }

  lemma LeadingNewlinesCons(c: char, t: string)
    ensures LeadingNewlines([c] + t) == if IsSpace(c) then (if c == '\n' then 1 else 0) + LeadingNewlines(t) else 0
  {
    assert ([c] + t)[1..] == t;
  }

  lemma PrependKeepsNoTripleBreak(c: char, t: string)
    requires NoTripleBreak(t) && LeadingNewlines([c] + t) <= 2
    ensures NoTripleBreak([c] + t)
  {
    forall p | 1 <= p <= |[c] + t| ensures LeadingNewlines(([c] + t)[p..]) <= 2 {
      assert ([c] + t)[p..] == t[p - 1..];
    }
    assert ([c] + t)[0..] == [c] + t;
  }

  /** The newlines leading `s[i..]` are those of the whitespace run starting at `i`. */
  lemma {:induction false} LeadingNewlinesRun(s: string, i: nat)
    requires i <= |s|
    ensures LeadingNewlines(s[i..]) == NewlinesIn(s, i, SpaceRunEnd(s, i))
    decreases |s| - i
  {
    if i < |s| && IsSpace(s[i]) {
      assert s[i..][1..] == s[i + 1..];
      LeadingNewlinesRun(s, i + 1);
      NewlinesFront(s, i, SpaceRunEnd(s, i));
    }
  }

  lemma {:induction false} NewlinesFront(s: string, i: nat, e: nat)
    requires i < e <= |s|
    ensures NewlinesIn(s, i, e) == (if s[i] == '\n' then 1 else 0) + NewlinesIn(s, i + 1, e)
    decreases e - i
  {
    if e > i + 1 {
      NewlinesFront(s, i, e - 1);
    }
  }

  /** Whitespace without newlines up to a visible character (or the end) leads with none. */
  lemma {:induction false} NoLeadingNewlines(s: string, k: nat, e: nat)
    requires k <= e <= |s|
    requires forall m :: k <= m < e ==> s[m] != '\n'
    requires e == |s| || !IsSpace(s[e])
    ensures LeadingNewlines(s[k..]) == 0
    decreases e - k
  {
    if k < e {
      assert s[k..][1..] == s[k + 1..];
      NoLeadingNewlines(s, k + 1, e);
    }
  }

  /** A collapsed run of blank lines keeps length and visible text within bounds, given the
      rest of the text does. */
  lemma CollapseRunStep(s: string, i: nat)
    requires i < |s| && s[i] == '\n' && NewlinesIn(s, i, SpaceRunEnd(s, i)) >= 3
    requires var l := LastNewline(s, i, SpaceRunEnd(s, i));
      |CollapseFrom(s, l + 1)| <= |s| - (l + 1) && Visible(CollapseFrom(s, l + 1)) == Visible(s[l + 1..])
    ensures |CollapseFrom(s, i)| <= |s| - i
    ensures Visible(CollapseFrom(s, i)) == Visible(s[i..])
  {
    var e := SpaceRunEnd(s, i);
    var l := LastNewline(s, i, e);
    CollapseRunUnfold(s, i);
    CollapsedRunLength(s, i, e, l, CollapseFrom(s, l + 1));
    CollapsedRunVisible(s, i, l, CollapseFrom(s, l + 1));
  }

  lemma CollapseRunUnfold(s: string, i: nat)
    requires i < |s| && s[i] == '\n' && NewlinesIn(s, i, SpaceRunEnd(s, i)) >= 3
    ensures CollapseFrom(s, i) == "\n\n" + CollapseFrom(s, LastNewline(s, i, SpaceRunEnd(s, i)) + 1)
  {
  }

  lemma CollapsedRunLength(s: string, i: nat, e: nat, l: nat, rest: string)
    requires i <= l < e <= |s| && NewlinesIn(s, i, e) >= 3
    requires forall m :: l < m < e ==> s[m] != '\n'
    requires |rest| <= |s| - (l + 1)
    ensures |"\n\n" + rest| <= |s| - i
  {
    NewlinesBelow(s, i, e, l);
  }

  lemma CollapsedRunVisible(s: string, i: nat, l: nat, rest: string)
    requires i <= l < |s|
    requires forall k :: i <= k < l + 1 ==> IsSpace(s[k])
    requires Visible(rest) == Visible(s[l + 1..])
    ensures Visible("\n\n" + rest) == Visible(s[i..])
  {
    VisibleAcrossSpaces(s, i, l + 1);
    VisibleOfPrefix("\n\n", rest);
    assert Visible("\n\n") == [] by {
      assert IsSpace('\n');
      assert "\n\n"[1..] == "\n";
      assert "\n"[1..] == [];
    }
  }

  /** A copied character keeps length and visible text within bounds, given the rest of the
      text does. */
  lemma CopyStep(s: string, i: nat)
    requires i < |s| && !(s[i] == '\n' && NewlinesIn(s, i, SpaceRunEnd(s, i)) >= 3)
    requires |CollapseFrom(s, i + 1)| <= |s| - (i + 1) && Visible(CollapseFrom(s, i + 1)) == Visible(s[i + 1..])
    ensures |CollapseFrom(s, i)| <= |s| - i
    ensures Visible(CollapseFrom(s, i)) == Visible(s[i..])
  {
    var rest := CollapseFrom(s, i + 1);
    assert CollapseFrom(s, i) == [s[i]] + rest;
    VisibleOfPrefix([s[i]], rest);
    assert Visible([s[i]]) == (if IsSpace(s[i]) then [] else [s[i]]) + Visible([]);
    assert s[i..][1..] == s[i + 1..];
  }

  /** A newline count of three in `s[i..e]` whose last newline is at `l` puts `l` at least two
      past `i`. */
  lemma {:induction false} NewlinesBelow(s: string, i: nat, e: nat, l: nat)
    requires i <= l < e <= |s| && NewlinesIn(s, i, e) >= 3
    requires forall m :: l < m < e ==> s[m] != '\n'
    ensures l >= i + 2
    decreases e - i
  {
    NewlinesAfterLast(s, i, e, l);
    NewlinesAtMost(s, i, l + 1);
  }

  lemma {:induction false} NewlinesAfterLast(s: string, i: nat, e: nat, l: nat)
    requires i <= l < e <= |s|
    requires forall m :: l < m < e ==> s[m] != '\n'
    ensures NewlinesIn(s, i, e) == NewlinesIn(s, i, l + 1)
    decreases e - l
  {
    if e > l + 1 {
      NewlinesAfterLast(s, i, e - 1, l);
    }
  }

  lemma {:induction false} NewlinesAtMost(s: string, i: nat, j: nat)
    requires i <= j <= |s|
    ensures NewlinesIn(s, i, j) <= j - i
    decreases j - i
  {
    if i < j {
      NewlinesAtMost(s, i, j - 1);
    }
  }

  /** A text with fewer than three newlines has nothing to collapse. */
  lemma {:induction false} CollapseFewNewlines(s: string, i: nat)
    requires i <= |s| && NewlinesIn(s, i, |s|) < 3
    ensures CollapseFrom(s, i) == s[i..]
    decreases |s| - i
  {
    if i < |s| {
      NewlinesWithin(s, i, SpaceRunEnd(s, i), |s|);
      NewlinesDrop(s, i, |s|);
      CollapseFewNewlines(s, i + 1);
      assert s[i..] == [s[i]] + s[i + 1..];
    }
  }

  lemma {:induction false} NewlinesWithin(s: string, i: nat, j: nat, e: nat)
    requires i <= j <= e <= |s|
    ensures NewlinesIn(s, i, j) <= NewlinesIn(s, i, e)
    decreases e - j
  {
    if j < e {
      NewlinesWithin(s, i, j, e - 1);
    }
  }

  lemma {:induction false} NewlinesDrop(s: string, i: nat, e: nat)
    requires i < e <= |s|
    ensures NewlinesIn(s, i + 1, e) <= NewlinesIn(s, i, e)
    decreases e - i
  {
    if e > i + 1 {
      NewlinesDrop(s, i, e - 1);
    }
  }

  /** A line over 200 characters becomes its first 100, `"..."` and its last 50. */
  function ShortenLine(line: string): (r: string)
    ensures |r| <= 200
    ensures r == line <==> |line| <= 200
    ensures |line| > 200 ==> StartsWith(r, line[..100]) && EndsWith(r, line[|line| - 50..])
    ensures |line| > 200 ==> |r| == 153 && r[100..103] == "..."
  {
    if |line| > 200 then line[..100] + "..." + line[|line| - 50..] else line
  }

  /** Shortening an already shortened line changes nothing. */
  lemma ShortenIdempotent(line: string)
    ensures ShortenLine(ShortenLine(line)) == ShortenLine(line)
  {
    assert |ShortenLine(line)| <= 200;
  }

  function ShortenLines(lines: seq<string>): (r: seq<string>)
    ensures |r| == |lines| && forall k :: 0 <= k < |r| ==> r[k] == ShortenLine(lines[k])
  {
    seq(|lines|, k requires 0 <= k < |lines| => ShortenLine(lines[k]))
  }

  /** The summed lengths of `ps`, separators excluded. */
  function Total(ps: seq<string>): nat {
    if ps == [] then 0 else |ps[0]| + Total(ps[1..])
  }

  /** `n <= limit * 0.8`, for the lengths and limits where the double product is exact. */
  predicate WithinFourFifths(n: int, limit: int) {
    5 * n <= 4 * limit
  }

  /** How many paragraphs the backward walk keeps once `ps[i..]` are kept: it takes
      `ps[i - 1]` when the kept total with it stays within four fifths of `limit`, and stops
      at the first paragraph that does not fit. */
  function KeptBefore(ps: seq<string>, i: nat, limit: int): (k: nat)
    requires i <= |ps|
    ensures k <= i
    decreases i
  {
    if i == 0 then 0
    else if WithinFourFifths(Total(ps[i - 1..]), limit) then 1 + KeptBefore(ps, i - 1, limit)
    else 0
  }

  function KeptCount(ps: seq<string>, limit: int): (k: nat)
    ensures k <= |ps|
  {
    KeptBefore(ps, |ps|, limit)
  }

  /** The kept paragraphs are the longest suffix the walk reaches: its total is within four
      fifths of the limit, and one paragraph more would not be. */
  lemma {:induction false} KeptBeforeFits(ps: seq<string>, i: nat, limit: int)
    requires i <= |ps|
    ensures var k := KeptBefore(ps, i, limit);
      (k > 0 ==> WithinFourFifths(Total(ps[i - k..]), limit))
      && (k < i ==> !WithinFourFifths(Total(ps[i - k - 1..]), limit))
    decreases i
  {
    if i > 0 && WithinFourFifths(Total(ps[i - 1..]), limit) {
      KeptBeforeFits(ps, i - 1, limit);
    }
  }

  /** A longer suffix never has a smaller total. */
  lemma {:induction false} TotalGrows(ps: seq<string>, i: nat, j: nat)
    requires i <= j <= |ps|
    ensures Total(ps[j..]) <= Total(ps[i..])
    decreases j - i
  {
    if i < j {
      assert ps[i..][1..] == ps[i + 1..];
      TotalGrows(ps, i + 1, j);
    }
  }

  /** The paragraphs `_secondary_compress` keeps form the longest suffix of `ps` whose total
      is within four fifths of the limit: that suffix fits, and no longer suffix does. */
  lemma KeptSuffix(ps: seq<string>, limit: int)
    ensures var k := KeptCount(ps, limit);
      (k > 0 ==> WithinFourFifths(Total(ps[|ps| - k..]), limit))
      && forall j :: 0 <= j < |ps| - k ==> !WithinFourFifths(Total(ps[j..]), limit)
  {
    var k := KeptCount(ps, limit);
    KeptBeforeFits(ps, |ps|, limit);
    forall j | 0 <= j < |ps| - k ensures !WithinFourFifths(Total(ps[j..]), limit) {
      TotalGrows(ps, j, |ps| - k - 1);
    }
  }

  /** The text after blank-line collapsing and long-line shortening. */
  function ShortenedText(context: string): string {
    Join("\n", ShortenLines(Split(CollapseBlankLines(context), "\n")))
  }

  /** `_secondary_compress(context)` for a session whose `max_context_length` is `limit`: the
      shortened text if it fits the limit, else the paragraphs of it that the backward walk
      keeps, joined by blank lines. */
  function SecondaryCompressed(context: string, limit: int): string {
    var shortened := ShortenedText(context);
    if |shortened| > limit then
      var ps := Split(shortened, "\n\n");
      Join("\n\n", ps[|ps| - KeptCount(ps, limit)..])
    else shortened
  }

  /** When the text is over the limit and its last paragraph alone is over four fifths of it,
      the backward walk keeps nothing and the context becomes empty. */
  lemma SecondaryEmptiesOnLongTail(context: string, limit: int)
    requires |ShortenedText(context)| > limit
    requires var ps := Split(ShortenedText(context), "\n\n"); !WithinFourFifths(|ps[|ps| - 1]|, limit)
    ensures SecondaryCompressed(context, limit) == ""
  {
    var shortened := ShortenedText(context);
    var ps := Split(shortened, "\n\n");
    var kept := ps[|ps| - KeptCount(ps, limit)..];
    assert SecondaryCompressed(context, limit) == Join("\n\n", kept);
    NothingKeptOnLongTail(ps, "\n\n", limit);
  }

  /** The walk stops at once when the last paragraph does not fit, and keeps nothing. */
  lemma NothingKeptOnLongTail(ps: seq<string>, sep: string, limit: int)
    requires |ps| > 0 && !WithinFourFifths(|ps[|ps| - 1]|, limit)
    ensures Join(sep, ps[|ps| - KeptCount(ps, limit)..]) == ""
  {
    assert ps[|ps| - 1..] == [ps[|ps| - 1]];
    assert Total(ps[|ps| - 1..]) == |ps[|ps| - 1]| + Total([]);
    assert KeptCount(ps, limit) == 0;
    assert ps[|ps|..] == [];
  }

  /** Joining pieces no longer than the originals gives a text no longer than theirs. */
  lemma {:induction false} JoinNoLonger(sep: string, xs: seq<string>, ys: seq<string>)
    requires |xs| == |ys| && forall k :: 0 <= k < |xs| ==> |xs[k]| <= |ys[k]|
    ensures |Join(sep, xs)| <= |Join(sep, ys)|
    decreases |xs|
  {
    if |xs| > 1 {
      JoinNoLonger(sep, xs[1..], ys[1..]);
    }
  }

  /** Keeping a suffix of the paragraphs keeps a suffix of the text. */
  lemma KeptNoLonger(s: string, sep: string, n: nat)
    requires |sep| > 0 && n <= |Split(s, sep)|
    ensures |Join(sep, Split(s, sep)[n..])| <= |s|
  {
    var ps := Split(s, sep);
    if 0 < n < |ps| {
      SplitAround(s, sep, n);
    } else if n == 0 {
      assert ps[n..] == ps;
    }
  }

  /** Secondary compression never lengthens the context. */
  lemma SecondaryNoLonger(context: string, limit: int)
    ensures |SecondaryCompressed(context, limit)| <= |context|
  {
    ShortenedNoLonger(context);
    var shortened := ShortenedText(context);
    if |shortened| > limit {
      var ps := Split(shortened, "\n\n");
      KeptNoLonger(shortened, "\n\n", |ps| - KeptCount(ps, limit));
    }
  }

  /** Blank-line collapsing and line shortening never lengthen the context. */
  lemma ShortenedNoLonger(context: string)
    ensures |ShortenedText(context)| <= |context|
  {
    var collapsed := CollapseBlankLines(context);
    CollapseFromKeeps(context, 0);
    assert context[0..] == context;
    var lines := Split(collapsed, "\n");
    JoinNoLonger("\n", ShortenLines(lines), lines);
  }

  /** What `_conservative_compress` compares lines by: stripped and lower-cased. */
  function LineKey(line: string): string {
    Lower(Strip(line))
  }

  /** The key of each of `lines`. */
  function Keys(lines: seq<string>, key: string -> string): (r: seq<string>)
    ensures |r| == |lines| && forall k :: 0 <= k < |r| ==> r[k] == key(lines[k])
  {
    seq(|lines|, k requires 0 <= k < |lines| => key(lines[k]))
  }

  /** The lines kept from `lines`, in order: a line is kept when its key is over ten
      characters and no kept line before it has the same key. */
  function UniqueBy(lines: seq<string>, key: string -> string): (r: seq<string>)
    ensures forall k :: 0 <= k < |r| ==> |key(r[k])| > 10
    decreases |lines|
  {
    if lines == [] then []
    else
      var kept := UniqueBy(lines[..|lines| - 1], key);
      var line := lines[|lines| - 1];
      if key(line) !in Keys(kept, key) && |key(line)| > 10 then kept + [line] else kept
  }

  /** `_conservative_compress`'s selection of lines. */
  function UniqueLines(lines: seq<string>): seq<string> {
    UniqueBy(lines, LineKey)
  }

  /** The kept lines are a subsequence of the input. */
  lemma {:induction false} UniqueSubsequence(lines: seq<string>, key: string -> string)
    ensures IsSubsequence(UniqueBy(lines, key), lines)
    decreases |lines|
  {
    if lines != [] {
      var init := lines[..|lines| - 1];
      var kept := UniqueBy(init, key);
      var r := UniqueBy(lines, key);
      UniqueSubsequence(init, key);
      if r == kept {
        SubsequenceOfPrefix(kept, init, lines[|lines| - 1]);
        assert init + [lines[|lines| - 1]] == lines;
      } else {
        assert r[..|r| - 1] == kept;
      }
    }
  }

  /** No two kept lines have the same key. */
  lemma {:induction false} UniqueDistinct(lines: seq<string>, key: string -> string)
    ensures forall i, j :: 0 <= i < j < |UniqueBy(lines, key)| ==>
      key(UniqueBy(lines, key)[i]) != key(UniqueBy(lines, key)[j])
    decreases |lines|
  {
    if lines != [] {
      var init := lines[..|lines| - 1];
      var kept := UniqueBy(init, key);
      var r := UniqueBy(lines, key);
      UniqueDistinct(init, key);
      if r != kept {
        assert r == kept + [lines[|lines| - 1]];
        assert key(lines[|lines| - 1]) !in Keys(kept, key);
        forall i, j | 0 <= i < j < |r| ensures key(r[i]) != key(r[j]) {
          if j == |r| - 1 {
            assert r[i] == kept[i] && r[j] == lines[|lines| - 1];
            assert Keys(kept, key)[i] == key(r[i]);
          } else {
            assert r[i] == kept[i] && r[j] == kept[j];
            assert key(kept[i]) != key(kept[j]);
          }
        }
      }
    }
  }

  /** Every line whose key is over ten characters is represented by a kept line with that
      key, and the first line with a key is itself kept: only short and repeated lines are
      dropped. */
  lemma {:induction false} UniqueComplete(lines: seq<string>, key: string -> string, k: nat)
    requires k < |lines| && |key(lines[k])| > 10
    ensures key(lines[k]) in Keys(UniqueBy(lines, key), key)
    ensures (forall j :: 0 <= j < k ==> key(lines[j]) != key(lines[k])) ==> lines[k] in UniqueBy(lines, key)
    decreases |lines|
  {
    var init := lines[..|lines| - 1];
    var kept := UniqueBy(init, key);
    var r := UniqueBy(lines, key);
    if k < |init| {
      assert init[k] == lines[k];
      UniqueComplete(init, key, k);
      var m :| 0 <= m < |kept| && Keys(kept, key)[m] == key(lines[k]);
      if r != kept {
        assert r == kept + [lines[|lines| - 1]];
        assert Keys(r, key)[m] == Keys(kept, key)[m];
      }
      if forall j :: 0 <= j < k ==> key(lines[j]) != key(lines[k]) {
        assert forall j :: 0 <= j < k ==> init[j] == lines[j];
        assert lines[k] in kept;
      }
    } else {
      if forall j :: 0 <= j < k ==> key(lines[j]) != key(lines[k]) {
        UniqueKeysFromLines(init, key, key(lines[k]));
        assert r == kept + [lines[k]];
      }
      if r != kept {
        assert r == kept + [lines[|lines| - 1]];
        assert Keys(r, key)[|r| - 1] == key(lines[k]);
      }
    }
  }

  /** Every kept line is one of the input lines. */
  lemma {:induction false} UniqueFromLines(lines: seq<string>, key: string -> string)
    ensures forall m :: 0 <= m < |UniqueBy(lines, key)| ==> UniqueBy(lines, key)[m] in lines
    decreases |lines|
  {
    if lines != [] {
      var init := lines[..|lines| - 1];
      UniqueFromLines(init, key);
      assert forall x :: x in init ==> x in lines;
    }
  }

  /** A key no input line has is no kept line's key. */
  lemma UniqueKeysFromLines(lines: seq<string>, key: string -> string, x: string)
    requires forall j :: 0 <= j < |lines| ==> key(lines[j]) != x
    ensures x !in Keys(UniqueBy(lines, key), key)
  {
    var r := UniqueBy(lines, key);
    UniqueFromLines(lines, key);
    forall m | 0 <= m < |r| ensures Keys(r, key)[m] != x {
      var j :| 0 <= j < |lines| && lines[j] == r[m];
    }
  }

  /** Each kept line is the first line of the input with its key, as the `seen_lines` set
      lets through only the first line of each key. */
  lemma UniqueKeepsFirst(lines: seq<string>, key: string -> string, m: nat, k: nat)
    requires m < |UniqueBy(lines, key)| && k < |lines|
    requires key(lines[k]) == key(UniqueBy(lines, key)[m])
    requires forall j :: 0 <= j < k ==> key(lines[j]) != key(lines[k])
    ensures UniqueBy(lines, key)[m] == lines[k]
  {
    var r := UniqueBy(lines, key);
    UniqueComplete(lines, key, k);
    UniqueDistinct(lines, key);
    var p :| 0 <= p < |r| && r[p] == lines[k];
    assert key(r[p]) == key(r[m]);
  }

  /** A subsequence of the lines, joined, is no longer than all of them joined. */
  lemma {:induction false} SubsequenceJoinNoLonger(sep: string, a: seq<string>, b: seq<string>)
    requires IsSubsequence(a, b)
    ensures |Join(sep, a)| <= |Join(sep, b)|
    decreases |b|
  {
    if a != [] {
      var a', b' := a[..|a| - 1], b[..|b| - 1];
      var x := b[|b| - 1];
      assert b == b' + [x];
      if b' != [] {
        JoinAppend(sep, b', [x]);
      }
      if a[|a| - 1] == x && IsSubsequence(a', b') {
        assert a == a' + [a[|a| - 1]];
        if a' != [] {
          JoinAppend(sep, a', [x]);
          SubsequenceJoinNoLonger(sep, a', b');
        }
      } else {
        SubsequenceJoinNoLonger(sep, a, b');
      }
    }
  }
}
