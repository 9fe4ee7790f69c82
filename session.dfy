/**
 * `ConversationSession` and `ConversationState`: a chat session's context text, kept under a
 * length budget by tiered compression, and the stage and satisfaction of the analysis.
 *
 * The database row is modelled by the `saved` fields: `save()` copies the three text fields
 * into them, so a path that changes the context without saving shows as a difference between
 * the two.
 */
module Sessions {
  import opened Wrappers
  import opened Text
  import opened Summaries
  import opened Compression

  /** What each round of the context starts with. */
  const Delimiter: string := "用户："

  const DefaultMaxContextLength: int := 4000

  /** The rounds a standard compression keeps: two when the context is over twice the limit,
      else three. */
  function KeepRounds(length: nat, limit: int): nat {
    if length > limit * 2 then 2 else 3
  }

  /** The three text fields after a compression. */
  datatype Compressed = Compressed(summary: string, recent: string, context: string)

  /** The text itself if it fits `target`, else its secondary compression with `limit` as
      the budget. */
  function FitTarget(text: string, target: int, limit: int): string {
    if |text| > target then SecondaryCompressed(text, limit) else text
  }

  /** The pieces a standard compression summarises: all but the last `KeepRounds`. */
  function EarlyRounds(context: string, limit: int): seq<string>
    requires |Split(context, Delimiter)| > 3
  {
    var pieces := Split(context, Delimiter);
    pieces[..|pieces| - KeepRounds(|context|, limit)]
  }

  /** The pieces a standard compression keeps, joined by the delimiter again. */
  function RecentRounds(context: string, limit: int): string
    requires |Split(context, Delimiter)| > 3
  {
    var pieces := Split(context, Delimiter);
    Join(Delimiter, pieces[|pieces| - KeepRounds(|context|, limit)..])
  }

  /** `_compress_context`: nothing when the context has at most three pieces around the
      delimiter; else the last `KeepRounds` pieces are kept verbatim, the others summarised,
      and the context becomes the summary, a blank line and the kept pieces. */
  function StandardCompression(context: string, limit: int, order: SetOrder): Option<Compressed> {
    if |Split(context, Delimiter)| <= 3 then None
    else
      var summary, recent := ContextSummary(EarlyRounds(context, limit), order), RecentRounds(context, limit);
      Some(Compressed(summary, recent, FitTarget(summary + "\n\n" + recent, limit, limit)))
  }

  /** The last piece with the delimiter in front: the round an aggressive compression keeps. */
  function LastRound(context: string): string {
    SepLast(context, Delimiter)
  }

  /** `_aggressive_compress(target)`: nothing when there is one piece; else only the last
      round is kept and the others get the compact summary. The secondary compression runs
      when the result is over `target`, with the session's `limit` as its own budget. */
  function AggressiveCompression(context: string, target: int, limit: int, order: SetOrder): Option<Compressed> {
    var pieces := Split(context, Delimiter);
    if |pieces| <= 1 then None
    else
      var summary := CompactSummary(pieces[..|pieces| - 1], order);
      Some(Compressed(summary, LastRound(context), FitTarget(summary + "\n\n" + LastRound(context), target, limit)))
  }

  /** `_conservative_compress(target)`: blank lines collapsed, short and repeated lines
      dropped, and the secondary compression when the result is still over `target`. */
  function ConservativeCompression(context: string, target: int, limit: int): string {
    var unique := Join("\n", UniqueLines(Split(CollapseBlankLines(context), "\n")));
    FitTarget(unique, target, limit)
  }

  datatype Strategy = Aggressive | Standard | Conservative

  /** The strategy `optimize_context_length` picks for a context of `length` characters and a
      `target`: by `target / length`, below 0.5 aggressive, below 0.8 standard. */
  function StrategyFor(target: int, length: nat): Strategy
    requires length > 0
  {
    if 2 * target < length then Aggressive
    else if 5 * target < 4 * length then Standard
    else Conservative
  }

  /** The summarised pieces (at least one, the text before the first delimiter included),
      the delimiter and the recent context make up the old context. */
  lemma StandardKeepsTail(context: string, limit: int)
    requires |Split(context, Delimiter)| > 3
    ensures |EarlyRounds(context, limit)| == |Split(context, Delimiter)| - KeepRounds(|context|, limit) >= 1
    ensures Join(Delimiter, EarlyRounds(context, limit)) + Delimiter + RecentRounds(context, limit) == context
  {
    var pieces := Split(context, Delimiter);
    SplitAround(context, Delimiter, |pieces| - KeepRounds(|context|, limit));
  }

  /** The context after a compression step is no longer than the text it starts from. */
  lemma FitTargetNoLonger(text: string, target: int, limit: int)
    ensures |FitTarget(text, target, limit)| <= |text|
  {
    SecondaryNoLonger(text, limit);
  }

  /** The summarised pieces and the last round make up the old context. */
  lemma AggressiveKeepsLast(context: string)
    requires |Split(context, Delimiter)| > 1
    ensures Join(Delimiter, Split(context, Delimiter)[..|Split(context, Delimiter)| - 1]) + LastRound(context) == context
  {
    SplitLast(context, Delimiter);
  }

  /** The conservative compression never lengthens the context. */
  lemma ConservativeNoLonger(context: string, target: int, limit: int)
    ensures |ConservativeCompression(context, target, limit)| <= |context|
  {
    var collapsed := CollapseBlankLines(context);
    CollapseFromKeeps(context, 0);
    assert context[0..] == context;
    var lines := Split(collapsed, "\n");
    UniqueSubsequence(lines, LineKey);
    SubsequenceJoinNoLonger("\n", UniqueLines(lines), lines);
    SecondaryNoLonger(Join("\n", UniqueLines(lines)), limit);
  }

  /** For a positive `b`, `a / b < c` exactly when `a < c * b`. */
  lemma QuotientBelow(a: real, b: real, c: real)
    requires b > 0.0
    ensures a / b < c <==> a < c * b
  {
    var q := a / b;
    assert q * b == a;
    if q < c {
      assert (c - q) * b > 0.0;
    } else {
      assert (q - c) * b >= 0.0;
    }
  }

  /** `StrategyFor` compares the ratio `target / length` with 0.5 and 0.8. */
  lemma StrategyByRatio(target: int, length: nat)
    requires length > 0
    ensures var ratio := target as real / length as real;
      (StrategyFor(target, length) == Aggressive <==> ratio < 0.5)
      && (StrategyFor(target, length) == Standard <==> 0.5 <= ratio < 0.8)
      && (StrategyFor(target, length) == Conservative <==> 0.8 <= ratio)
  {
    QuotientBelow(target as real, length as real, 0.5);
    QuotientBelow(target as real, length as real, 0.8);
  }

  /** What `optimize_context_length` does: return a flag, or fail dividing by a zero length. */
  datatype Outcome = Returned(compressed: bool) | ZeroDivisionError

  /** `_secondary_compress`'s first loop: every line shortened. */
  method ShortenEach(lines: seq<string>) returns (compressedLines: seq<string>)
    ensures compressedLines == ShortenLines(lines)
  {
    compressedLines := [];
    for i := 0 to |lines|
      invariant compressedLines == ShortenLines(lines[..i])
    {
      var line := lines[i];
      if |line| > 200 {
        compressedLines := compressedLines + [line[..100] + "..." + line[|line| - 50..]];
      } else {
        compressedLines := compressedLines + [line];
      }
    }
    assert lines[..|lines|] == lines;
  }

  /** `_secondary_compress`'s second loop: from the last paragraph backwards, each one is
      put in front of the kept ones while their total stays within four fifths of `limit`;
      the first that does not fit ends the walk. */
  method KeepLastParagraphs(paragraphs: seq<string>, limit: int) returns (kept: seq<string>)
    ensures kept == paragraphs[|paragraphs| - KeptCount(paragraphs, limit)..]
  {
    kept := [];
    var currentLength := 0;
    var j := |paragraphs|;
    while j > 0
      invariant 0 <= j <= |paragraphs|
      invariant kept == paragraphs[j..] && currentLength == Total(kept)
      invariant KeptCount(paragraphs, limit) == |paragraphs| - j + KeptBefore(paragraphs, j, limit)
    {
      var paragraph := paragraphs[j - 1];
      assert paragraphs[j - 1..] == [paragraph] + kept;
      if WithinFourFifths(currentLength + |paragraph|, limit) {
        kept := [paragraph] + kept;
        currentLength := currentLength + |paragraph|;
        j := j - 1;
      } else {
        break;
      }
    }
  }

  /** `_secondary_compress(text)` for a session whose `max_context_length` is `limit`. */
  method SecondaryCompress(text: string, limit: int) returns (r: string)
    ensures r == SecondaryCompressed(text, limit)
  {
    var compressedLines := ShortenEach(Split(CollapseBlankLines(text), "\n"));
    r := Join("\n", compressedLines);
    if |r| > limit {
      var kept := KeepLastParagraphs(Split(r, "\n\n"), limit);
      r := Join("\n\n", kept);
    }
  }

  /** The steps of `_compress_context` on the context text. */
  method StandardCompress(context: string, limit: int, order: SetOrder) returns (r: Option<Compressed>)
    ensures r == StandardCompression(context, limit, order)
  {
    var pieces := Split(context, Delimiter);
    if |pieces| <= 3 {
      return None;
    }
    var keep := KeepRounds(|context|, limit);
    var recent := Join(Delimiter, pieces[|pieces| - keep..]);
    assert recent == RecentRounds(context, limit);
    var summary := GenerateContextSummary(pieces[..|pieces| - keep], order);
    assert summary == ContextSummary(EarlyRounds(context, limit), order);
    var compressed := FitToTarget(summary + "\n\n" + recent, limit, limit);
    return Some(Compressed(summary, recent, compressed));
  }

  /** The secondary compression of `text` when it is over `target`. */
  method FitToTarget(text: string, target: int, limit: int) returns (r: string)
    ensures r == FitTarget(text, target, limit)
  {
    r := text;
    if |r| > target {
      r := SecondaryCompress(r, limit);
    }
  }

  /** The steps of `_aggressive_compress` on the context text. */
  method AggressiveCompressText(context: string, target: int, limit: int, order: SetOrder) returns (r: Option<Compressed>)
    ensures r == AggressiveCompression(context, target, limit, order)
  {
    var pieces := Split(context, Delimiter);
    if |pieces| <= 1 {
      return None;
    }
    var recent := Delimiter + pieces[|pieces| - 1];
    assert recent == LastRound(context);
    var summary := GenerateCompactSummary(pieces[..|pieces| - 1], order);
    var compressed := FitToTarget(summary + "\n\n" + recent, target, limit);
    return Some(Compressed(summary, recent, compressed));
  }

  /** `_conservative_compress`'s loop: the keys seen so far are kept in a set. */
  method DropRepeatedLines(lines: seq<string>) returns (unique: seq<string>)
    ensures unique == UniqueLines(lines)
  {
    var seen: set<string> := {};
    unique := [];
    for i := 0 to |lines|
      invariant unique == UniqueLines(lines[..i])
      invariant forall key :: key in seen <==> key in Keys(unique, LineKey)
    {
      var key := Lower(Strip(lines[i]));
      assert lines[..i + 1][..i] == lines[..i] && lines[..i + 1][i] == lines[i];
      assert key == LineKey(lines[i]);
      if key !in seen && |key| > 10 {
        seen := seen + {key};
        unique := unique + [lines[i]];
        assert Keys(unique, LineKey) == Keys(unique[..|unique| - 1], LineKey) + [key];
      }
    }
    assert lines[..|lines|] == lines;
  }

  /** The steps of `_conservative_compress` on the context text. */
  method ConservativeCompressText(context: string, target: int, limit: int) returns (r: string)
    ensures r == ConservativeCompression(context, target, limit)
  {
    var unique := DropRepeatedLines(Split(CollapseBlankLines(context), "\n"));
    r := FitToTarget(Join("\n", unique), target, limit);
  }

  class ConversationSession {
    var context: string
    var contextSummary: string
    var recentContext: string
    var maxContextLength: int

    /** The row last written by `save()`. */
    var savedContext: string
    var savedSummary: string
    var savedRecent: string

    constructor (maxContextLength: int)
      ensures context == "" && contextSummary == "" && recentContext == ""
      ensures this.maxContextLength == maxContextLength
      ensures Saved()
    {
      context, contextSummary, recentContext := "", "", "";
      this.maxContextLength := maxContextLength;
      savedContext, savedSummary, savedRecent := "", "", "";
    }

    /** The row holds the current text fields. */
    predicate Saved()
      reads this
    {
      savedContext == context && savedSummary == contextSummary && savedRecent == recentContext
    }

    /** The text fields are those of `c`, and saved. */
    predicate Holds(c: Compressed)
      reads this
    {
      context == c.context && contextSummary == c.summary && recentContext == c.recent && Saved()
    }

    /** The limit is unchanged; the fields are those of the compression, or untouched when
        there is none. */
    twostate predicate Became(r: Option<Compressed>)
      reads this
    {
      maxContextLength == old(maxContextLength)
      && match r
         case None => unchanged(this)
         case Some(c) => Holds(c)
    }

    method Save()
      modifies this
      ensures context == old(context) && contextSummary == old(contextSummary)
      ensures recentContext == old(recentContext) && maxContextLength == old(maxContextLength)
      ensures Saved()
    {
      savedContext, savedSummary, savedRecent := context, contextSummary, recentContext;
    }

    /** `clear_context`: empties exactly the three text fields. */
    method ClearContext()
      modifies this
      ensures context == "" && contextSummary == "" && recentContext == ""
      ensures maxContextLength == old(maxContextLength) && Saved()
    {
      context, contextSummary, recentContext := "", "", "";
      Save();
    }

    /** Sets the three text fields and saves them. */
    method Store(c: Compressed)
      modifies this
      ensures Holds(c) && maxContextLength == old(maxContextLength)
    {
      contextSummary, recentContext, context := c.summary, c.recent, c.context;
      Save();
    }

    /** `_compress_context`. */
    method CompressContext(order: SetOrder)
      modifies this
      ensures Became(StandardCompression(old(context), old(maxContextLength), order))
    {
      var r := StandardCompress(context, maxContextLength, order);
      if r.Some? {
        Store(r.value);
      }
    }

    /** `compress_context_if_needed(max_length)`: compresses when the context is over
        `max_length`, or over the session's limit when none is given. */
    method CompressIfNeeded(maxLength: Option<int>, order: SetOrder) returns (compressed: bool)
      modifies this
      ensures compressed <==> |old(context)| > maxLength.GetOr(old(maxContextLength))
      ensures !compressed ==> unchanged(this)
      ensures compressed ==> Became(StandardCompression(old(context), old(maxContextLength), order))
    {
      if |context| <= maxLength.GetOr(maxContextLength) {
        return false;
      }
      CompressContext(order);
      return true;
    }

    /** `_aggressive_compress(target)`. */
    method AggressiveCompress(target: int, order: SetOrder)
      modifies this
      ensures Became(AggressiveCompression(old(context), target, old(maxContextLength), order))
    {
      var r := AggressiveCompressText(context, target, maxContextLength, order);
      if r.Some? {
        Store(r.value);
      }
    }

    /** `_conservative_compress(target)`. */
    method ConservativeCompress(target: int)
      modifies this
      ensures Became(Some(Compressed(old(contextSummary), old(recentContext),
        ConservativeCompression(old(context), target, old(maxContextLength)))))
    {
      var compressed := ConservativeCompressText(context, target, maxContextLength);
      Store(Compressed(contextSummary, recentContext, compressed));
    }

    /** `optimize_context_length(target_length)`: nothing when the context fits the target
        (the session's limit when none is given); else the strategy `StrategyFor` picks. A
        negative target with an empty context divides by zero. */
    method OptimizeContextLength(targetLength: Option<int>, order: SetOrder) returns (outcome: Outcome)
      modifies this
      ensures var target, length := targetLength.GetOr(old(maxContextLength)), |old(context)|;
        if length <= target then outcome == Returned(false) && unchanged(this)
        else if length == 0 then outcome == ZeroDivisionError && unchanged(this)
        else
          outcome == Returned(true)
          && match StrategyFor(target, length)
             case Aggressive => Became(AggressiveCompression(old(context), target, old(maxContextLength), order))
             case Standard => Became(StandardCompression(old(context), old(maxContextLength), order))
             case Conservative =>
               Became(Some(Compressed(old(contextSummary), old(recentContext),
                 ConservativeCompression(old(context), target, old(maxContextLength)))))
    {
      var target := targetLength.GetOr(maxContextLength);
      var length := |context|;
      if length <= target {
        return Returned(false);
      }
      if length == 0 {
        return ZeroDivisionError;
      }
      match StrategyFor(target, length) {
        case Aggressive => AggressiveCompress(target, order);
        case Standard => CompressContext(order);
        case Conservative => ConservativeCompress(target);
      }
      outcome := Returned(true);
    }

    /** `update_context_with_compression(user_input, bot_reply)`: the round is appended; when
        that puts the context over the limit the standard compression runs, and when that
        compression does nothing (three pieces or fewer) the grown context is not saved. */
    method UpdateContextWithCompression(userInput: string, botReply: string, order: SetOrder)
      modifies this
      ensures var grown := old(context) + Delimiter + userInput + "\n回复：" + botReply + "\n";
        maxContextLength == old(maxContextLength)
        && if |grown| <= old(maxContextLength) then
             context == grown && contextSummary == old(contextSummary)
             && recentContext == old(recentContext) && Saved()
           else
             match StandardCompression(grown, old(maxContextLength), order)
             case Some(c) => Holds(c)
             case None =>
               context == grown && contextSummary == old(contextSummary)
               && recentContext == old(recentContext) && savedContext == old(savedContext)
               && savedSummary == old(savedSummary) && savedRecent == old(savedRecent)
      ensures var grown := old(context) + Delimiter + userInput + "\n回复：" + botReply + "\n";
        (old(Saved()) && |grown| > old(maxContextLength)
         && StandardCompression(grown, old(maxContextLength), order).None?) ==> !Saved()
    {
      var grown := context + Delimiter + userInput + "\n回复：" + botReply + "\n";
      context := grown;
      if |grown| > maxContextLength {
        CompressContext(order);
      } else {
        Save();
      }
    }
  }

  class ConversationState {
    var currentStage: string
    var analysisDepth: int
    var userSatisfaction: int

    /** The defaults of a new state. */
    constructor ()
      ensures currentStage == "problem_identification" && analysisDepth == 1 && userSatisfaction == 0
      ensures Valid()
    {
      currentStage, analysisDepth, userSatisfaction := "problem_identification", 1, 0;
    }

    /** The depth counts rounds from one, and the satisfaction is a score from 0 to 5. */
    predicate Valid()
      reads this
    {
      analysisDepth >= 1 && 0 <= userSatisfaction <= 5
    }

    /** `update_stage`: the new stage, one round deeper. */
    method UpdateStage(newStage: string)
      modifies this
      ensures currentStage == newStage && analysisDepth == old(analysisDepth) + 1
      ensures userSatisfaction == old(userSatisfaction)
      ensures old(Valid()) ==> Valid()
    {
      currentStage := newStage;
      analysisDepth := analysisDepth + 1;
    }

    /** `update_satisfaction`: a score outside 0..5 is ignored. */
    method UpdateSatisfaction(satisfaction: int)
      modifies this
      ensures userSatisfaction == if 0 <= satisfaction <= 5 then satisfaction else old(userSatisfaction)
      ensures currentStage == old(currentStage) && analysisDepth == old(analysisDepth)
      ensures old(Valid()) ==> Valid()
    {
      if 0 <= satisfaction <= 5 {
        userSatisfaction := satisfaction;
      }
    }
  }
}
