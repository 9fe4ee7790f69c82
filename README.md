# Log-analysis chat backend: retrieval, context compression and report rendering

This project is a Dafny model of the core of a fault-analysis chat backend. The backend
answers questions about service logs:

- **Log retrieval and fusion.** `retrieve_logs` queries a vector index three ways. These are
  semantic similarity, keywords extracted from the question, and error codes extracted from
  it. The hits are fused by content, ranked by score and cut to `top_k`.
- **Context filter.** `_intelligent_context_filter` keeps the hits worth showing the
  language model. It extracts each log's level, error codes and services, scores the log's
  information value, and keeps at most eight.
- **Conversation sessions.** A `ConversationSession` holds the running dialogue, whose
  rounds are separated by `用户：`. Tiered compression tries to keep it under a length budget,
  but does not guarantee that it will:
  - standard compression: summarise the early rounds and keep the last two or three;
  - aggressive compression: keep only the last round;
  - conservative compression: drop blank, short and repeated lines;
  - secondary compression: cut long lines and keep trailing paragraphs.

  A `ConversationState` tracks the stage and satisfaction of the analysis.
- **Domain knowledge.** Constant tables give error-code meanings, service dependencies,
  fault categories with severities, patterns, monitoring advice, expert insights and best
  practices. Lookups into them are modelled too.
- **Rate limiting.** `check_rate_limit` counts one API key's requests in a fixed window.
- **Report rendering.** `json_to_markdown` turns the model's JSON answer into a Markdown
  fault report. It falls back to the raw answer whenever cleaning, parsing or rendering fails.
- **Level-extraction samples.** The sample lines of `test_extract.py`.

## Modules

| Module | File | What it models |
|---|---|---|
| `Wrappers` | wrappers.dfy | `Option` |
| `Text` | text.dfy | Python `str` operations: `split`, `join`, `strip`, `lower`, `in`, plus `\w` words |
| `Patterns` | patterns.dfy | the `re.findall` shapes the summaries use |
| `Ranking` | ranking.dfy | slicing `xs[:n]` and the stable `list.sort(reverse=True)` |
| `LogEntities` | entities.dfy | level, error-code, service and keyword extraction, keyword score, information value |
| `Retrieval` | retrieval.dfy | the three retrieval strategies, fusion and ranking, the context filter |
| `Binary64` | binary64.dfy | the information value as IEEE doubles |
| `Compression` | compression.dfy | `_secondary_compress` and `_conservative_compress` as functions |
| `Summaries` | summary.dfy | `_generate_context_summary` and `_generate_compact_summary` |
| `Sessions` | session.dfy | `ConversationSession`, `ConversationState`, the compression methods |
| `RateLimiting` | rate_limit.dfy | `check_rate_limit` and `RateLimit.should_limit` |
| `DomainKnowledge` | domain.dfy | the knowledge tables and their lookups |
| `Report` | report.dfy | `json_to_markdown` |
| `LevelSamples` | level_samples.dfy | the level-extraction sample lines |

### Modelling conventions

- Regular expressions with `\b` on both sides are filters over `Words(s)`, the maximal runs
  of `\w` characters. A greedy run cannot end at a boundary inside a word.
- `\w` is ASCII letters, digits, `_` and the CJK block U+4E00..U+9FFF. `\s` is the set
  `str.isspace` accepts. `IGNORECASE` and `.lower()` fold ASCII case.
- The index is the parameter `search`, a function from a query and `top_k` to nodes, or to
  nothing when the call raises.
- Python's iteration order of a `set` is the parameter `order`. The summaries are stated
  for every order that lists each element once.
- `json.loads` is the parameter `parse`. The text of a non-string value inside an f-string
  is the parameter `show`.
- `save()` copies the three text fields of a session into `saved` fields. A path that
  changes the context without saving therefore shows in the model.
- The dividing `optimize_context_length` reports `ZeroDivisionError` as an outcome.
- A stored rate-limit window ends at a whole second (`Window.resetTime` is an `int`), because
  `check_rate_limit` reads the record from the database on every call. `RateLimit.should_limit`
  works on the attribute in memory, which keeps the float it was given, so its `resetTime` is
  a real.

### Behaviour worth knowing

- `update_context_with_compression` can leave the grown context unsaved. This happens when
  the grown context is over the limit but has at most three rounds. `_compress_context` then
  returns early without `save()`, and the caller does not save either.
  `Sessions.ConversationSession.UpdateContextWithCompression` states this.
- Compression can leave the context over its limit, or empty it:
  - with at most three rounds, `_compress_context` does nothing, whatever the length;
  - the paragraph walk of `_secondary_compress` adds up paragraph lengths without the
    `"\n\n"` between them. With a limit of 5, "a\n\nb\n\nc" keeps all three paragraphs
    and stays 7 characters long;
  - when the last paragraph alone is over four fifths of the limit, the walk keeps nothing
    and the context becomes "" (`Compression.SecondaryEmptiesOnLongTail`).
- A window's end is stored in an integer column and read back on every request, so it is
  cut to whole seconds. A window opened at 40.5 with an interval of 60 ends at 100, and a
  request at 100.2 starts a new one (`RateLimiting.TruncatedEndOpensNewWindow`).
- A level word is itself an error code to `_extract_error_codes`. "FATAL PAY_RISK:
  PaymentService down" yields `["FATAL", "PAY_RISK"]`
  (`LevelSamples.PaymentDownEntities`).
- The retrieval strategies run in a fixed order, and fusion keeps the first copy of each
  content. A log that the semantic strategy returns therefore keeps its semantic score,
  even when the error-code strategy scores it 1.0 (`Retrieval.SemanticCopyWins`).

## Model

| member | source | states |
|---|---|---|
| LogEntities.ExtractLogLevel | backend/django_backend/topklogsystem.py:552-559 | "UNKNOWN" exactly when none of FATAL, ERROR, WARN, WARNING, INFO, INFORMATION, DEBUG occurs as a whole word ignoring case; otherwise the first of them, in that order, that occurs |
| LogEntities.FirstListedLevelWins | backend/django_backend/topklogsystem.py:552-559 | a level that occurs, with no earlier-listed level occurring, is the level returned |
| LogEntities.ExtractErrorCodes | backend/django_backend/topklogsystem.py:561-569 | the whole words shaped `[A-Z][A-Z0-9_]{2,}` that are not stop words, in order of occurrence (a subsequence of the words), each as often as it occurs; no other token |
| LogEntities.ExtractServices | backend/django_backend/topklogsystem.py:571-576 | the whole words shaped `[A-Za-z][A-Za-z0-9]*Service`, in order of occurrence, each as often as it occurs; no other token; each ends in "Service" and is longer than it |
| LogEntities.CjkChunks | backend/django_backend/topklogsystem.py:227 | every chunk found is two to four CJK ideographs |
| LogEntities.CjkChunksReports | backend/django_backend/topklogsystem.py:227 | two ideographs side by side start a chunk that runs to the end of their run or four characters on, and the scan resumes after it |
| LogEntities.CjkChunksFrom | backend/django_backend/topklogsystem.py:227 | every chunk reported occurs in the query at or after the scan's start |
| LogEntities.CjkChunksEmpty | backend/django_backend/topklogsystem.py:227 | nothing is found exactly when no two ideographs stand side by side |
| LogEntities.TermsIn | backend/django_backend/topklogsystem.py:235-238 | a domain term is added exactly when it occurs in the query |
| LogEntities.ExtractKeywords | backend/django_backend/topklogsystem.py:220-240 | the keywords are exactly the CJK chunks, English words of three or more letters and domain terms of the query, each once |
| LogEntities.KeywordScoreRange | backend/django_backend/topklogsystem.py:242-252 | the keyword score lies in [0, 1]; for a non-empty list it is 1 exactly when every keyword occurs in the text ignoring case, and 0 exactly when none does |
| LogEntities.CalculateKeywordScore | backend/django_backend/topklogsystem.py:242-252 | the counting loop returns the keyword score, a value in [0, 1] |
| LogEntities.InformationValue | backend/django_backend/topklogsystem.py:434-457 | the value lies in [0.1, 1.0] and is never below the level's weight |
| LogEntities.ValueThreshold | backend/django_backend/topklogsystem.py:434-457 | a log clears the 0.3 bar exactly when its level is INFO or higher, or it has error codes, or it has services and is DEBUG or 50 to 500 characters long |
| Retrieval.SemanticFrom | backend/django_backend/topklogsystem.py:153-160 | one semantic hit per node, in order, with the node's text and score |
| Retrieval.SemanticRetrieval | backend/django_backend/topklogsystem.py:147-163 | the hits of the index for the query, all marked semantic, none when the index raises |
| Retrieval.KeywordFromMembers | backend/django_backend/topklogsystem.py:178-188 | a keyword hit is exactly a node whose keyword score exceeds 0.3, scored by that score |
| Retrieval.KeywordRetrieval | backend/django_backend/topklogsystem.py:165-191 | the keyword hits of the index for the joined keywords; every one is marked keyword with a score in (0.3, 1] |
| Retrieval.ErrorCodeFromMembers | backend/django_backend/topklogsystem.py:206-215 | an error-code hit is exactly a node that contains one of the codes verbatim, scored 1.0 |
| Retrieval.ErrorCodeRetrieval | backend/django_backend/topklogsystem.py:193-218 | the error-code hits for the joined codes; each is scored 1.0 and mentions a code of the query |
| Retrieval.DedupContents | backend/django_backend/topklogsystem.py:256-264 | de-duplication loses no content |
| Retrieval.DedupDistinct | backend/django_backend/topklogsystem.py:256-264 | no two kept hits share a content |
| Retrieval.DedupKeepsFirst | backend/django_backend/topklogsystem.py:256-264 | every kept hit is the first hit of the input with its content |
| Retrieval.DedupKeepsEveryFirst | backend/django_backend/topklogsystem.py:256-264 | the first hit with each content is kept |
| Retrieval.RankedFacts | backend/django_backend/topklogsystem.py:254-270 | the result is sorted by descending score, has distinct contents, holds only first occurrences, and has at most `top_k` hits |
| Retrieval.RankedKeepsBest | backend/django_backend/topklogsystem.py:267-270 | no de-duplicated hit left out by the cut scores above a hit that is kept |
| Retrieval.DeduplicateAndRank | backend/django_backend/topklogsystem.py:254-270 | the loop over the hits with a set of seen contents, then the sort and the cut, give the ranked fusion |
| Retrieval.RetrieveLogs | backend/django_backend/topklogsystem.py:121-145 | no index gives no logs; otherwise the ranked fusion of the semantic, keyword and error-code hits in that order |
| Retrieval.SemanticCopyWins | backend/django_backend/topklogsystem.py:139-140 | the first semantic hit with a content survives fusion, whatever the other strategies return |
| Retrieval.Annotate | backend/django_backend/topklogsystem.py:423-426 | an annotated log keeps its content, score and method, and records its extracted level |
| Retrieval.KeepInformativeMembers | backend/django_backend/topklogsystem.py:404-427 | a log is kept, annotated, exactly when its relevance is at least 0.1 and its information value exceeds 0.3 |
| Retrieval.IntelligentContextFilter | backend/django_backend/topklogsystem.py:400-432 | at most eight annotated informative logs, sorted by 0.6 times the value plus 0.4 times the relevance |
| Retrieval.KeptValueRange | backend/django_backend/topklogsystem.py:420-430 | a kept log records an information value in (0.3, 1.0], and its ranking key combines that value and its relevance |
| Ranking.Take | backend/django_backend/topklogsystem.py:270 | `xs[:n]` is the prefix of length `n`, clipped to the list, counting from the end for a negative `n` |
| Ranking.SortDescFacts | backend/django_backend/topklogsystem.py:267 | the stable descending sort is sorted, a permutation, and keeps the input order among equal keys |
| Ranking.TakeSorted | backend/django_backend/topklogsystem.py:430-432 | a prefix of a sorted list is sorted |
| Binary64.LiteralsAreNearestDoubles | backend/django_backend/topklogsystem.py:441-455 | each decimal literal of the information value is the double nearest to it |
| Binary64.DebugWithLengthBonusPasses | backend/django_backend/topklogsystem.py:434-457 | in doubles, a DEBUG log with the length bonus alone scores above 0.3, while its exact value is 0.3 |
| Binary64.ServicesOnlyPasses | backend/django_backend/topklogsystem.py:434-457 | in doubles, an unweighted log with services alone scores above 0.3, while its exact value is 0.3 |
| Compression.CollapseFromKeeps | backend/django_backend/deepseek_api/models.py:277 | collapsing blank-line runs never lengthens the text, keeps every visible character in order, and leaves no stretch of whitespace holding three or more newlines |
| Compression.CollapseFewNewlines | backend/django_backend/deepseek_api/models.py:277 | a text with fewer than three newlines is left as it is |
| Compression.ShortenLine | backend/django_backend/deepseek_api/models.py:284-289 | a line is changed exactly when it is over 200 characters; then the result is 153 characters: the first 100, then "...", then the last 50 |
| Compression.ShortenIdempotent | backend/django_backend/deepseek_api/models.py:284-289 | shortening a shortened line changes nothing |
| Compression.KeptBeforeFits | backend/django_backend/deepseek_api/models.py:301-307 | the walk from the back keeps paragraphs whose total is within four fifths of the limit, and stops only at one that would break it |
| Compression.KeptSuffix | backend/django_backend/deepseek_api/models.py:295-309 | the kept paragraphs are the longest suffix whose total is within four fifths of the limit |
| Compression.SecondaryNoLonger | backend/django_backend/deepseek_api/models.py:272-311 | secondary compression never lengthens the context |
| Compression.SecondaryEmptiesOnLongTail | backend/django_backend/deepseek_api/models.py:294-309 | a text over the limit whose last paragraph alone is over four fifths of the limit becomes empty |
| Compression.ShortenedNoLonger | backend/django_backend/deepseek_api/models.py:277-292 | collapsing and line shortening never lengthen the context |
| Compression.UniqueBy | backend/django_backend/deepseek_api/models.py:406-410 | every kept line has a stripped length over ten |
| Compression.UniqueSubsequence | backend/django_backend/deepseek_api/models.py:402-412 | the kept lines are a subsequence of the input lines |
| Compression.UniqueDistinct | backend/django_backend/deepseek_api/models.py:406-410 | no two kept lines have the same stripped, lower-cased key |
| Compression.UniqueComplete | backend/django_backend/deepseek_api/models.py:406-410 | every line whose key is over ten characters has a kept line with that key, and the first line with each such key is kept |
| Compression.UniqueKeepsFirst | backend/django_backend/deepseek_api/models.py:406-410 | each kept line is the first input line whose stripped, lower-cased key it carries |
| Compression.SubsequenceJoinNoLonger | backend/django_backend/deepseek_api/models.py:412 | joining a subsequence of the lines gives a text no longer than joining all of them |
| Patterns.FindAllLead | backend/django_backend/deepseek_api/models.py:171-211 | every capture is non-empty and made of the pattern's class |
| Patterns.FindAllLeadReports | backend/django_backend/deepseek_api/models.py:171-211 | a match at a position is reported, and the scan resumes after it |
| Patterns.FindAllLeadEmpty | backend/django_backend/deepseek_api/models.py:171-211 | nothing is found exactly when no match starts anywhere |
| Patterns.FindAllTrail | backend/django_backend/deepseek_api/models.py:196-197 | every capture is a non-empty run of digits |
| Patterns.MatchTrailMeaning | backend/django_backend/deepseek_api/models.py:196-197 | a match is a maximal digit run at the position, then only whitespace, then the suffix |
| Patterns.FindAllTrailReports | backend/django_backend/deepseek_api/models.py:196-197 | a match at a position is reported, and the scan resumes after the suffix |
| Patterns.FindAllTrailFrom | backend/django_backend/deepseek_api/models.py:196-197 | every number reported is the capture of a match that starts at or after the scan's start |
| Patterns.FindAllTrailEmpty | backend/django_backend/deepseek_api/models.py:196-197 | nothing is found exactly when no match starts anywhere |
| Patterns.FindAllShape | backend/django_backend/deepseek_api/models.py:194-195 | every match has the length of the shape |
| Patterns.FindAllShapeReports | backend/django_backend/deepseek_api/models.py:194-195 | an occurrence of the shape at a position is reported, and the scan resumes after it |
| Patterns.FindAllShapeFrom | backend/django_backend/deepseek_api/models.py:194-195 | every text reported is an occurrence of the shape at or after the scan's start |
| Patterns.FindAllShapeEmpty | backend/django_backend/deepseek_api/models.py:194-195 | nothing is found exactly when the shape occurs nowhere |
| Summaries.GatherRounds | backend/django_backend/deepseek_api/models.py:169-231 | the loop over the rounds gathers what each round contributes, merged in order |
| Summaries.GatherKeeps | backend/django_backend/deepseek_api/models.py:169-231 | a property of each round's information that merging keeps holds of the gathered information |
| Summaries.CodesCollected | backend/django_backend/deepseek_api/models.py:171-179 | an error code is collected exactly when one of the four patterns captures it in some round |
| Summaries.ServicesCollected | backend/django_backend/deepseek_api/models.py:182-190 | a service is collected exactly when one of the four patterns captures it in some round |
| Summaries.KeywordsCollected | backend/django_backend/deepseek_api/models.py:214-221 | a keyword is collected exactly when it is an important word occurring in some round |
| Summaries.GenerateContextSummary | backend/django_backend/deepseek_api/models.py:155-270 | gathering round by round and joining the lines gives the context summary |
| Summaries.SummaryLinesOneLine | backend/django_backend/deepseek_api/models.py:234-268 | no line of the summary holds a newline |
| Summaries.OneLinesRoundTrip | backend/django_backend/deepseek_api/models.py:270 | lines without newlines, joined by newlines and split again, come back unchanged |
| Summaries.SummaryLayout | backend/django_backend/deepseek_api/models.py:234-270 | the summary's lines start with the header and end with the round count |
| Summaries.ShownItems | backend/django_backend/deepseek_api/models.py:241-256 | five error codes, three services and eight keywords are named, or all of them when there are fewer, each one collected |
| Summaries.GenerateCompactSummary | backend/django_backend/deepseek_api/models.py:420-462 | gathering round by round and joining the lines gives the compact summary |
| Summaries.CompactCounts | backend/django_backend/deepseek_api/models.py:431-446 | each round adds at most three error codes and two services, and only the three topic names |
| Summaries.CompactBounds | backend/django_backend/deepseek_api/models.py:425-446 | the compact summary's sets hold at most three codes and two services per round and three topics |
| Sessions.StandardKeepsTail | backend/django_backend/deepseek_api/models.py:124-143 | the summarised rounds are all but the kept ones, at least one; joined with the kept ones, they give back the old context |
| Sessions.FitTargetNoLonger | backend/django_backend/deepseek_api/models.py:148-150 | fitting the context to a target never lengthens it |
| Sessions.AggressiveKeepsLast | backend/django_backend/deepseek_api/models.py:374-381 | the summarised rounds and the kept last round give back the old context |
| Sessions.ConservativeNoLonger | backend/django_backend/deepseek_api/models.py:392-418 | conservative compression never lengthens the context |
| Sessions.StrategyByRatio | backend/django_backend/deepseek_api/models.py:357-367 | the chosen strategy is aggressive below a ratio of 0.5, standard below 0.8, and conservative otherwise |
| Sessions.ShortenEach | backend/django_backend/deepseek_api/models.py:280-292 | the loop shortens every line |
| Sessions.KeepLastParagraphs | backend/django_backend/deepseek_api/models.py:297-309 | the backward loop keeps the suffix of `KeptCount` paragraphs |
| Sessions.SecondaryCompress | backend/django_backend/deepseek_api/models.py:272-311 | the method computes the secondary compression of the text |
| Sessions.StandardCompress | backend/django_backend/deepseek_api/models.py:119-153 | the method computes the standard compression of the context |
| Sessions.FitToTarget | backend/django_backend/deepseek_api/models.py:148-150 | the text is compressed again only when it is over the target |
| Sessions.AggressiveCompressText | backend/django_backend/deepseek_api/models.py:371-390 | the method computes the aggressive compression of the context |
| Sessions.DropRepeatedLines | backend/django_backend/deepseek_api/models.py:402-410 | the loop with a set of seen keys keeps the lines `UniqueLines` selects |
| Sessions.ConservativeCompressText | backend/django_backend/deepseek_api/models.py:392-418 | the method computes the conservative compression of the context |
| Sessions.ConversationSession.constructor | backend/django_backend/deepseek_api/models.py:61-65 | a new session has empty text fields, the given limit, and is saved |
| Sessions.ConversationSession.ClearContext | backend/django_backend/deepseek_api/models.py:100-105 | exactly the three text fields are emptied and saved |
| Sessions.ConversationSession.CompressContext | backend/django_backend/deepseek_api/models.py:119-153 | the fields become the standard compression and are saved, or are untouched when there are three pieces or fewer |
| Sessions.ConversationSession.CompressIfNeeded | backend/django_backend/deepseek_api/models.py:107-117 | the result is true exactly when the context is over the given or default limit; only then does the standard compression run, and otherwise nothing changes |
| Sessions.ConversationSession.AggressiveCompress | backend/django_backend/deepseek_api/models.py:371-390 | the fields become the aggressive compression, or are untouched for a single piece |
| Sessions.ConversationSession.ConservativeCompress | backend/django_backend/deepseek_api/models.py:392-418 | the context becomes its conservative compression, and summary and recent context stay |
| Sessions.ConversationSession.OptimizeContextLength | backend/django_backend/deepseek_api/models.py:347-369 | false and no change when the context fits; a division error for a negative target with an empty context; otherwise true after the strategy the ratio picks |
| Sessions.ConversationSession.UpdateContextWithCompression | backend/django_backend/deepseek_api/models.py:464-475 | the round is appended and saved when it fits; otherwise standard compression runs, and when that has nothing to do the grown context stays unsaved |
| Sessions.ConversationState.constructor | backend/django_backend/deepseek_api/models.py:502-521 | stage "problem_identification", depth 1 and satisfaction 0 |
| Sessions.ConversationState.UpdateStage | backend/django_backend/deepseek_api/models.py:538-542 | the new stage, one level deeper, the satisfaction unchanged |
| Sessions.ConversationState.UpdateSatisfaction | backend/django_backend/deepseek_api/models.py:544-548 | a score from 0 to 5 is stored and any other is ignored; the stage and depth stay |
| RateLimiting.Truncate | backend/django_backend/deepseek_api/models.py:35 | the whole number the integer `reset_time` column keeps of a float: the fraction dropped toward zero |
| RateLimiting.AdmitDecision | backend/django_backend/deepseek_api/services.py:73-84 | a request passes exactly when the window has ended or the count is under the limit; a refusal changes nothing; within the window the count grows by one; a new window starts at one and ends at `now + interval` cut to whole seconds |
| RateLimiting.TruncatedEndOpensNewWindow | backend/django_backend/deepseek_api/services.py:74-78 | a window opened at 40.5 for 60 seconds ends at 100, so a request at 100.2 opens a new window though the count is full |
| RateLimiting.AdmitKeepsBound | backend/django_backend/deepseek_api/services.py:73-84 | a count within a limit of at least one stays within it |
| RateLimiting.AtMostMaxPerWindow | backend/django_backend/deepseek_api/services.py:73-84 | requests that all fall within one window pass at most as often as the room left in it |
| RateLimiting.RateLimitStore.CheckRateLimit | backend/django_backend/deepseek_api/services.py:65-97 | an existing record is advanced by the window rule; a key without a record gets a fresh window with count one, ending at `now + interval` cut to whole seconds; an unknown key is refused; no other record changes |
| RateLimiting.RateLimit.ShouldLimit | backend/django_backend/deepseek_api/models.py:42-50 | once the window has ended, the count resets to zero and the request is not limited; within it, the request is limited exactly when the count has reached the maximum, and nothing changes |
| DomainKnowledge.ErrorCodeMeaning | backend/django_backend/domain_knowledge.py:254-256 | the table's meaning, or "未知错误码: " followed by the code |
| DomainKnowledge.ServiceDependenciesOf | backend/django_backend/domain_knowledge.py:258-260 | the listed dependencies, or none for an unknown service |
| DomainKnowledge.FirstCategoryFrom | backend/django_backend/domain_knowledge.py:263-266 | the first category from a position on whose severity mapping lists the code |
| DomainKnowledge.FaultCategoryOf | backend/django_backend/domain_knowledge.py:262-267 | "UNKNOWN" exactly when no category lists the code; otherwise the name of the first one that does |
| DomainKnowledge.SeverityLevel | backend/django_backend/domain_knowledge.py:269-274 | "UNKNOWN" exactly when no category lists the code; otherwise that category's severity for it |
| DomainKnowledge.CommonPatternInfo | backend/django_backend/domain_knowledge.py:276-278 | the pattern's table, or an empty one |
| DomainKnowledge.MonitoringRecommendationsOf | backend/django_backend/domain_knowledge.py:280-282 | the category's recommendations, or none |
| DomainKnowledge.ExpertInsights | backend/django_backend/domain_knowledge.py:401-403 | the pattern's insights; none for an unknown pattern, and none for a known pattern without insights |
| DomainKnowledge.IndustryStandards | backend/django_backend/domain_knowledge.py:405-407 | the pattern's standards; none for an unknown pattern, and none for a known pattern without standards (as "认证失败" and "支付异常" are) |
| DomainKnowledge.BestPractices | backend/django_backend/domain_knowledge.py:409-411 | the area's practices, or an empty table |
| DomainKnowledge.CategoryNamesKnown | backend/django_backend/domain_knowledge.py:105-177 | no category is named "UNKNOWN" |
| DomainKnowledge.SeveritiesKnown | backend/django_backend/domain_knowledge.py:105-177 | no severity mapping gives "UNKNOWN" |
| DomainKnowledge.CategoriesDisjoint | backend/django_backend/domain_knowledge.py:105-177 | no error code is listed by two categories |
| DomainKnowledge.SeverityKeysDisjoint | backend/django_backend/domain_knowledge.py:105-177 | two different categories' severity mappings share no code |
| DomainKnowledge.OwnerCategory | backend/django_backend/domain_knowledge.py:262-274 | the category that lists a code is the one named, and it gives the severity |
| DomainKnowledge.SeverityUnknownIffCategoryUnknown | backend/django_backend/domain_knowledge.py:262-274 | the severity is "UNKNOWN" exactly when the category is |
| DomainKnowledge.GroupMeaningsMerged | backend/django_backend/domain_knowledge.py:8-87 | every code of each of the thirteen groups is in the merged table with its group's meaning, since no other group lists it again |
| DomainKnowledge.CategoryCodesInGroup | backend/django_backend/domain_knowledge.py:105-177 | a code a category lists has a meaning in one of the groups |
| DomainKnowledge.CategorizedCodesHaveMeanings | backend/django_backend/domain_knowledge.py:105-177 | every code a category lists has its own meaning, never the unknown-code text |
| DomainKnowledge.AuthFailureHasNoStandards | backend/django_backend/domain_knowledge.py:285-322 | the "认证失败" pattern has expert insights but no industry standards |
| Report.StripFences | test_json_conversion.py:14-20 | the step-by-step cleanup gives the unfenced answer |
| Report.FenceRoundTrip | test_json_conversion.py:14-20 | a body inside a "```json" fence comes out as it went in |
| Report.UnfencedPlain | test_json_conversion.py:14-20 | a stripped answer without fences is left as it is |
| Report.RemoveTagsFrom | test_json_conversion.py:23 | tag removal never lengthens the text and only keeps its characters |
| Report.RemoveTagsTagFree | test_json_conversion.py:23 | no tag is left after removal |
| Report.RemoveTagsIdempotent | test_json_conversion.py:23 | removing tags twice is the same as once |
| Report.LookupFirst | test_json_conversion.py:32 | a key is found exactly when some field has it, and then with the value of its first binding |
| Report.Items | test_json_conversion.py:54 | only strings, lists and objects can be iterated, and they are empty exactly when falsy |
| Report.Texts | test_json_conversion.py:40 | a list is joined only when every item is a string |
| Report.PriorityEmoji | test_json_conversion.py:70-72 | HIGH gives 🔴, MEDIUM gives 🟡, LOW gives 🟢, any other hashable value gives ⚪, and a list or object fails |
| Report.RenderFaultSummary | test_json_conversion.py:31-44 | the step-by-step rendering of the fault summary |
| Report.RenderBullets | test_json_conversion.py:54-55 | the loop renders one bullet per factor |
| Report.RenderRootCause | test_json_conversion.py:46-59 | the step-by-step rendering of the root-cause section |
| Report.RenderActionSection | test_json_conversion.py:65-72 | the step-by-step rendering of an action subsection |
| Report.RenderSolutions | test_json_conversion.py:61-90 | the step-by-step rendering of the solutions section |
| Report.RenderMonitoring | test_json_conversion.py:92-98 | the step-by-step rendering of the monitoring section |
| Report.JsonToMarkdown | test_json_conversion.py:8-107 | the whole conversion, with its fallback to the raw answer |
| Report.FaultSummaryStartsWithTitle | test_json_conversion.py:33 | a rendered fault summary opens with its title |
| Report.RenderParts | test_json_conversion.py:28-100 | a rendered report is the title and the four sections in order |
| Report.RenderStartsWithTitles | test_json_conversion.py:29-33 | a rendered report opens with the report title and the fault-summary title |
| Report.ConvertedShape | test_json_conversion.py:102-107 | the output is the raw answer, or a report opening with the titles; an answer that does not parse comes back unchanged |
| Report.SummaryDefaults | test_json_conversion.py:34-36 | missing severity, category and description render as UNKNOWN, UNKNOWN and 无描述 |
| Report.RootCauseDefaults | test_json_conversion.py:49-59 | missing root-cause fields render as 未识别, UNKNOWN and 无推理过程, without a factor list |
| Report.JoinedLineOmitted | test_json_conversion.py:38-44 | a list line is empty exactly when its value is falsy, opens with its caption otherwise, and fails only for a truthy value that is not a list of strings |
| Report.SummaryOptionalLines | test_json_conversion.py:38-44 | the summary is its base, then the services line, then the error-code line; each line is left out exactly when its own list is falsy, whatever the other list is |
| Report.RootCauseFactorsOmitted | test_json_conversion.py:51-56 | the factor block is left out when the factors are falsy, missing or present, and otherwise follows the primary cause |
| Report.ActionSectionOmitted | test_json_conversion.py:66-90 | an action subsection is empty exactly when its list is falsy, and otherwise opens with its title |
| Report.MonitoringOmitted | test_json_conversion.py:93-98 | the monitoring section is empty exactly when the list is falsy, and fails exactly for a truthy value that cannot be iterated |
| Report.ActionLinesAll | test_json_conversion.py:69-72 | a list of actions renders exactly when each action does, as their lines in order |
| Report.NumberedInOrder | test_json_conversion.py:96-97 | recommendation k is the line numbered k + 1, in input order |
| Report.BulletsInOrder | test_json_conversion.py:54-55 | the factors appear in order, one bullet each |
| LevelSamples.Sample1IsError | test_extract.py:20 | "2024-01-01 ERROR: Database connection failed" is ERROR |
| LevelSamples.Sample2IsFatal | test_extract.py:21 | "FATAL: System crash detected" is FATAL |
| LevelSamples.Sample3IsWarn | test_extract.py:22 | "WARN: High memory usage" is WARN |
| LevelSamples.Sample4IsInfo | test_extract.py:23 | "INFO: User login successful" is INFO |
| LevelSamples.Sample5IsDebug | test_extract.py:24 | "DEBUG: Processing request" is DEBUG |
| LevelSamples.FatalOutranksError | test_extract.py:12-15 | "fatal error in db" is FATAL although ERROR also occurs: list order decides and case is ignored |
| LevelSamples.WarningIsNotWarn | test_extract.py:14 | "WARNING: x" is WARNING, because WARN only matches a whole word |
| LevelSamples.NoLevelIsUnknown | test_extract.py:16 | a line without a level word is UNKNOWN |
| LevelSamples.PaymentDownEntities | backend/django_backend/topklogsystem.py:552-576 | "FATAL PAY_RISK: PaymentService down" is FATAL, with error codes FATAL and PAY_RISK and service PaymentService |

## Left out

- The vector index (the constructor, `_build_vectorstore` and `_load_documents`) is out of scope. It relies on Ollama, chromadb, llama-index, pandas and the file system, and appears only as the `search` parameter.
- `generate_response`, `_build_prompt` and `query` are out of scope. They call the language model through langchain templates.
- `_build_structured_context`, `_build_domain_context` and `_format_log_entry` are out of scope. Their text depends on set iteration order and on `{:.3f}` float formatting.
- `api.py`, `schemas.py`, `urls.py` and the other functions of `services.py` are out of scope: HTTP routing, API keys, randomness, the wall clock, the LLM call, the response cache keyed on `hash()`, and SHA-256.
- The `rate_lock` around `check_rate_limit` is not modelled. Each call is one sequential step.
- The persistence layer is not modelled: `save`, `refresh_from_db`, `get_or_create_state` and `get_or_create_session`. `save()` appears only as the `saved` fields.
- `update_context` is not modelled. It is an atomic append on the database side, and its point is concurrency.
- `assess_context_quality` is not modelled. It computes floating-point ratios and densities.
- `update_key_information` is not modelled. It only stores a dictionary.
- `APIKey.generate_key` and `is_valid` are not modelled. They depend on randomness and the clock.
- Fusion in `_deduplicate_and_rank` compares contents, not their `hash()`. Hash collisions are ignored.
- LogEntities.ExtractKeywords: the source returns `list(set(...))` in set iteration order; the model keeps first-occurrence order and states only the contents and distinctness.
- Sessions.StrategyFor: the ratio `target / length` is compared with 0.5 and 0.8 exactly. The double quotient can decide differently only when the ratio lies within a rounding error of those bounds, which takes lengths of about 2^50 or more.
- Compression.WithinFourFifths: the comparison `n <= limit * 0.8` is exact. The double product may differ only for limits above 2^50.
- Retrieval.IntelligentContextFilter: the ranking key `0.6 * value + 0.4 * score` and the 0.3 bar use exact reals. The double rounding of the 0.3 bar is modelled separately in `Binary64`, under "## Findings".
- Retrieval.KeywordRetrieval: the keyword score is an exact ratio. A ratio such as 1/3 is not rounded.
- Integer fields are unbounded: `max_context_length`, `count`, `analysis_depth`, `user_satisfaction` and the stored `reset_time`. Django's 32-bit `IntegerField` range is not modelled.
- Retrieval.IntelligentContextFilter: the source writes `value_score`, `log_level`, `error_codes` and `services` into the caller's hit dictionaries in place, including hits later cut off by `[:8]`. The model returns annotated copies, so it does not capture that the caller's hits change or that the dictionaries are shared.
- Character classes beyond ASCII and the CJK block U+4E00..U+9FFF are not modelled. Other Unicode letters and digits count as neither `\w` nor `\d`, and case folding is ASCII only.
- Report.LookupFirst: a parsed object is a list of fields, and a lookup takes the first binding of a key. A Python `dict` holds each key once, and `json.loads` keeps the last of duplicate keys; a `parse` that returns fields with unique keys behaves the same in both.
- `json.loads` itself is not modelled. It is the parameter `parse`, and `str()` of a non-string value is the parameter `show`. A parsed number is an `Int` or a `Float`, so `show` can render `1` and `1.0` apart as `str()` does; how `str()` prints a float is left to `show`.
- DomainKnowledge.CategorizedCodesHaveMeanings is stated per category index, together with the one lemma per table it rests on.

## Findings

| source | as written | input that shows it | evidently intended | confidence | as-written member | corrected member |
|---|---|---|---|---|---|---|
| backend/django_backend/topklogsystem.py:422 | The information value is summed in doubles, then compared with `value_score > 0.3`. `0.2 + 0.1` and `0.1 + 0.2` round to 0.30000000000000004. | A DEBUG log of 50 to 500 characters, without error codes or services. Or a log of no weighted level, with services, outside the length range. | A log worth exactly 0.3 does not clear the bar. | not executed | Binary64.DebugWithLengthBonusPasses | LogEntities.ValueThreshold |
