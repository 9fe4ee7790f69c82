/**
 * Entity extraction from log text (`TopKLogSystem._extract_log_level`, `_extract_error_codes`,
 * `_extract_services`, `_extract_keywords`, `_calculate_keyword_score` and
 * `_calculate_information_value` in backend/django_backend/topklogsystem.py).
 *
 * The three extractors whose patterns are fenced by `\b` on both sides are filters of
 * `Text.Words` (see its comment); the keyword extractor's CJK pattern has no `\b` and is
 * modelled by `CjkChunks`.
 */
module LogEntities {
  import opened Text

  /** The level names in the order `_extract_log_level` tries them. */
  const Levels: seq<string> := ["FATAL", "ERROR", "WARN", "WARNING", "INFO", "INFORMATION", "DEBUG"]

  const Unknown: string := "UNKNOWN"

  /** `re.search(r'\b' + level + r'\b', content, re.IGNORECASE)` succeeds: some whole word of
      `content` equals `level` up to case. */
  predicate HasLevelWord(content: string, level: string) {
    exists w :: w in Words(content) && Upper(w) == level
  }

  /** The first level, from position `k` of `Levels` on, that occurs as a whole word. */
  function FirstLevelFrom(content: string, k: nat): (r: string)
    requires k <= |Levels|
    ensures r == Unknown <==> forall j :: k <= j < |Levels| ==> !HasLevelWord(content, Levels[j])
    ensures r != Unknown ==>
      exists m :: k <= m < |Levels| && r == Levels[m] && HasLevelWord(content, r)
        && forall j :: k <= j < m ==> !HasLevelWord(content, Levels[j])
    decreases |Levels| - k
  {
    if k == |Levels| then Unknown
    else if HasLevelWord(content, Levels[k]) then Levels[k]
    else FirstLevelFrom(content, k + 1)
  }

  /** `_extract_log_level`: the first of FATAL, ERROR, WARN, WARNING, INFO, INFORMATION, DEBUG
      that occurs in `content` as a whole word, ignoring case; "UNKNOWN" when none does. */
  function ExtractLogLevel(content: string): (r: string)
    ensures r == Unknown <==> forall l :: l in Levels ==> !HasLevelWord(content, l)
    ensures r != Unknown ==>
      exists m :: 0 <= m < |Levels| && r == Levels[m] && HasLevelWord(content, r)
        && forall j :: 0 <= j < m ==> !HasLevelWord(content, Levels[j])
  {
    FirstLevelFrom(content, 0)
  }

  /** A level word outranks every level after it: once FATAL occurs it is the answer, whatever
      else the text holds. */
  lemma FirstListedLevelWins(content: string, m: nat)
    requires m < |Levels| && HasLevelWord(content, Levels[m])
    requires forall j :: 0 <= j < m ==> !HasLevelWord(content, Levels[j])
    ensures ExtractLogLevel(content) == Levels[m]
  {
    assert Levels[m] in Levels;
  }

  /** Words `_extract_error_codes` never reports. */
  const ErrorCodeStopWords: set<string> := {"HTTP", "URL", "API", "JSON", "XML", "SQL", "TCP", "UDP", "IP", "DNS"}

  /** A whole word matching `[A-Z][A-Z0-9_]{2,}`. */
  predicate IsCodeToken(w: string) {
    |w| >= 3 && IsUpperAscii(w[0])
    && forall i :: 1 <= i < |w| ==> IsUpperAscii(w[i]) || IsDigit(w[i]) || w[i] == '_'
  }

  predicate IsErrorCode(w: string) { IsCodeToken(w) && w !in ErrorCodeStopWords }

  /** `_extract_error_codes`: the whole words of `content` shaped like `[A-Z][A-Z0-9_]{2,}`
      that are not in the stop list, in order of occurrence, repeats kept. Level words such
      as ERROR and FATAL are shaped like codes and are returned too. */
  function ExtractErrorCodes(content: string): (r: seq<string>)
    ensures forall c :: c in r <==> c in Words(content) && IsErrorCode(c)
    ensures IsSubsequence(r, Words(content))
    ensures forall c :: multiset(r)[c] == if IsErrorCode(c) then multiset(Words(content))[c] else 0
  {
    FilterWordsMembers(Words(content), IsErrorCode);
    FilterWordsOrder(Words(content), IsErrorCode);
    FilterWords(Words(content), IsErrorCode)
  }

  /** A whole word matching `[A-Za-z][A-Za-z0-9]*Service`. */
  predicate IsServiceToken(w: string) {
    |w| >= 8 && IsAsciiLetter(w[0])
    && (forall i :: 0 <= i < |w| ==> IsAsciiAlnum(w[i]))
    && EndsWith(w, "Service")
  }

  /** `_extract_services`: the whole words of `content` that are ASCII alphanumeric, start with
      a letter and end in "Service" after at least one more character, in order. */
  function ExtractServices(content: string): (r: seq<string>)
    ensures forall c :: c in r <==> c in Words(content) && IsServiceToken(c)
    ensures forall c :: c in r ==> EndsWith(c, "Service") && |c| > |"Service"|
    ensures IsSubsequence(r, Words(content))
    ensures forall c :: multiset(r)[c] == if IsServiceToken(c) then multiset(Words(content))[c] else 0
  {
    FilterWordsMembers(Words(content), IsServiceToken);
    FilterWordsOrder(Words(content), IsServiceToken);
    FilterWords(Words(content), IsServiceToken)
  }

  /** The end of the run of CJK ideographs of `s` starting at `i`. */
  function CjkRunEnd(s: string, i: nat): (j: nat)
    requires i <= |s|
    ensures i <= j <= |s|
    ensures forall k :: i <= k < j ==> IsCjk(s[k])
    ensures j == |s| || !IsCjk(s[j])
    decreases |s| - i
  {
    if i < |s| && IsCjk(s[i]) then CjkRunEnd(s, i + 1) else i
  }

  /** The end of the chunk `findall` takes from a run of ideographs that starts at `i`: the
      run's end, or four characters on. */
  function CjkChunkEnd(s: string, i: nat): (j: nat)
    requires i <= |s|
    ensures i <= j <= |s| && j <= i + 4
    ensures j - i == 4 || j == CjkRunEnd(s, i)
  {
    var e := CjkRunEnd(s, i);
    if e < i + 4 then e else i + 4
  }

  /** `re.findall(r'[一-鿿]{2,4}', s[i..])`: scanning left to right, every run of at
      least two ideographs yields its first four (or fewer) characters and the scan resumes
      after them; a lone ideograph yields nothing. */
  function CjkChunks(s: string, i: nat): (r: seq<string>)
    requires i <= |s|
    ensures forall w :: w in r ==> 2 <= |w| <= 4 && forall k :: 0 <= k < |w| ==> IsCjk(w[k])
    decreases |s| - i
  {
    if i + 1 >= |s| then []
    else if IsCjk(s[i]) && IsCjk(s[i + 1]) then
      var j := CjkChunkEnd(s, i);
      [s[i..j]] + CjkChunks(s, j)
    else CjkChunks(s, i + 1)
  }

  /** Two ideographs at `i`: `findall` reports the chunk from `i` and resumes after it. */
  lemma {:induction false} CjkChunksReports(s: string, i: nat)
    requires i + 1 < |s| && IsCjk(s[i]) && IsCjk(s[i + 1])
    ensures CjkChunks(s, i) == [s[i..CjkChunkEnd(s, i)]] + CjkChunks(s, CjkChunkEnd(s, i))
  {
  }

  /** Every chunk reported is an occurrence in `s[i..]`. */
  lemma {:induction false} CjkChunksFrom(s: string, i: nat)
    requires i <= |s|
    ensures forall w :: w in CjkChunks(s, i) ==> exists a :: i <= a && OccursAt(s, w, a)
    decreases |s| - i
  {
    if i + 1 < |s| {
      if IsCjk(s[i]) && IsCjk(s[i + 1]) {
        var j := CjkChunkEnd(s, i);
        CjkChunksReports(s, i);
        CjkChunksFrom(s, j);
        assert OccursAt(s, s[i..j], i);
      } else {
        CjkChunksFrom(s, i + 1);
        assert CjkChunks(s, i) == CjkChunks(s, i + 1);
      }
    }
  }

  /** `findall` finds nothing in `s[i..]` exactly when no two ideographs stand side by side
      there. */
  lemma {:induction false} CjkChunksEmpty(s: string, i: nat)
    requires i <= |s|
    ensures CjkChunks(s, i) == [] <==> forall j :: i <= j < |s| - 1 ==> !(IsCjk(s[j]) && IsCjk(s[j + 1]))
    decreases |s| - i
  {
    if i + 1 < |s| {
      CjkChunksEmpty(s, i + 1);
      if !(IsCjk(s[i]) && IsCjk(s[i + 1])) {
        assert CjkChunks(s, i) == CjkChunks(s, i + 1);
        assert (forall j :: i <= j < |s| - 1 ==> !(IsCjk(s[j]) && IsCjk(s[j + 1])))
          <==> (forall j :: i + 1 <= j < |s| - 1 ==> !(IsCjk(s[j]) && IsCjk(s[j + 1])));
      } else {
        CjkChunksReports(s, i);
        assert CjkChunks(s, i) != [];
      }
    }
  }

  predicate IsEnglishWord(w: string) { |w| >= 3 && forall i :: 0 <= i < |w| ==> IsAsciiLetter(w[i]) }

  /** The domain terms `_extract_keywords` adds when they occur anywhere in the query. */
  const TechTerms: seq<string> := ["数据库", "连接池", "认证", "支付", "库存", "订单", "用户", "服务"]

  function TermsIn(query: string, terms: seq<string>): (r: seq<string>)
    ensures forall t :: t in r <==> t in terms && Contains(query, t)
  {
    if terms == [] then []
    else (if Contains(query, terms[0]) then [terms[0]] else []) + TermsIn(query, terms[1..])
  }

  /** The keyword candidates before de-duplication: CJK chunks, then English words of three or
      more letters, then the domain terms present. */
  function KeywordCandidates(query: string): seq<string> {
    CjkChunks(query, 0) + FilterWords(Words(query), IsEnglishWord) + TermsIn(query, TechTerms)
  }

  /** `xs` with every repeat after the first occurrence removed. */
  function Distinct(xs: seq<string>): (r: seq<string>)
    ensures forall x :: x in r <==> x in xs
    ensures forall i, j :: 0 <= i < j < |r| ==> r[i] != r[j]
  {
    if xs == [] then []
    else
      var rest := Distinct(xs[..|xs| - 1]);
      if xs[|xs| - 1] in rest then rest else rest + [xs[|xs| - 1]]
  }

  /** `_extract_keywords`: the distinct keyword candidates. Python returns `list(set(...))`,
      whose order is the set's iteration order; the model keeps first occurrences in order. */
  function ExtractKeywords(query: string): (r: seq<string>)
    ensures forall k :: k in r <==> k in KeywordCandidates(query)
    ensures forall i, j :: 0 <= i < j < |r| ==> r[i] != r[j]
  {
    Distinct(KeywordCandidates(query))
  }

  /** The keywords among `keywords` that occur in `text`, compared in lower case. */
  function CountMatches(text: string, keywords: seq<string>): (n: nat)
    ensures n <= |keywords|
  {
    if keywords == [] then 0
    else
      var last := if Contains(Lower(text), Lower(keywords[|keywords| - 1])) then 1 else 0;
      CountMatches(text, keywords[..|keywords| - 1]) + last
  }

  /** The value `_calculate_keyword_score` computes. */
  function KeywordScore(text: string, keywords: seq<string>): real {
    if keywords == [] then 0.0 else CountMatches(text, keywords) as real / |keywords| as real
  }

  lemma {:induction false} CountMatchesAll(text: string, keywords: seq<string>)
    ensures CountMatches(text, keywords) == |keywords|
      <==> forall k :: k in keywords ==> Contains(Lower(text), Lower(k))
  {
    if keywords != [] {
      var init := keywords[..|keywords| - 1];
      CountMatchesAll(text, init);
      assert keywords == init + [keywords[|keywords| - 1]];
    }
  }

  lemma {:induction false} CountMatchesNone(text: string, keywords: seq<string>)
    ensures CountMatches(text, keywords) == 0
      <==> forall k :: k in keywords ==> !Contains(Lower(text), Lower(k))
  {
    if keywords != [] {
      var init := keywords[..|keywords| - 1];
      CountMatchesNone(text, init);
      assert keywords == init + [keywords[|keywords| - 1]];
    }
  }

  /** The keyword score lies in [0, 1]; it is 1 exactly when every keyword occurs in the text
      (ignoring case) and, for a non-empty keyword list, 0 exactly when none does. */
  lemma KeywordScoreRange(text: string, keywords: seq<string>)
    ensures 0.0 <= KeywordScore(text, keywords) <= 1.0
    ensures keywords != [] ==>
      (KeywordScore(text, keywords) == 1.0 <==> forall k :: k in keywords ==> Contains(Lower(text), Lower(k)))
    ensures keywords != [] ==>
      (KeywordScore(text, keywords) == 0.0 <==> forall k :: k in keywords ==> !Contains(Lower(text), Lower(k)))
  {
    CountMatchesAll(text, keywords);
    CountMatchesNone(text, keywords);
    if keywords != [] {
      RatioFacts(CountMatches(text, keywords), |keywords|);
    }
  }

  lemma RatioFacts(n: nat, d: nat)
    requires 0 < d && n <= d
    ensures 0.0 <= n as real / d as real <= 1.0
    ensures n as real / d as real == 1.0 <==> n == d
    ensures n as real / d as real == 0.0 <==> n == 0
  {
    var q := n as real / d as real;
    assert q * d as real == n as real;
  }

  /** `_calculate_keyword_score`: counts the keywords that occur in the text, ignoring case,
      and divides by the number of keywords; 0.0 for no keywords. */
  method CalculateKeywordScore(text: string, keywords: seq<string>) returns (score: real)
    ensures score == KeywordScore(text, keywords)
    ensures 0.0 <= score <= 1.0
  {
    KeywordScoreRange(text, keywords);
    if keywords == [] {
      return 0.0;
    }
    var matches := 0;
    var i := 0;
    while i < |keywords|
      invariant 0 <= i <= |keywords|
      invariant matches == CountMatches(text, keywords[..i])
    {
      assert keywords[..i + 1][..i] == keywords[..i];
      if Contains(Lower(text), Lower(keywords[i])) {
        matches := matches + 1;
      }
      i := i + 1;
    }
    assert keywords[..i] == keywords;
    score := matches as real / |keywords| as real;
  }

  /** The weight `_calculate_information_value` gives a log level; 0.1 for any other level,
      including WARNING, INFORMATION and UNKNOWN. */
  function LevelWeight(level: string): real {
    if level == "FATAL" then 1.0
    else if level == "ERROR" then 0.8
    else if level == "WARN" then 0.6
    else if level == "INFO" then 0.4
    else if level == "DEBUG" then 0.2
    else 0.1
  }

  /** Whether a content length earns the length bonus (50 to 500 characters). */
  predicate LengthBonus(content: string) { 50 <= |content| <= 500 }

  /** `_calculate_information_value` in exact arithmetic: level weight, plus 0.3 when error
      codes were found, 0.2 when services were found, 0.1 for a length of 50 to 500, capped
      at 1.0. */
  function InformationValue(content: string, level: string, codes: seq<string>, services: seq<string>): (v: real)
    ensures 0.1 <= v <= 1.0
    ensures v >= LevelWeight(level)
  {
    var sum := LevelWeight(level) + (if codes != [] then 0.3 else 0.0)
      + (if services != [] then 0.2 else 0.0) + (if LengthBonus(content) then 0.1 else 0.0);
    if sum < 1.0 then sum else 1.0
  }

  /** Which logs clear the `value_score > 0.3` bar of `_intelligent_context_filter`: every
      level from INFO up clears it alone; otherwise error codes do, and services do together
      with the DEBUG weight or the length bonus. */
  lemma ValueThreshold(content: string, level: string, codes: seq<string>, services: seq<string>)
    ensures InformationValue(content, level, codes, services) > 0.3 <==>
      LevelWeight(level) >= 0.4 || codes != []
      || (services != [] && (level == "DEBUG" || LengthBonus(content)))
  {
  }
}
