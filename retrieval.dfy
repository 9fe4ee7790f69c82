/**
 * The multi-strategy retrieval of `TopKLogSystem`: semantic, keyword and error-code
 * retrieval against the vector index, fusion of the three result lists with de-duplication
 * by content and ranking by score, and the context filter that keeps the informative logs
 * before they reach the prompt.
 *
 * The vector index is a parameter: `Search(q, k)` is what
 * `log_index.as_retriever(similarity_top_k=k).retrieve(q)` returns, or `None` when that call
 * raises (each strategy catches its own exception and contributes nothing).
 */
module Retrieval {
  import opened Wrappers
  import opened Text
  import opened LogEntities
  import opened Ranking

  /** The `retrieval_method` of a hit. */
  datatype Method = Semantic | Keyword | ErrorCode

  /** The keys `_intelligent_context_filter` adds to a log it keeps. */
  datatype Annotation = Annotation(valueScore: real, logLevel: string, errorCodes: seq<string>, services: seq<string>)

  /** A retrieved log: `content`, `score`, `retrieval_method`, and the annotation once it has
      passed the context filter. */
  datatype Hit = Hit(content: string, score: real, via: Method, annotation: Option<Annotation>)

  /** A node returned by the index: its text and similarity score. */
  datatype Node = Node(text: string, score: real)

  type Search = (string, int) -> Option<seq<Node>>

  function ScoreOf(h: Hit): real { h.score }

  // ---------------------------------------------------------------- semantic retrieval

  /** The semantic hits for the nodes `nodes`: one per node, in order, with the node's score. */
  function SemanticFrom(nodes: seq<Node>): (r: seq<Hit>)
    ensures |r| == |nodes|
    ensures forall i :: 0 <= i < |r| ==> r[i] == Hit(nodes[i].text, nodes[i].score, Semantic, None)
  {
    if nodes == [] then []
    else SemanticFrom(nodes[..|nodes| - 1]) + [Hit(nodes[|nodes| - 1].text, nodes[|nodes| - 1].score, Semantic, None)]
  }

  /** What `_semantic_retrieval` returns: nothing when the index call raises. */
  function SemanticHits(search: Search, query: string, topK: int): seq<Hit> {
    match search(query, topK)
    case None => []
    case Some(nodes) => SemanticFrom(nodes)
  }

  method SemanticRetrieval(search: Search, query: string, topK: int) returns (hits: seq<Hit>)
    ensures hits == SemanticHits(search, query, topK)
    ensures forall h :: h in hits ==> h.via == Semantic && h.annotation.None?
  {
    hits := [];
    var res := search(query, topK);
    if res.Some? {
      var nodes := res.value;
      for i := 0 to |nodes|
        invariant hits == SemanticFrom(nodes[..i])
      {
        hits := hits + [Hit(nodes[i].text, nodes[i].score, Semantic, None)];
        assert nodes[..i + 1][..i] == nodes[..i];
      }
      assert nodes[..|nodes|] == nodes;
    }
  }

  // ---------------------------------------------------------------- keyword retrieval

  /** The keyword hits among `nodes`: those whose keyword score exceeds 0.3, scored by it. */
  function KeywordFrom(nodes: seq<Node>, keywords: seq<string>): (r: seq<Hit>)
    ensures |r| <= |nodes|
  {
    if nodes == [] then []
    else
      var init, last := nodes[..|nodes| - 1], nodes[|nodes| - 1];
      var s := KeywordScore(last.text, keywords);
      KeywordFrom(init, keywords) + (if s > 0.3 then [Hit(last.text, s, Keyword, None)] else [])
  }

  /** A keyword hit is a node whose keyword score exceeds 0.3, scored by it, and every such
      node gives one. */
  lemma {:induction false} KeywordFromMembers(nodes: seq<Node>, keywords: seq<string>)
    ensures forall h :: h in KeywordFrom(nodes, keywords) ==>
      h.via == Keyword && h.annotation.None? && h.score == KeywordScore(h.content, keywords) && h.score > 0.3
      && exists n :: n in nodes && n.text == h.content
    ensures forall n :: n in nodes && KeywordScore(n.text, keywords) > 0.3 ==>
      Hit(n.text, KeywordScore(n.text, keywords), Keyword, None) in KeywordFrom(nodes, keywords)
  {
    if nodes != [] {
      var init, last := nodes[..|nodes| - 1], nodes[|nodes| - 1];
      KeywordFromMembers(init, keywords);
      assert forall n :: n in nodes ==> n in init || n == last;
      assert forall n :: n in init ==> n in nodes;
    }
  }

  /** What `_keyword_retrieval` returns: nothing when the query has no keywords or the index
      call raises; otherwise the nodes retrieved for the keywords joined by spaces that
      match more than 30% of the keywords. */
  function KeywordHits(search: Search, query: string, topK: int): seq<Hit> {
    var keywords := ExtractKeywords(query);
    if keywords == [] then []
    else
      match search(Join(" ", keywords), topK)
      case None => []
      case Some(nodes) => KeywordFrom(nodes, keywords)
  }

  method KeywordRetrieval(search: Search, query: string, topK: int) returns (hits: seq<Hit>)
    ensures hits == KeywordHits(search, query, topK)
    ensures forall h :: h in hits ==> h.via == Keyword && 0.3 < h.score <= 1.0
  {
    var keywords := ExtractKeywords(query);
    hits := [];
    if keywords == [] {
      return;
    }
    var res := search(Join(" ", keywords), topK);
    if res.Some? {
      var nodes := res.value;
      for i := 0 to |nodes|
        invariant hits == KeywordFrom(nodes[..i], keywords)
      {
        var s := CalculateKeywordScore(nodes[i].text, keywords);
        if s > 0.3 {
          hits := hits + [Hit(nodes[i].text, s, Keyword, None)];
        }
        assert nodes[..i + 1][..i] == nodes[..i];
      }
      assert nodes[..|nodes|] == nodes;
    }
    if res.Some? {
      KeywordFromMembers(res.value, keywords);
    }
    forall h | h in hits ensures h.score <= 1.0 {
      KeywordScoreRange(h.content, keywords);
    }
  }

  // ---------------------------------------------------------------- error-code retrieval

  /** Python's `any(code in text for code in codes)`. */
  predicate MentionsAny(text: string, codes: seq<string>) {
    exists c :: c in codes && Contains(text, c)
  }

  /** The error-code hits among `nodes`: those whose text contains one of the codes, each
      with the top score 1.0. */
  function ErrorCodeFrom(nodes: seq<Node>, codes: seq<string>): (r: seq<Hit>)
    ensures |r| <= |nodes|
  {
    if nodes == [] then []
    else
      var init, last := nodes[..|nodes| - 1], nodes[|nodes| - 1];
      ErrorCodeFrom(init, codes)
        + (if MentionsAny(last.text, codes) then [Hit(last.text, 1.0, ErrorCode, None)] else [])
  }

  /** The error-code hits are exactly the top-scored hits for the nodes that mention a code. */
  lemma {:induction false} ErrorCodeFromMembers(nodes: seq<Node>, codes: seq<string>)
    ensures forall h :: h in ErrorCodeFrom(nodes, codes) <==>
      (h.via == ErrorCode && h.annotation.None? && h.score == 1.0
       && MentionsAny(h.content, codes) && exists n :: n in nodes && n.text == h.content)
  {
    if nodes != [] {
      var init, last := nodes[..|nodes| - 1], nodes[|nodes| - 1];
      ErrorCodeFromMembers(init, codes);
      assert forall n :: n in nodes ==> n in init || n == last;
      assert forall n :: n in init ==> n in nodes;
    }
  }

  /** What `_error_code_retrieval` returns: nothing when the query names no error code or the
      index call raises; otherwise the nodes retrieved for the codes joined by spaces that
      contain one of them. */
  function ErrorCodeHits(search: Search, query: string, topK: int): seq<Hit> {
    var codes := ExtractErrorCodes(query);
    if codes == [] then []
    else
      match search(Join(" ", codes), topK)
      case None => []
      case Some(nodes) => ErrorCodeFrom(nodes, codes)
  }

  method ErrorCodeRetrieval(search: Search, query: string, topK: int) returns (hits: seq<Hit>)
    ensures hits == ErrorCodeHits(search, query, topK)
    ensures forall h :: h in hits ==>
      h.via == ErrorCode && h.score == 1.0 && MentionsAny(h.content, ExtractErrorCodes(query))
  {
    var codes := ExtractErrorCodes(query);
    hits := [];
    if codes == [] {
      return;
    }
    var res := search(Join(" ", codes), topK);
    if res.Some? {
      var nodes := res.value;
      for i := 0 to |nodes|
        invariant hits == ErrorCodeFrom(nodes[..i], codes)
      {
        if MentionsAny(nodes[i].text, codes) {
          hits := hits + [Hit(nodes[i].text, 1.0, ErrorCode, None)];
        }
        assert nodes[..i + 1][..i] == nodes[..i];
      }
      assert nodes[..|nodes|] == nodes;
      ErrorCodeFromMembers(nodes, codes);
    }
  }

  // ---------------------------------------------------------------- fusion

  function ContentsOf(s: seq<Hit>): set<string> {
    set h | h in s :: h.content
  }

  lemma ContentsOfSnoc(s: seq<Hit>, x: Hit)
    ensures ContentsOf(s + [x]) == ContentsOf(s) + {x.content}
  {
    assert forall h :: h in s + [x] <==> h in s || h == x;
  }

  /** `s[i]` is the first hit of `s` with its content. */
  predicate FirstWithContent(s: seq<Hit>, i: int) {
    0 <= i < |s| && forall j :: 0 <= j < i ==> s[j].content != s[i].content
  }

  /** No two hits of `s` share a content. */
  predicate DistinctContents(s: seq<Hit>) {
    forall i, j :: 0 <= i < j < |s| ==> s[i].content != s[j].content
  }

  /** The hits of `s` whose content has not appeared earlier, in order. */
  function Dedup(s: seq<Hit>): (r: seq<Hit>)
    ensures |r| <= |s|
  {
    if s == [] then []
    else
      var d := Dedup(s[..|s| - 1]);
      if s[|s| - 1].content in ContentsOf(d) then d else d + [s[|s| - 1]]
  }

  /** De-duplication loses no content. */
  lemma {:induction false} DedupContents(s: seq<Hit>)
    ensures ContentsOf(Dedup(s)) == ContentsOf(s)
    decreases |s|
  {
    if s != [] {
      var init, last := s[..|s| - 1], s[|s| - 1];
      DedupContents(init);
      assert s == init + [last];
      ContentsOfSnoc(init, last);
      if last.content !in ContentsOf(Dedup(init)) {
        ContentsOfSnoc(Dedup(init), last);
      }
    }
  }

  /** No two hits kept by de-duplication share a content. */
  lemma {:induction false} DedupDistinct(s: seq<Hit>)
    ensures DistinctContents(Dedup(s))
    decreases |s|
  {
    if s != [] {
      var init, last := s[..|s| - 1], s[|s| - 1];
      DedupDistinct(init);
      var d := Dedup(init);
      if last.content !in ContentsOf(d) {
        forall i | 0 <= i < |d| ensures d[i].content != last.content {
          assert d[i] in d;
        }
      }
    }
  }

  lemma FirstWithContentSnoc(s: seq<Hit>)
    requires s != []
    ensures forall i :: 0 <= i < |s| - 1 ==> (FirstWithContent(s, i) <==> FirstWithContent(s[..|s| - 1], i))
    ensures FirstWithContent(s, |s| - 1) <==> s[|s| - 1].content !in ContentsOf(s[..|s| - 1])
  {
    var init := s[..|s| - 1];
    if s[|s| - 1].content in ContentsOf(init) {
      var h :| h in init && h.content == s[|s| - 1].content;
      var j :| 0 <= j < |init| && init[j] == h;
      assert s[j] == h;
    }
  }

  /** Every hit kept by de-duplication is the first hit of the input with its content. */
  lemma {:induction false} DedupKeepsFirst(s: seq<Hit>)
    ensures forall h :: h in Dedup(s) ==> exists i :: FirstWithContent(s, i) && s[i] == h
    decreases |s|
  {
    if s != [] {
      var init, last := s[..|s| - 1], s[|s| - 1];
      DedupKeepsFirst(init);
      DedupContents(init);
      FirstWithContentSnoc(s);
      var d := Dedup(init);
      forall h | h in Dedup(s) ensures exists i :: FirstWithContent(s, i) && s[i] == h {
        if h in d {
          var i :| FirstWithContent(init, i) && init[i] == h;
          assert FirstWithContent(s, i) && s[i] == h;
        } else {
          assert FirstWithContent(s, |s| - 1) && s[|s| - 1] == h;
        }
      }
    }
  }

  /** The first hit of the input with each content is kept by de-duplication. */
  lemma {:induction false} DedupKeepsEveryFirst(s: seq<Hit>)
    ensures forall i :: FirstWithContent(s, i) ==> s[i] in Dedup(s)
    decreases |s|
  {
    if s != [] {
      var init, last := s[..|s| - 1], s[|s| - 1];
      DedupKeepsEveryFirst(init);
      DedupContents(init);
      FirstWithContentSnoc(s);
      forall i | FirstWithContent(s, i) ensures s[i] in Dedup(s) {
        if i < |init| {
          assert FirstWithContent(init, i) && init[i] == s[i];
        }
      }
    }
  }

  /** The result of `_deduplicate_and_rank`: the de-duplicated hits, best score first (ties
      in input order), cut to `topK`. */
  function Ranked(all: seq<Hit>, topK: int): seq<Hit> {
    Take(SortDesc(Dedup(all), ScoreOf), topK)
  }

  lemma TwoOccurrences(p: seq<Hit>, i: nat, j: nat)
    requires i < j < |p| && p[i] == p[j]
    ensures multiset(p)[p[i]] >= 2
  {
    assert p == p[..j] + [p[j]] + p[j + 1..];
    assert p[i] in p[..j];
    assert multiset(p) == multiset(p[..j]) + multiset{p[j]} + multiset(p[j + 1..]);
  }

  /** In a list with distinct contents, each hit occurs once. */
  lemma {:induction false} OccursOnce(d: seq<Hit>, a: nat)
    requires a < |d| && DistinctContents(d)
    ensures multiset(d)[d[a]] == 1
    decreases |d|
  {
    var init, last := d[..|d| - 1], d[|d| - 1];
    assert d == init + [last];
    if a == |d| - 1 {
      assert last !in init by {
        forall j | 0 <= j < |init| ensures init[j] != last { assert d[j].content != d[|d| - 1].content; }
      }
    } else {
      OccursOnce(init, a);
      assert d[a] != last by { assert d[a].content != d[|d| - 1].content; }
    }
  }

  /** A permutation of a list with distinct contents has distinct contents. */
  lemma DistinctPermutation(d: seq<Hit>, p: seq<Hit>)
    requires multiset(p) == multiset(d) && DistinctContents(d)
    ensures DistinctContents(p)
  {
    forall i, j | 0 <= i < j < |p| ensures p[i].content != p[j].content {
      if p[i].content == p[j].content {
        assert p[i] in multiset(d) && p[j] in multiset(d);
        var a :| 0 <= a < |d| && d[a] == p[i];
        var b :| 0 <= b < |d| && d[b] == p[j];
        assert a == b;
        TwoOccurrences(p, i, j);
        OccursOnce(d, a);
        assert false;
      }
    }
  }

  /** The ranked list holds first occurrences only, no content twice, sorted by score, and at
      most `topK` of them. */
  lemma RankedFacts(all: seq<Hit>, topK: int)
    ensures SortedDesc(Ranked(all, topK), ScoreOf)
    ensures DistinctContents(Ranked(all, topK))
    ensures forall h :: h in Ranked(all, topK) ==> exists i :: FirstWithContent(all, i) && all[i] == h
    ensures topK >= 0 ==> |Ranked(all, topK)| <= topK
  {
    var d := Dedup(all);
    var sorted := SortDesc(d, ScoreOf);
    DedupDistinct(all);
    DedupKeepsFirst(all);
    SortDescFacts(d, ScoreOf);
    TakeSorted(sorted, topK, ScoreOf);
    DistinctPermutation(d, sorted);
    forall h | h in Ranked(all, topK) ensures h in d {
      assert h in sorted;
      assert h in multiset(sorted);
    }
  }

  /** No hit that the cut to `topK` drops scores above a hit it keeps. */
  lemma RankedKeepsBest(all: seq<Hit>, topK: int)
    ensures forall h, k :: h in Dedup(all) && h !in Ranked(all, topK) && k in Ranked(all, topK) ==> k.score >= h.score
  {
    var d := Dedup(all);
    var sorted := SortDesc(d, ScoreOf);
    var r := Ranked(all, topK);
    SortDescFacts(d, ScoreOf);
    forall h, k | h in d && h !in r && k in r ensures k.score >= h.score {
      assert h in multiset(d);
      var jh :| 0 <= jh < |sorted| && sorted[jh] == h;
      var jk :| 0 <= jk < |r| && r[jk] == k;
      assert forall j :: 0 <= j < |r| ==> r[j] == sorted[j];
      assert jh >= |r|;
      assert sorted[jk] == k;
    }
  }

  method DeduplicateAndRank(all: seq<Hit>, topK: int) returns (r: seq<Hit>)
    ensures r == Ranked(all, topK)
  {
    var seen: set<string> := {};
    var unique: seq<Hit> := [];
    for i := 0 to |all|
      invariant unique == Dedup(all[..i])
      invariant seen == ContentsOf(unique)
    {
      assert all[..i + 1][..i] == all[..i];
      if all[i].content !in seen {
        seen := seen + {all[i].content};
        unique := unique + [all[i]];
      }
    }
    assert all[..|all|] == all;
    unique := SortDesc(unique, ScoreOf);
    r := Take(unique, topK);
  }

  /** Everything the three strategies return, in the order `retrieve_logs` concatenates them. */
  function Candidates(search: Search, query: string, topK: int): seq<Hit> {
    SemanticHits(search, query, topK) + KeywordHits(search, query, topK) + ErrorCodeHits(search, query, topK)
  }

  /** `retrieve_logs`: nothing without an index; otherwise the ranked fusion of the three
      strategies. */
  method RetrieveLogs(index: Option<Search>, query: string, topK: int) returns (r: seq<Hit>)
    ensures index.None? ==> r == []
    ensures index.Some? ==> r == Ranked(Candidates(index.value, query, topK), topK)
  {
    if index.None? {
      return [];
    }
    var semantic := SemanticRetrieval(index.value, query, topK);
    var keyword := KeywordRetrieval(index.value, query, topK);
    var errorCode := ErrorCodeRetrieval(index.value, query, topK);
    r := DeduplicateAndRank(semantic + keyword + errorCode, topK);
  }

  /** When a log comes back from several strategies, the fused list keeps the copy of the
      strategy that ran first: semantic before keyword before error code. */
  lemma SemanticCopyWins(search: Search, query: string, topK: int, i: nat)
    requires i < |SemanticHits(search, query, topK)|
    requires forall j :: 0 <= j < i ==> SemanticHits(search, query, topK)[j].content != SemanticHits(search, query, topK)[i].content
    ensures SemanticHits(search, query, topK)[i] in Dedup(Candidates(search, query, topK))
  {
    var c := Candidates(search, query, topK);
    assert c[i] == SemanticHits(search, query, topK)[i];
    assert FirstWithContent(c, i);
    DedupKeepsEveryFirst(c);
  }

  // ---------------------------------------------------------------- context filter

  /** The log with the keys `_intelligent_context_filter` adds: its information value, log
      level, error codes and services. */
  function Annotate(h: Hit): (a: Hit)
    ensures a.content == h.content && a.score == h.score && a.via == h.via
    ensures a.annotation.Some? && a.annotation.value.logLevel == ExtractLogLevel(h.content)
  {
    var level := ExtractLogLevel(h.content);
    var codes := ExtractErrorCodes(h.content);
    var services := ExtractServices(h.content);
    h.(annotation := Some(Annotation(InformationValue(h.content, level, codes, services), level, codes, services)))
  }

  /** The information value of a log's content. */
  function ValueOf(content: string): real {
    var level := ExtractLogLevel(content);
    InformationValue(content, level, ExtractErrorCodes(content), ExtractServices(content))
  }

  /** A log the filter keeps: relevance at least 0.1 and information value above 0.3. */
  predicate Informative(h: Hit) {
    h.score >= 0.1 && ValueOf(h.content) > 0.3
  }

  /** The informative logs of `context`, annotated, in order. */
  function KeepInformative(context: seq<Hit>): (r: seq<Hit>)
    ensures |r| <= |context|
  {
    if context == [] then []
    else
      var init, last := context[..|context| - 1], context[|context| - 1];
      KeepInformative(init) + (if Informative(last) then [Annotate(last)] else [])
  }

  /** The filter keeps a log exactly when it is informative, and keeps it annotated. */
  lemma {:induction false} KeepInformativeMembers(context: seq<Hit>)
    ensures forall k :: k in KeepInformative(context) <==> exists h :: h in context && Informative(h) && k == Annotate(h)
    decreases |context|
  {
    if context != [] {
      var init, last := context[..|context| - 1], context[|context| - 1];
      KeepInformativeMembers(init);
      assert context == init + [last];
      assert forall h :: h in context <==> h in init || h == last;
    }
  }

  /** `x.get('value_score', 0)`. */
  function ValueScore(h: Hit): real {
    match h.annotation
    case Some(a) => a.valueScore
    case None => 0.0
  }

  /** The combined ranking key: 60% information value, 40% relevance. */
  function RankKey(h: Hit): real { ValueScore(h) * 0.6 + h.score * 0.4 }

  /** `_intelligent_context_filter`: the informative logs, annotated, ranked by the combined
      key (stable), at most 8 of them. */
  method IntelligentContextFilter(context: seq<Hit>) returns (r: seq<Hit>)
    ensures r == Take(SortDesc(KeepInformative(context), RankKey), 8)
    ensures |r| <= 8 && SortedDesc(r, RankKey)
    ensures forall k :: k in r ==> exists h :: h in context && Informative(h) && k == Annotate(h)
  {
    var filtered: seq<Hit> := [];
    for i := 0 to |context|
      invariant filtered == KeepInformative(context[..i])
    {
      assert context[..i + 1][..i] == context[..i];
      var h := context[i];
      if h.score < 0.1 {
        continue;
      }
      var level := ExtractLogLevel(h.content);
      var codes := ExtractErrorCodes(h.content);
      var services := ExtractServices(h.content);
      var value := InformationValue(h.content, level, codes, services);
      if value > 0.3 {
        filtered := filtered + [h.(annotation := Some(Annotation(value, level, codes, services)))];
      }
    }
    assert context[..|context|] == context;
    var sorted := SortDesc(filtered, RankKey);
    SortDescFacts(filtered, RankKey);
    TakeSorted(sorted, 8, RankKey);
    r := Take(sorted, 8);
    KeepInformativeMembers(context);
    forall k | k in r ensures k in filtered {
      assert k in multiset(sorted);
    }
  }

  /** A kept log's information value is recorded with it and lies in (0.3, 1.0]. */
  lemma KeptValueRange(h: Hit)
    requires Informative(h)
    ensures 0.3 < ValueScore(Annotate(h)) <= 1.0
    ensures RankKey(Annotate(h)) == ValueOf(h.content) * 0.6 + h.score * 0.4
  {
  }
}
