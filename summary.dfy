/**
 * The summaries `ConversationSession` writes for the early rounds of a conversation it
 * compresses: `_generate_context_summary` (standard compression) and
 * `_generate_compact_summary` (aggressive compression).
 *
 * Both loop over the rounds, add what the regular expressions find to Python sets, and print
 * the sets with `', '.join(...)`. Here what is found is kept as the list of matches in the
 * order found; the Python set is the set of that list (`Found`). The order in which Python
 * iterates a set is left unspecified by the language, so it is the parameter `order`: for
 * each set, the list Python would produce. `IsSetOrder(order)` says only that each such list
 * holds every element of its set exactly once.
 */
module Summaries {
  import opened Text
  import opened Patterns
  import opened Ranking

  /** How a set is listed when iterated. */
  type SetOrder = set<string> -> seq<string>

  /** `xs` lists every element of `s` exactly once. */
  ghost predicate Lists(xs: seq<string>, s: set<string>) {
    |xs| == |s| && forall x :: x in xs <==> x in s
  }

  ghost predicate IsSetOrder(order: SetOrder) {
    forall s :: Lists(order(s), s)
  }

  /** The set of the items of a list. */
  function Found(xs: seq<string>): (r: set<string>)
    ensures forall x :: x in r <==> x in xs
  {
    set x | x in xs
  }

  lemma SubsetSize(a: set<string>, b: set<string>)
    requires a <= b
    ensures |a| <= |b|
  {
    assert b == a + (b - a);
    assert a * (b - a) == {};
  }

  /** A set made of a list has no more elements than the list. */
  lemma {:induction false} FoundSize(xs: seq<string>)
    ensures |Found(xs)| <= |xs|
    decreases |xs|
  {
    if xs != [] {
      FoundSize(xs[1..]);
      assert Found(xs) == {xs[0]} + Found(xs[1..]);
    }
  }

  /** The key information `_generate_context_summary` collects: error codes, services,
      important words, time expressions, users and topics. */
  datatype KeyInfo = KeyInfo(
    errorCodes: seq<string>,
    services: seq<string>,
    keywords: seq<string>,
    timePatterns: seq<string>,
    userPatterns: seq<string>,
    topics: seq<string>)

  const NoKeyInfo: KeyInfo := KeyInfo([], [], [], [], [], [])

  /** `ERROR\s+(\d+)`, `FATAL\s+(\d+)`, `Exception:\s*(\w+)`, `错误码[：:]\s*(\w+)`, all
      ignoring case. */
  const ErrorCodePatterns: seq<Lead> := [
    Lead("ERROR", true, false, 1, Digits),
    Lead("FATAL", true, false, 1, Digits),
    Lead("Exception:", true, false, 0, WordChars),
    Lead("错误码", true, true, 0, WordChars)
  ]

  /** `服务`, `Service`, `模块` and `组件`, each followed by `[：:]\s*([^\s\n]+)`, ignoring
      case. */
  const ServicePatterns: seq<Lead> := [
    Lead("服务", true, true, 0, NonSpace),
    Lead("Service", true, true, 0, NonSpace),
    Lead("模块", true, true, 0, NonSpace),
    Lead("组件", true, true, 0, NonSpace)
  ]

  /** `用户`, `User` and `用户ID`, each followed by `[：:]\s*([^\s\n]+)`, ignoring case. */
  const UserPatterns: seq<Lead> := [
    Lead("用户", true, true, 0, NonSpace),
    Lead("User", true, true, 0, NonSpace),
    Lead("用户ID", true, true, 0, NonSpace)
  ]

  /** The words whose presence `_generate_context_summary` records. */
  const ImportantWords: seq<string> := [
    "错误", "故障", "异常", "失败", "服务", "数据库", "网络",
    "连接", "超时", "内存", "CPU", "磁盘", "日志", "监控",
    "告警", "恢复", "重启", "部署", "发布", "回滚"
  ]

  const TopicNames: seq<string> := ["数据库问题", "网络问题", "性能问题", "部署问题"]

  /** The lists `f` gives for each of `xs`, one after another. */
  function ConcatMap<A>(f: A -> seq<string>, xs: seq<A>): seq<string> {
    if xs == [] then [] else f(xs[0]) + ConcatMap(f, xs[1..])
  }

  /** An item is in the concatenation exactly when one of the lists holds it. */
  lemma {:induction false} ConcatMapMembers<A>(f: A -> seq<string>, xs: seq<A>, c: string)
    ensures c in ConcatMap(f, xs) <==> exists k :: 0 <= k < |xs| && c in f(xs[k])
    decreases |xs|
  {
    if xs != [] {
      assert ConcatMap(f, xs) == f(xs[0]) + ConcatMap(f, xs[1..]);
      ConcatMapMembers(f, xs[1..], c);
      if c in ConcatMap(f, xs[1..]) {
        var k :| 0 <= k < |xs[1..]| && c in f(xs[1..][k]);
        assert xs[1..][k] == xs[k + 1];
      }
      if exists k :: 0 <= k < |xs| && c in f(xs[k]) {
        var k :| 0 <= k < |xs| && c in f(xs[k]);
        if k > 0 {
          assert xs[1..][k - 1] == xs[k];
        }
      }
    }
  }

  /** Everything `re.findall` captures in `conv` with each of `patterns` in turn. */
  function CapturesOf(conv: string, patterns: seq<Lead>): seq<string> {
    ConcatMap((p: Lead) => FindAllLead(conv, p, 0), patterns)
  }

  /** A capture is found exactly when one of the patterns finds it. */
  lemma CapturesOfMembers(conv: string, patterns: seq<Lead>, c: string)
    ensures c in CapturesOf(conv, patterns) <==> exists k :: 0 <= k < |patterns| && c in FindAllLead(conv, patterns[k], 0)
  {
    ConcatMapMembers((p: Lead) => FindAllLead(conv, p, 0), patterns, c);
  }

  /** The words of `words` that occur in `conv`, in the order of `words`. */
  function WordsIn(conv: string, words: seq<string>): seq<string> {
    if words == [] then [] else (if Contains(conv, words[0]) then [words[0]] else []) + WordsIn(conv, words[1..])
  }

  /** A word is recorded exactly when it is one of `words` and occurs in `conv`. */
  lemma {:induction false} WordsInMembers(conv: string, words: seq<string>, w: string)
    ensures w in WordsIn(conv, words) <==> w in words && Contains(conv, w)
    decreases |words|
  {
    if words != [] {
      WordsInMembers(conv, words[1..], w);
      assert words == [words[0]] + words[1..];
    }
  }

  /** The time expressions of `conv`: dates `\d{4}-\d{2}-\d{2}`, clock times
      `\d{2}:\d{2}:\d{2}`, and the numbers of "N分钟前" and "N小时前". */
  function TimePatternsOf(conv: string): seq<string> {
    FindAllShape(conv, "dddd-dd-dd", 0) + FindAllShape(conv, "dd:dd:dd", 0)
    + FindAllTrail(conv, "分钟前", 0) + FindAllTrail(conv, "小时前", 0)
  }

  function TopicsOf(conv: string): seq<string> {
    (if Contains(conv, "数据库") then [TopicNames[0]] else [])
    + (if Contains(conv, "网络") then [TopicNames[1]] else [])
    + (if Contains(conv, "内存") || Contains(conv, "CPU") then [TopicNames[2]] else [])
    + (if Contains(conv, "部署") || Contains(conv, "发布") then [TopicNames[3]] else [])
  }

  /** What one early round contributes to the key information. */
  function InfoOf(conv: string): KeyInfo {
    KeyInfo(
      CapturesOf(conv, ErrorCodePatterns),
      CapturesOf(conv, ServicePatterns),
      WordsIn(conv, ImportantWords),
      TimePatternsOf(conv),
      CapturesOf(conv, UserPatterns),
      TopicsOf(conv))
  }

  function Union(a: KeyInfo, b: KeyInfo): KeyInfo {
    KeyInfo(
      a.errorCodes + b.errorCodes, a.services + b.services, a.keywords + b.keywords,
      a.timePatterns + b.timePatterns, a.userPatterns + b.userPatterns, a.topics + b.topics)
  }

  /** What the loop over the rounds `convs` collects: the information `extract` finds in
      each round, merged into `none` one round at a time. */
  function Gather<T>(convs: seq<string>, extract: string -> T, none: T, merge: (T, T) -> T): T
    decreases |convs|
  {
    if convs == [] then none else merge(Gather(convs[..|convs| - 1], extract, none, merge), extract(convs[|convs| - 1]))
  }

  /** The loop over the rounds that both summaries run. */
  method GatherRounds<T>(convs: seq<string>, extract: string -> T, none: T, merge: (T, T) -> T) returns (info: T)
    ensures info == Gather(convs, extract, none, merge)
  {
    info := none;
    var i := 0;
    while i < |convs|
      invariant 0 <= i <= |convs|
      invariant info == Gather(convs[..i], extract, none, merge)
    {
      assert convs[..i + 1][..i] == convs[..i];
      info := merge(info, extract(convs[i]));
      i := i + 1;
    }
    assert convs[..i] == convs;
  }

  lemma MergeKeeps<T>(a: T, b: T, merge: (T, T) -> T, P: T -> bool)
    requires forall x, y :: P(x) && P(y) ==> P(merge(x, y))
    requires P(a) && P(b)
    ensures P(merge(a, b))
  {
  }

  /** A property of every round's information that merging keeps holds of what is gathered. */
  lemma {:induction false} GatherKeeps<T>(convs: seq<string>, extract: string -> T, none: T, merge: (T, T) -> T, P: T -> bool)
    requires P(none)
    requires forall a, b :: P(a) && P(b) ==> P(merge(a, b))
    requires forall c :: P(extract(c))
    ensures P(Gather(convs, extract, none, merge))
    decreases |convs|
  {
    if convs != [] {
      var a := Gather(convs[..|convs| - 1], extract, none, merge);
      GatherKeeps(convs[..|convs| - 1], extract, none, merge, P);
      MergeKeeps(a, extract(convs[|convs| - 1]), merge, P);
    }
  }

  /** The key information of all the rounds `convs`. */
  function KeyInfoOf(convs: seq<string>): KeyInfo {
    Gather(convs, InfoOf, NoKeyInfo, Union)
  }

  lemma MergeSplits<T>(a: T, b: T, merge: (T, T) -> T, field: T -> seq<string>)
    requires forall x, y :: field(merge(x, y)) == field(x) + field(y)
    ensures field(merge(a, b)) == field(a) + field(b)
  {
  }

  /** An item of a list field of what is gathered is there exactly when some round
      contributes it, for a field that merging concatenates. */
  lemma {:induction false} GatheredField<T>(convs: seq<string>, c: string, extract: string -> T, none: T, merge: (T, T) -> T,
                                            field: T -> seq<string>, part: string -> seq<string>)
    requires field(none) == []
    requires forall a, b :: field(merge(a, b)) == field(a) + field(b)
    requires forall conv :: field(extract(conv)) == part(conv)
    ensures c in field(Gather(convs, extract, none, merge)) <==> exists k :: 0 <= k < |convs| && c in part(convs[k])
    decreases |convs|
  {
    if convs != [] {
      var n := |convs| - 1;
      var init := convs[..n];
      GatheredField(init, c, extract, none, merge, field, part);
      var a := Gather(init, extract, none, merge);
      var b := extract(convs[n]);
      assert Gather(convs, extract, none, merge) == merge(a, b);
      MergeSplits(a, b, merge, field);
      assert field(b) == part(convs[n]);
      if exists k :: 0 <= k < n && c in part(init[k]) {
        var k :| 0 <= k < n && c in part(init[k]);
        assert init[k] == convs[k];
      }
      if exists k :: 0 <= k < |convs| && c in part(convs[k]) {
        var k :| 0 <= k < |convs| && c in part(convs[k]);
        if k < n {
          assert init[k] == convs[k];
        }
      }
    }
  }

  /** An error code is collected exactly when some round holds it (a capture of one of the
      error-code patterns, as `CapturesOfMembers` states). */
  lemma CodesCollected(convs: seq<string>, c: string)
    ensures c in KeyInfoOf(convs).errorCodes <==>
      exists k :: 0 <= k < |convs| && c in CapturesOf(convs[k], ErrorCodePatterns)
  {
    GatheredField(convs, c, InfoOf, NoKeyInfo, Union, (info: KeyInfo) => info.errorCodes, conv => CapturesOf(conv, ErrorCodePatterns));
  }

  /** A service is collected exactly when some round holds it (a capture of one of the
      service patterns). */
  lemma ServicesCollected(convs: seq<string>, c: string)
    ensures c in KeyInfoOf(convs).services <==>
      exists k :: 0 <= k < |convs| && c in CapturesOf(convs[k], ServicePatterns)
  {
    GatheredField(convs, c, InfoOf, NoKeyInfo, Union, (info: KeyInfo) => info.services, conv => CapturesOf(conv, ServicePatterns));
  }

  /** A keyword is collected exactly when it is an important word that occurs in some
      round. */
  lemma KeywordsCollected(convs: seq<string>, w: string)
    ensures w in KeyInfoOf(convs).keywords <==>
      w in ImportantWords && exists k :: 0 <= k < |convs| && Contains(convs[k], w)
  {
    GatheredField(convs, w, InfoOf, NoKeyInfo, Union, (info: KeyInfo) => info.keywords, conv => WordsIn(conv, ImportantWords));
    forall k | 0 <= k < |convs| {
      WordsInMembers(convs[k], ImportantWords, w);
    }
  }

  const SummaryHeader: string := "## 📋 历史对话摘要"

  /** The error codes shown: the first five in set order, with " 等N个错误码" after them when
      there are more than five. */
  function CodesText(codes: set<string>, order: SetOrder): string {
    Join(", ", Take(order(codes), 5)) + (if |codes| > 5 then " 等" + NatToString(|codes|) + "个错误码" else "")
  }

  /** The services shown: the first three, with " 等N个服务" when there are more. */
  function ServicesText(services: set<string>, order: SetOrder): string {
    Join(", ", Take(order(services), 3)) + (if |services| > 3 then " 等" + NatToString(|services|) + "个服务" else "")
  }

  /** Each optional line of the summary: present only when its set is not empty. */
  function TopicsLines(info: KeyInfo, order: SetOrder): seq<string> {
    if info.topics != [] then ["**讨论主题**: " + Join(", ", order(Found(info.topics)))] else []
  }

  function CodesLines(info: KeyInfo, order: SetOrder): seq<string> {
    if info.errorCodes != [] then ["**涉及错误码**: " + CodesText(Found(info.errorCodes), order)] else []
  }

  function ServicesLines(info: KeyInfo, order: SetOrder): seq<string> {
    if info.services != [] then ["**涉及服务**: " + ServicesText(Found(info.services), order)] else []
  }

  function KeywordsLines(info: KeyInfo, order: SetOrder): seq<string> {
    if info.keywords != [] then ["**关键词**: " + Join(", ", Take(order(Found(info.keywords)), 8))] else []
  }

  function TimesLines(info: KeyInfo): seq<string> {
    if info.timePatterns != [] then ["**时间范围**: 包含" + NatToString(|Found(info.timePatterns)|) + "个时间点"] else []
  }

  function UsersLines(info: KeyInfo): seq<string> {
    if info.userPatterns != [] then ["**涉及用户**: " + NatToString(|Found(info.userPatterns)|) + "个用户"] else []
  }

  function RoundsLine(rounds: nat): string {
    "**对话轮数**: " + NatToString(rounds) + "轮"
  }

  /** The lines of the summary, in order. */
  function SummaryLines(info: KeyInfo, rounds: nat, order: SetOrder): seq<string> {
    [SummaryHeader] + TopicsLines(info, order) + CodesLines(info, order) + ServicesLines(info, order)
    + KeywordsLines(info, order) + TimesLines(info) + UsersLines(info) + [RoundsLine(rounds)]
  }

  /** The summary lines of the rounds' key information, joined by newlines. */
  function ContextSummary(conversations: seq<string>, order: SetOrder): string {
    Join("\n", SummaryLines(KeyInfoOf(conversations), |conversations|, order))
  }

  /** `_generate_context_summary`, gathering the key information round by round. */
  method GenerateContextSummary(conversations: seq<string>, order: SetOrder) returns (summary: string)
    ensures summary == ContextSummary(conversations, order)
  {
    var info := GatherRounds(conversations, InfoOf, NoKeyInfo, Union);
    summary := Join("\n", SummaryLines(info, |conversations|, order));
  }

  /** No newline anywhere in `s`. */
  predicate OneLine(s: string) {
    forall k :: 0 <= k < |s| ==> s[k] != '\n'
  }

  predicate AllOneLine(xs: seq<string>) {
    forall x :: x in xs ==> OneLine(x)
  }

  lemma OneLineHasNoNewline(s: string)
    requires OneLine(s)
    ensures !Contains(s, "\n")
  {
    forall j ensures !OccursAt(s, "\n", j) {
      if 0 <= j && j + 1 <= |s| {
        assert s[j..j + 1][0] == s[j];
      }
    }
  }

  lemma ConcatOneLine(a: string, b: string)
    requires OneLine(a) && OneLine(b)
    ensures OneLine(a + b)
  {
    forall k | 0 <= k < |a + b| ensures (a + b)[k] != '\n' {
      if k < |a| {
        assert (a + b)[k] == a[k];
      } else {
        assert (a + b)[k] == b[k - |a|];
      }
    }
  }

  /** Parts without a newline joined by a separator without one give one line. */
  lemma {:induction false} JoinOneLine(sep: string, parts: seq<string>)
    requires OneLine(sep) && AllOneLine(parts)
    ensures OneLine(Join(sep, parts))
    decreases |parts|
  {
    if |parts| == 1 {
      assert parts[0] in parts;
    } else if |parts| > 1 {
      assert parts[0] in parts;
      assert forall x :: x in parts[1..] ==> x in parts;
      JoinOneLine(sep, parts[1..]);
      ConcatOneLine(parts[0], sep);
      ConcatOneLine(parts[0] + sep, Join(sep, parts[1..]));
    }
  }

  /** Decimal digits are one line. */
  lemma NumberOneLine(n: nat)
    ensures OneLine(NatToString(n))
  {
  }

  /** A set listing's items are one line each when the set's are, and so is their join. */
  lemma ListedOneLine(order: SetOrder, s: set<string>, n: nat)
    requires IsSetOrder(order)
    requires forall c :: c in s ==> OneLine(c)
    ensures OneLine(Join(", ", Take(order(s), n)))
    ensures OneLine(Join(", ", order(s)))
  {
    assert Lists(order(s), s);
    var xs := Take(order(s), n);
    assert forall x :: x in xs ==> x in order(s);
    assert OneLine(", ");
    JoinOneLine(", ", xs);
    JoinOneLine(", ", order(s));
  }

  /** No captured run of any class holds a newline. */
  lemma FindAllOneLine(conv: string, p: Lead)
    ensures AllOneLine(FindAllLead(conv, p, 0))
  {
    assert !InClass('\n', p.capture) by {
      assert IsSpace('\n');
    }
  }

  lemma CapturesOneLine(conv: string, patterns: seq<Lead>)
    ensures AllOneLine(CapturesOf(conv, patterns))
  {
    forall c | c in CapturesOf(conv, patterns) ensures OneLine(c) {
      CapturesOfMembers(conv, patterns, c);
      var k :| 0 <= k < |patterns| && c in FindAllLead(conv, patterns[k], 0);
      FindAllOneLine(conv, patterns[k]);
    }
  }

  lemma KeywordsOneLine(conv: string)
    ensures AllOneLine(WordsIn(conv, ImportantWords))
  {
    assert AllOneLine(ImportantWords);
    forall w | w in WordsIn(conv, ImportantWords) ensures OneLine(w) {
      WordsInMembers(conv, ImportantWords, w);
    }
  }

  lemma TopicsOneLine(conv: string)
    ensures AllOneLine(TopicsOf(conv))
  {
    assert AllOneLine(TopicNames);
    assert forall t :: t in TopicsOf(conv) ==> t in TopicNames;
  }

  /** Every collected error code, service, keyword and topic is one line. */
  predicate OneLineItems(info: KeyInfo) {
    AllOneLine(info.errorCodes) && AllOneLine(info.services)
    && AllOneLine(info.keywords) && AllOneLine(info.topics)
  }

  lemma InfoOneLine(conv: string)
    ensures OneLineItems(InfoOf(conv))
  {
    CapturesOneLine(conv, ErrorCodePatterns);
    CapturesOneLine(conv, ServicePatterns);
    KeywordsOneLine(conv);
    TopicsOneLine(conv);
  }

  lemma KeyInfoOneLine(convs: seq<string>)
    ensures OneLineItems(KeyInfoOf(convs))
  {
    forall c ensures OneLineItems(InfoOf(c)) {
      InfoOneLine(c);
    }
    GatherKeeps(convs, InfoOf, NoKeyInfo, Union, OneLineItems);
  }

  /** The fixed texts of the summary lines hold no newline. */
  lemma SummaryTagsOneLine()
    ensures OneLine(SummaryHeader) && OneLine(" 等")
    ensures OneLine("**讨论主题**: ") && OneLine("**涉及错误码**: ") && OneLine("**涉及服务**: ")
    ensures OneLine("**关键词**: ") && OneLine("**时间范围**: 包含") && OneLine("个时间点")
    ensures OneLine("**涉及用户**: ") && OneLine("个用户") && OneLine("**对话轮数**: ") && OneLine("轮")
    ensures OneLine("个错误码") && OneLine("个服务")
  {
  }

  /** A line that is a tag followed by a one-line text. */
  lemma LabelledOneLine(tag: string, text: string, xs: seq<string>)
    requires OneLine(tag) && OneLine(text)
    requires xs == [tag + text] || xs == []
    ensures AllOneLine(xs)
  {
    ConcatOneLine(tag, text);
  }

  lemma CountedOneLine(tag: string, n: nat, unit: string, xs: seq<string>)
    requires OneLine(tag) && OneLine(unit)
    requires xs == [tag + NatToString(n) + unit] || xs == []
    ensures AllOneLine(xs)
  {
    NumberOneLine(n);
    ConcatOneLine(tag, NatToString(n));
    ConcatOneLine(tag + NatToString(n), unit);
  }

  /** The shown part of a set, with its total after it when some are left unnamed. */
  lemma ShownOneLine(shown: string, n: nat, unit: string, more: bool)
    requires OneLine(shown) && OneLine(unit)
    ensures OneLine(shown + (if more then " 等" + NatToString(n) + unit else ""))
  {
    if more {
      SummaryTagsOneLine();
      NumberOneLine(n);
      ConcatOneLine(" 等", NatToString(n));
      ConcatOneLine(" 等" + NatToString(n), unit);
      ConcatOneLine(shown, " 等" + NatToString(n) + unit);
    } else {
      assert shown + "" == shown;
    }
  }

  lemma AppendAllOneLine(xs: seq<string>, ys: seq<string>)
    requires AllOneLine(xs) && AllOneLine(ys)
    ensures AllOneLine(xs + ys)
  {
  }

  lemma TopicsLinesOneLine(info: KeyInfo, order: SetOrder)
    requires IsSetOrder(order) && OneLineItems(info)
    ensures AllOneLine(TopicsLines(info, order))
  {
    ListedOneLine(order, Found(info.topics), 0);
    SummaryTagsOneLine();
    LabelledOneLine("**讨论主题**: ", Join(", ", order(Found(info.topics))), TopicsLines(info, order));
  }

  lemma CodesLinesOneLine(info: KeyInfo, order: SetOrder)
    requires IsSetOrder(order) && OneLineItems(info)
    ensures AllOneLine(CodesLines(info, order))
  {
    var codes := Found(info.errorCodes);
    ListedOneLine(order, codes, 5);
    SummaryTagsOneLine();
    ShownOneLine(Join(", ", Take(order(codes), 5)), |codes|, "个错误码", |codes| > 5);
    LabelledOneLine("**涉及错误码**: ", CodesText(codes, order), CodesLines(info, order));
  }

  lemma ServicesLinesOneLine(info: KeyInfo, order: SetOrder)
    requires IsSetOrder(order) && OneLineItems(info)
    ensures AllOneLine(ServicesLines(info, order))
  {
    var services := Found(info.services);
    ListedOneLine(order, services, 3);
    SummaryTagsOneLine();
    ShownOneLine(Join(", ", Take(order(services), 3)), |services|, "个服务", |services| > 3);
    LabelledOneLine("**涉及服务**: ", ServicesText(services, order), ServicesLines(info, order));
  }

  lemma KeywordsLinesOneLine(info: KeyInfo, order: SetOrder)
    requires IsSetOrder(order) && OneLineItems(info)
    ensures AllOneLine(KeywordsLines(info, order))
  {
    ListedOneLine(order, Found(info.keywords), 8);
    SummaryTagsOneLine();
    LabelledOneLine("**关键词**: ", Join(", ", Take(order(Found(info.keywords)), 8)), KeywordsLines(info, order));
  }

  lemma CountLinesOneLine(info: KeyInfo, rounds: nat)
    ensures AllOneLine(TimesLines(info)) && AllOneLine(UsersLines(info)) && OneLine(RoundsLine(rounds))
  {
    SummaryTagsOneLine();
    CountedOneLine("**时间范围**: 包含", |Found(info.timePatterns)|, "个时间点", TimesLines(info));
    CountedOneLine("**涉及用户**: ", |Found(info.userPatterns)|, "个用户", UsersLines(info));
    CountedOneLine("**对话轮数**: ", rounds, "轮", [RoundsLine(rounds)]);
    assert RoundsLine(rounds) in [RoundsLine(rounds)];
  }

  /** No line of the summary holds a newline. */
  lemma SummaryLinesOneLine(info: KeyInfo, rounds: nat, order: SetOrder)
    requires IsSetOrder(order) && OneLineItems(info)
    ensures AllOneLine(SummaryLines(info, rounds, order))
  {
    TopicsLinesOneLine(info, order);
    CodesLinesOneLine(info, order);
    ServicesLinesOneLine(info, order);
    KeywordsLinesOneLine(info, order);
    CountLinesOneLine(info, rounds);
    SummaryTagsOneLine();
  }

  /** Lines without a newline come back unchanged when joined with newlines and split again. */
  lemma OneLinesRoundTrip(lines: seq<string>)
    requires |lines| > 0 && AllOneLine(lines)
    ensures Split(Join("\n", lines), "\n") == lines
  {
    forall k | 0 <= k < |lines| ensures !Contains(lines[k], "\n") {
      assert lines[k] in lines;
      OneLineHasNoNewline(lines[k]);
    }
    SplitJoin("\n", lines);
  }

  /** The summary's lines are exactly `SummaryLines`: it starts with the header line and ends
      with the round count. */
  lemma SummaryLayout(conversations: seq<string>, order: SetOrder)
    requires IsSetOrder(order)
    ensures var lines := Split(ContextSummary(conversations, order), "\n");
      lines == SummaryLines(KeyInfoOf(conversations), |conversations|, order)
      && lines[0] == SummaryHeader
      && lines[|lines| - 1] == RoundsLine(|conversations|)
  {
    var info := KeyInfoOf(conversations);
    KeyInfoOneLine(conversations);
    var lines := SummaryLines(info, |conversations|, order);
    SummaryLinesOneLine(info, |conversations|, order);
    OneLinesRoundTrip(lines);
  }

  /** At most five error codes and three services are named, each one collected; the total is
      added exactly when some are left unnamed. At most eight keywords are named, each one
      collected. */
  lemma ShownItems(codes: set<string>, services: set<string>, keywords: set<string>, order: SetOrder)
    requires IsSetOrder(order)
    ensures |Take(order(codes), 5)| == if |codes| < 5 then |codes| else 5
    ensures forall c :: c in Take(order(codes), 5) ==> c in codes
    ensures |Take(order(services), 3)| == if |services| < 3 then |services| else 3
    ensures forall c :: c in Take(order(services), 3) ==> c in services
    ensures |Take(order(keywords), 8)| == if |keywords| < 8 then |keywords| else 8
    ensures forall c :: c in Take(order(keywords), 8) ==> c in keywords
  {
    assert Lists(order(codes), codes);
    assert Lists(order(services), services);
    assert Lists(order(keywords), keywords);
    assert forall c :: c in Take(order(codes), 5) ==> c in order(codes);
    assert forall c :: c in Take(order(services), 3) ==> c in order(services);
    assert forall c :: c in Take(order(keywords), 8) ==> c in order(keywords);
  }

  /** The key information `_generate_compact_summary` collects. */
  datatype CompactInfo = CompactInfo(errorCodes: seq<string>, services: seq<string>, topics: seq<string>)

  /** `ERROR\s+(\d+)` and `服务[：:]\s*([^\s\n]+)`, both matched with case. */
  const CompactCodePattern: Lead := Lead("ERROR", false, false, 1, Digits)
  const CompactServicePattern: Lead := Lead("服务", false, true, 0, NonSpace)

  const CompactTopicNames: seq<string> := ["数据库", "网络", "性能"]

  /** What one early round contributes: its first three error codes, its first two services,
      and its topics. */
  function CompactInfoOf(conv: string): CompactInfo {
    CompactInfo(
      Take(FindAllLead(conv, CompactCodePattern, 0), 3),
      Take(FindAllLead(conv, CompactServicePattern, 0), 2),
      (if Contains(conv, CompactTopicNames[0]) then [CompactTopicNames[0]] else [])
      + (if Contains(conv, CompactTopicNames[1]) then [CompactTopicNames[1]] else [])
      + (if Contains(conv, CompactTopicNames[2]) then [CompactTopicNames[2]] else []))
  }

  function CompactUnion(a: CompactInfo, b: CompactInfo): CompactInfo {
    CompactInfo(a.errorCodes + b.errorCodes, a.services + b.services, a.topics + b.topics)
  }

  function CompactInfoOfAll(convs: seq<string>): CompactInfo {
    Gather(convs, CompactInfoOf, CompactInfo([], [], []), CompactUnion)
  }

  function CompactLines(info: CompactInfo, rounds: nat, order: SetOrder): seq<string> {
    ["## 历史摘要"]
    + (if info.topics != [] then ["主题: " + Join(", ", order(Found(info.topics)))] else [])
    + (if info.errorCodes != [] then ["错误码: " + Join(", ", order(Found(info.errorCodes)))] else [])
    + (if info.services != [] then ["服务: " + Join(", ", order(Found(info.services)))] else [])
    + ["轮数: " + NatToString(rounds)]
  }

  /** The compact lines of the rounds' key information, joined by newlines. */
  function CompactSummary(conversations: seq<string>, order: SetOrder): string {
    Join("\n", CompactLines(CompactInfoOfAll(conversations), |conversations|, order))
  }

  /** `_generate_compact_summary`, gathering the key information round by round. */
  method GenerateCompactSummary(conversations: seq<string>, order: SetOrder) returns (summary: string)
    ensures summary == CompactSummary(conversations, order)
  {
    var info := GatherRounds(conversations, CompactInfoOf, CompactInfo([], [], []), CompactUnion);
    summary := Join("\n", CompactLines(info, |conversations|, order));
  }

  lemma {:induction false} CompactCounts(convs: seq<string>)
    ensures |CompactInfoOfAll(convs).errorCodes| <= 3 * |convs|
    ensures |CompactInfoOfAll(convs).services| <= 2 * |convs|
    ensures forall t :: t in CompactInfoOfAll(convs).topics ==> t in CompactTopicNames
    decreases |convs|
  {
    if convs != [] {
      CompactCounts(convs[..|convs| - 1]);
      var b := CompactInfoOf(convs[|convs| - 1]);
      assert CompactInfoOfAll(convs) == CompactUnion(CompactInfoOfAll(convs[..|convs| - 1]), b);
    }
  }

  /** The compact summary names at most three error codes and two services per round, and
      at most the three topics. */
  lemma CompactBounds(convs: seq<string>)
    ensures |Found(CompactInfoOfAll(convs).errorCodes)| <= 3 * |convs|
    ensures |Found(CompactInfoOfAll(convs).services)| <= 2 * |convs|
    ensures |Found(CompactInfoOfAll(convs).topics)| <= 3
  {
    CompactCounts(convs);
    var info := CompactInfoOfAll(convs);
    FoundSize(info.errorCodes);
    FoundSize(info.services);
    FoundSize(CompactTopicNames);
    SubsetSize(Found(info.topics), Found(CompactTopicNames));
  }
}
