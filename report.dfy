/** `json_to_markdown`: the fault-analysis answer of the model, a JSON text possibly wrapped
    in a Markdown code fence and sprinkled with HTML tags, rendered as a Markdown report.
    Any failure, in parsing or in rendering, gives back the answer unchanged. */
module Report {
  import opened Wrappers
  import opened Text

  /** A value as `json.loads` returns it: objects keep their keys in order, and a number
      without fraction or exponent is an `int`, any other a `float`, so that `str()` can
      render `1` and `1.0` apart. */
  datatype Json =
    | Null
    | Bool(b: bool)
    | Int(n: int)
    | Float(x: real)
    | Str(s: string)
    | Arr(items: seq<Json>)
    | Obj(fields: seq<(string, Json)>)

  const Header := "# 🔍 故障分析报告\n\n"
  const SummaryTitle := "## 📋 故障摘要\n\n"
  const RootCauseTitle := "## 🔍 根因分析\n\n"
  const SolutionsTitle := "## 🛠️ 解决方案\n\n"
  const ImmediateTitle := "### 🚨 立即行动\n\n"
  const LongTermTitle := "### 🔧 长期修复\n\n"
  const PreventionTitle := "### 🛡️ 预防措施\n\n"
  const MonitoringTitle := "## 📊 监控建议\n\n"

  // ---------------------------------------------------------------- cleanup

  /** Strips the answer, then a leading "```json", then a leading "```", then a trailing "```". */
  function Unfenced(s: string): string {
    var a := Strip(s);
    var b := if StartsWith(a, "```json") then a[7..] else a;
    var c := if StartsWith(b, "```") then b[3..] else b;
    if EndsWith(c, "```") then c[..|c| - 3] else c
  }

  /** The same cleanup, written as the source does it: one reassignment per step. */
  method StripFences(response: string) returns (cleaned: string)
    ensures cleaned == Unfenced(response)
  {
    cleaned := Strip(response);
    if StartsWith(cleaned, "```json") {
      cleaned := cleaned[7..];
    }
    if StartsWith(cleaned, "```") {
      cleaned := cleaned[3..];
    }
    if EndsWith(cleaned, "```") {
      cleaned := cleaned[..|cleaned| - 3];
    }
  }

  lemma StripUnchanged(s: string)
    requires s != [] && !IsSpace(s[0]) && !IsSpace(s[|s| - 1])
    ensures Strip(s) == s
  {
    assert TrimStart(s) == s;
  }

  /** A body in a "```json" fence comes out as it went in. */
  lemma FenceRoundTrip(body: string)
    requires body != [] && body[0] != '`'
    ensures Unfenced("```json" + body + "```") == body
  {
    var s := "```json" + body + "```";
    StripUnchanged(s);
    assert s[7..] == body + "```";
    assert (body + "```")[0] == body[0];
  }

  /** An answer without fences and without surrounding blanks is left as it is. */
  lemma UnfencedPlain(s: string)
    requires Strip(s) == s && !StartsWith(s, "```") && !EndsWith(s, "```")
    ensures Unfenced(s) == s
  {
  }

  /** The first `>` at or after `i`. */
  function NextClose(s: string, i: nat): (r: Option<nat>)
    ensures r.Some? ==> i <= r.value < |s| && s[r.value] == '>'
    ensures r.Some? ==> forall k :: i <= k < r.value ==> s[k] != '>'
    ensures r.None? ==> forall k :: i <= k < |s| ==> s[k] != '>'
    ensures r.None? && i <= |s| ==> '>' !in s[i..]
    decreases |s| - i
  {
    if i >= |s| then None
    else if s[i] == '>' then Some(i)
    else
      var r := NextClose(s, i + 1);
      assert s[i..] == [s[i]] + s[i + 1..];
      r
  }

  /** `re.sub(r'<[^>]+>', '', s)` from position `i`: a `<` whose next `>` is not the very next
      character starts a tag, which is dropped up to and including that `>`; every other
      character is kept. */
  function RemoveTagsFrom(s: string, i: nat): (r: string)
    requires i <= |s|
    ensures |r| <= |s| - i
    ensures forall c :: c in r ==> c in s[i..]
    decreases |s| - i
  {
    if i == |s| then ""
    else if s[i] == '<' && NextClose(s, i + 1).Some? && NextClose(s, i + 1).value > i + 1 then
      RemoveTagsFrom(s, NextClose(s, i + 1).value + 1)
    else
      [s[i]] + RemoveTagsFrom(s, i + 1)
  }

  function RemoveTags(s: string): string {
    RemoveTagsFrom(s, 0)
  }

  /** No `<`, some characters and a `>` with no `>` in between: nothing the pattern matches. */
  predicate TagFree(s: string) {
    forall i, j :: 0 <= i && i + 1 < j < |s| && s[i] == '<' && s[j] == '>' ==> s[i + 1] == '>'
  }

  lemma TagFreeCons(c: char, t: string)
    requires TagFree(t)
    requires c == '<' ==> t == [] || t[0] == '>' || '>' !in t
    ensures TagFree([c] + t)
  {
    var s := [c] + t;
    forall i, j | 0 <= i && i + 1 < j < |s| && s[i] == '<' && s[j] == '>'
      ensures s[i + 1] == '>'
    {
      if i > 0 {
        assert t[i - 1] == '<' && t[j - 1] == '>';
      } else {
        assert t[j - 1] in t;
      }
    }
  }

  lemma {:induction false} RemoveTagsFromTagFree(s: string, i: nat)
    requires i <= |s|
    ensures TagFree(RemoveTagsFrom(s, i))
    decreases |s| - i
  {
    if i == |s| {
    } else if s[i] == '<' && NextClose(s, i + 1).Some? && NextClose(s, i + 1).value > i + 1 {
      RemoveTagsFromTagFree(s, NextClose(s, i + 1).value + 1);
    } else {
      var rest := RemoveTagsFrom(s, i + 1);
      RemoveTagsFromTagFree(s, i + 1);
      if s[i] == '<' && i + 1 < |s| {
        if s[i + 1] == '>' {
          assert rest == [s[i + 1]] + RemoveTagsFrom(s, i + 2);
        } else {
          assert NextClose(s, i + 1).None?;
        }
      }
      TagFreeCons(s[i], rest);
    }
  }

  /** After the substitution no tag is left. */
  lemma RemoveTagsTagFree(s: string)
    ensures TagFree(RemoveTags(s))
  {
    RemoveTagsFromTagFree(s, 0);
  }

  lemma {:induction false} RemoveTagsFromKeeps(s: string, i: nat)
    requires TagFree(s) && i <= |s|
    ensures RemoveTagsFrom(s, i) == s[i..]
    decreases |s| - i
  {
    if i < |s| {
      if s[i] == '<' && NextClose(s, i + 1).Some? && NextClose(s, i + 1).value > i + 1 {
        assert false;
      }
      RemoveTagsFromKeeps(s, i + 1);
      assert s[i..] == [s[i]] + s[i + 1..];
    }
  }

  /** A text without tags passes through unchanged, so the substitution is idempotent. */
  lemma RemoveTagsIdempotent(s: string)
    ensures RemoveTags(RemoveTags(s)) == RemoveTags(s)
  {
    RemoveTagsTagFree(s);
    RemoveTagsFromKeeps(RemoveTags(s), 0);
  }

  // ---------------------------------------------------------------- reading the record

  /** `d.get(key)` on an object's fields: the first binding of `key`. */
  function Lookup(fields: seq<(string, Json)>, key: string): Option<Json> {
    if fields == [] then None
    else if fields[0].0 == key then Some(fields[0].1)
    else Lookup(fields[1..], key)
  }

  /** A key is found exactly when some field has it, and then with the value of its first
      binding. */
  lemma {:induction false} LookupFirst(fields: seq<(string, Json)>, key: string)
    ensures Lookup(fields, key).Some? <==> exists k :: 0 <= k < |fields| && fields[k].0 == key
    ensures Lookup(fields, key).Some? ==> exists k :: (0 <= k < |fields| && fields[k] == (key, Lookup(fields, key).value)
      && forall m :: 0 <= m < k ==> fields[m].0 != key)
  {
    if fields != [] && fields[0].0 != key {
      LookupFirst(fields[1..], key);
      assert forall k :: 1 <= k < |fields| ==> fields[k] == fields[1..][k - 1];
      if Lookup(fields, key).Some? {
        var k :| 0 <= k < |fields[1..]| && fields[1..][k] == (key, Lookup(fields, key).value)
          && forall m :: 0 <= m < k ==> fields[1..][m].0 != key;
        assert fields[k + 1] == (key, Lookup(fields, key).value);
      }
    } else if fields != [] {
      assert fields[0] == (key, Lookup(fields, key).value);
    }
  }

  /** `d.get(key, default)`. */
  function Field(fields: seq<(string, Json)>, key: string, default: Json): Json {
    Lookup(fields, key).GetOr(default)
  }

  /** Python truthiness of a parsed value. */
  predicate Truthy(v: Json) {
    match v
    case Null => false
    case Bool(b) => b
    case Int(n) => n != 0
    case Float(x) => x != 0.0
    case Str(s) => s != []
    case Arr(xs) => xs != []
    case Obj(fs) => fs != []
  }

  /** What a `for` loop over the value visits: the characters of a string, the items of a
      list, the keys of an object; anything else cannot be iterated. */
  function Items(v: Json): (r: Option<seq<Json>>)
    ensures r.Some? <==> v.Str? || v.Arr? || v.Obj?
    ensures r.Some? ==> (|r.value| == 0 <==> !Truthy(v))
  {
    match v
    case Str(s) => Some(Characters(s))
    case Arr(xs) => Some(xs)
    case Obj(fs) => Some(Keys(fs))
    case _ => None
  }

  /** The one-character strings of `s`, in order. */
  function Characters(s: string): (r: seq<Json>)
    ensures |r| == |s| && forall k :: 0 <= k < |s| ==> r[k] == Str([s[k]])
  {
    if s == [] then [] else [Str([s[0]])] + Characters(s[1..])
  }

  /** The keys of an object, in order. */
  function Keys(fields: seq<(string, Json)>): (r: seq<Json>)
    ensures |r| == |fields| && forall k :: 0 <= k < |fields| ==> r[k] == Str(fields[k].0)
  {
    if fields == [] then [] else [Str(fields[0].0)] + Keys(fields[1..])
  }

  /** How a value appears inside an f-string: a string as itself, anything else by `show`,
      which stands for Python's `str()`. */
  function Display(v: Json, show: Json -> string): string {
    if v.Str? then v.s else show(v)
  }

  /** The strings of `xs`, or nothing when one of them is not a string (`str.join` fails). */
  function Texts(xs: seq<Json>): (r: Option<seq<string>>)
    ensures r.Some? <==> forall k :: 0 <= k < |xs| ==> xs[k].Str?
    ensures r.Some? ==> |r.value| == |xs| && forall k :: 0 <= k < |xs| ==> r.value[k] == xs[k].s
  {
    if xs == [] then Some([])
    else if !xs[0].Str? then None
    else match Texts(xs[1..])
      case None => None
      case Some(ts) => Some([xs[0].s] + ts)
  }

  /** The "affected services" or "error codes" line: absent for a falsy value, else the
      caption and the items joined by ", ". */
  function JoinedLine(caption: string, v: Json): Option<string> {
    if !Truthy(v) then Some("")
    else match Items(v)
      case None => None
      case Some(xs) =>
        match Texts(xs)
        case None => None
        case Some(ts) => Some(caption + Join(", ", ts) + "\n\n")
  }

  /** The priority marker: `{"HIGH": "🔴", "MEDIUM": "🟡", "LOW": "🟢"}.get(p, "⚪")`; a list or
      an object cannot be a dictionary key. */
  function PriorityEmoji(p: Json): (r: Option<string>)
    ensures r.None? <==> p.Arr? || p.Obj?
    ensures r == Some("🔴") <==> p == Str("HIGH")
    ensures r == Some("🟡") <==> p == Str("MEDIUM")
    ensures r == Some("🟢") <==> p == Str("LOW")
    ensures r.Some? ==> r.value in {"🔴", "🟡", "🟢", "⚪"}
  {
    match p
    case Arr(_) => None
    case Obj(_) => None
    case Str(s) =>
      if s == "HIGH" then Some("🔴")
      else if s == "MEDIUM" then Some("🟡")
      else if s == "LOW" then Some("🟢")
      else Some("⚪")
    case _ => Some("⚪")
  }

  // ---------------------------------------------------------------- lists of lines

  /** The lines of `xs` in order, the `n`-th (from 1) being `line(n, xs[n - 1])`. */
  function Lines(xs: seq<Json>, line: (nat, Json) -> string): string {
    if xs == [] then "" else Lines(xs[..|xs| - 1], line) + line(|xs|, xs[|xs| - 1])
  }

  /** The lines of `xs` in order, or nothing as soon as one of them fails. */
  function LinesOrFail(xs: seq<Json>, line: Json -> Option<string>): Option<string> {
    if xs == [] then Some("")
    else match LinesOrFail(xs[..|xs| - 1], line)
      case None => None
      case Some(t) =>
        match line(xs[|xs| - 1])
        case None => None
        case Some(l) => Some(t + l)
  }

  lemma LinesSnoc(xs: seq<Json>, x: Json, line: (nat, Json) -> string)
    ensures Lines(xs + [x], line) == Lines(xs, line) + line(|xs| + 1, x)
  {
    assert (xs + [x])[..|xs|] == xs;
  }

  lemma {:induction false} ConcatSnoc(pieces: seq<string>, last: string)
    ensures Concat(pieces + [last]) == Concat(pieces) + last
  {
    if pieces != [] {
      assert (pieces + [last])[1..] == pieces[1..] + [last];
      ConcatSnoc(pieces[1..], last);
    }
  }

  /** Line `k` (from 0) is `line(k + 1, xs[k])`: consecutive numbering in input order. */
  lemma {:induction false} LinesInOrder(xs: seq<Json>, line: (nat, Json) -> string)
    ensures Lines(xs, line) == Concat(seq(|xs|, k requires 0 <= k < |xs| => line(k + 1, xs[k])))
  {
    if xs != [] {
      var init := xs[..|xs| - 1];
      LinesInOrder(init, line);
      var all := seq(|xs|, k requires 0 <= k < |xs| => line(k + 1, xs[k]));
      var first := seq(|init|, k requires 0 <= k < |init| => line(k + 1, init[k]));
      assert all == first + [all[|xs| - 1]];
      ConcatSnoc(first, all[|xs| - 1]);
    }
  }

  /** A list renders exactly when each item does, and then as their lines in order. */
  lemma {:induction false} LinesOrFailAll(xs: seq<Json>, line: Json -> Option<string>)
    ensures LinesOrFail(xs, line).Some? <==> forall k :: 0 <= k < |xs| ==> line(xs[k]).Some?
    ensures LinesOrFail(xs, line).Some? ==>
      LinesOrFail(xs, line).value == Concat(seq(|xs|, k requires 0 <= k < |xs| => line(xs[k]).GetOr("")))
  {
    if xs != [] {
      var init := xs[..|xs| - 1];
      LinesOrFailAll(init, line);
      assert forall k :: 0 <= k < |init| ==> init[k] == xs[k];
      var all := seq(|xs|, k requires 0 <= k < |xs| => line(xs[k]).GetOr(""));
      var first := seq(|init|, k requires 0 <= k < |init| => line(init[k]).GetOr(""));
      assert all == first + [all[|xs| - 1]];
      ConcatSnoc(first, all[|xs| - 1]);
    }
  }

  // ---------------------------------------------------------------- sections

  /** The fault summary without its optional lists: severity, category and description,
      each with its default. */
  function SummaryBase(f: seq<(string, Json)>, show: Json -> string): string {
    SummaryTitle
      + ("**严重程度**: " + Display(Field(f, "severity", Str("UNKNOWN")), show) + "\n\n"
      + "**故障分类**: " + Display(Field(f, "category", Str("UNKNOWN")), show) + "\n\n"
      + "**故障描述**: " + Display(Field(f, "description", Str("无描述")), show) + "\n\n")
  }

  /** The fault summary: its base, then the affected services and the error codes. */
  function FaultSummary(fs: Json, show: Json -> string): Option<string> {
    if !fs.Obj? then None
    else
      match (JoinedLine("**受影响服务**: ", Field(fs.fields, "affected_services", Arr([]))),
             JoinedLine("**错误码**: ", Field(fs.fields, "error_codes", Arr([]))))
      case (Some(a), Some(b)) => Some(SummaryBase(fs.fields, show) + a + b)
      case _ => None
  }

  /** One contributing factor as a bullet. */
  function Bullet(x: Json, show: Json -> string): string {
    "- " + Display(x, show) + "\n"
  }

  /** The bullets of the factors, in order. */
  function Bullets(xs: seq<Json>, show: Json -> string): string {
    Lines(xs, (n: nat, x: Json) => Bullet(x, show))
  }

  /** The root-cause section before the factors: the primary cause or 未识别. */
  function CauseHead(f: seq<(string, Json)>, show: Json -> string): string {
    RootCauseTitle + "**主要原因**: " + Display(Field(f, "primary_cause", Str("未识别")), show) + "\n\n"
  }

  /** The root-cause section after the factors: confidence (or UNKNOWN), reasoning (or 无推理过程). */
  function CauseTail(f: seq<(string, Json)>, show: Json -> string): string {
    "**置信度**: " + Display(Field(f, "confidence_level", Str("UNKNOWN")), show) + "\n\n"
      + "**分析推理**: " + Display(Field(f, "reasoning", Str("无推理过程")), show) + "\n\n"
  }

  /** The root-cause section, with the factor list when there is one. */
  function RootCause(rc: Json, show: Json -> string): Option<string> {
    if !rc.Obj? then None
    else
      var factors := Field(rc.fields, "contributing_factors", Arr([]));
      if !Truthy(factors) then Some(CauseHead(rc.fields, show) + CauseTail(rc.fields, show))
      else match Items(factors)
        case None => None
        case Some(xs) => Some(CauseHead(rc.fields, show) + "**影响因素**:\n" + Bullets(xs, show) + "\n" + CauseTail(rc.fields, show))
  }

  /** One action: its priority marker, the priority (or UNKNOWN) and the action (or 无行动). */
  function ActionLine(a: Json, show: Json -> string): Option<string> {
    if !a.Obj? then None
    else
      var p := Field(a.fields, "priority", Str("UNKNOWN"));
      match PriorityEmoji(p)
      case None => None
      case Some(e) => Some(e + " **" + Display(p, show) + "**: " + Display(Field(a.fields, "action", Str("无行动")), show) + "\n\n")
  }

  function ActionLines(xs: seq<Json>, show: Json -> string): Option<string> {
    LinesOrFail(xs, a => ActionLine(a, show))
  }

  /** An action subsection: absent for a falsy list, else its title and its lines. */
  function ActionSection(title: string, v: Json, show: Json -> string): Option<string> {
    if !Truthy(v) then Some("")
    else match Items(v)
      case None => None
      case Some(xs) =>
        match ActionLines(xs, show)
        case None => None
        case Some(t) => Some(title + t)
  }

  /** The solutions section with its three action subsections. */
  function Solutions(sol: Json, show: Json -> string): Option<string> {
    if !sol.Obj? then None
    else
      var f := sol.fields;
      match (ActionSection(ImmediateTitle, Field(f, "immediate_actions", Arr([])), show),
             ActionSection(LongTermTitle, Field(f, "long_term_fixes", Arr([])), show),
             ActionSection(PreventionTitle, Field(f, "prevention_measures", Arr([])), show))
      case (Some(a), Some(b), Some(c)) => Some(SolutionsTitle + a + b + c)
      case _ => None
  }

  /** Recommendation number `n`. */
  function NumberedLine(n: nat, x: Json, show: Json -> string): string {
    NatToString(n) + ". " + Display(x, show) + "\n"
  }

  /** The recommendations, numbered by `enumerate(..., 1)`. */
  function Numbered(xs: seq<Json>, show: Json -> string): string {
    Lines(xs, (n: nat, x: Json) => NumberedLine(n, x, show))
  }

  lemma NumberedStep(xs: seq<Json>, k: nat, show: Json -> string)
    requires k < |xs|
    ensures Numbered(xs[..k + 1], show) == Numbered(xs[..k], show) + NumberedLine(k + 1, xs[k], show)
  {
    assert xs[..k + 1] == xs[..k] + [xs[k]];
    LinesSnoc(xs[..k], xs[k], (n: nat, x: Json) => NumberedLine(n, x, show));
  }

  /** The monitoring section: absent for a falsy list, else numbered recommendations. */
  function Monitoring(v: Json, show: Json -> string): Option<string> {
    if !Truthy(v) then Some("")
    else match Items(v)
      case None => None
      case Some(xs) => Some(MonitoringTitle + Numbered(xs, show) + "\n")
  }

  /** The whole report for a parsed value, or nothing where the source raises. */
  function Render(data: Json, show: Json -> string): Option<string> {
    if !data.Obj? then None
    else
      var f := data.fields;
      match (FaultSummary(Field(f, "fault_summary", Obj([])), show),
             RootCause(Field(f, "root_cause_analysis", Obj([])), show),
             Solutions(Field(f, "solutions", Obj([])), show),
             Monitoring(Field(f, "monitoring_recommendations", Arr([])), show))
      case (Some(a), Some(b), Some(c), Some(d)) => Some(Header + a + b + c + d)
      case _ => None
  }

  /** `json_to_markdown`, with `parse` standing for `json.loads`. */
  function Converted(response: string, parse: string -> Option<Json>, show: Json -> string): string {
    match parse(Strip(RemoveTags(Unfenced(response))))
    case None => response
    case Some(data) => Render(data, show).GetOr(response)
  }

  // ---------------------------------------------------------------- the renderer, step by step

  method RenderFaultSummary(fs: Json, show: Json -> string) returns (text: Option<string>)
    ensures text == FaultSummary(fs, show)
  {
    if !fs.Obj? {
      return None;
    }
    var t := SummaryTitle;
    t := t + "**严重程度**: " + Display(Field(fs.fields, "severity", Str("UNKNOWN")), show) + "\n\n";
    t := t + "**故障分类**: " + Display(Field(fs.fields, "category", Str("UNKNOWN")), show) + "\n\n";
    t := t + "**故障描述**: " + Display(Field(fs.fields, "description", Str("无描述")), show) + "\n\n";
    assert t == SummaryBase(fs.fields, show);
    var services := JoinedLine("**受影响服务**: ", Field(fs.fields, "affected_services", Arr([])));
    if services.None? {
      return None;
    }
    t := t + services.value;
    var codes := JoinedLine("**错误码**: ", Field(fs.fields, "error_codes", Arr([])));
    if codes.None? {
      return None;
    }
    t := t + codes.value;
    return Some(t);
  }

  method RenderBullets(xs: seq<Json>, show: Json -> string) returns (bullets: string)
    ensures bullets == Bullets(xs, show)
  {
    bullets := "";
    for k := 0 to |xs|
      invariant bullets == Bullets(xs[..k], show)
    {
      assert xs[..k + 1] == xs[..k] + [xs[k]];
      LinesSnoc(xs[..k], xs[k], (n: nat, x: Json) => Bullet(x, show));
      bullets := bullets + Bullet(xs[k], show);
    }
    assert xs[..|xs|] == xs;
  }

  method RenderRootCause(rc: Json, show: Json -> string) returns (text: Option<string>)
    ensures text == RootCause(rc, show)
  {
    if !rc.Obj? {
      return None;
    }
    var t := CauseHead(rc.fields, show);
    var factors := Field(rc.fields, "contributing_factors", Arr([]));
    if Truthy(factors) {
      var items := Items(factors);
      if items.None? {
        return None;
      }
      var bullets := RenderBullets(items.value, show);
      t := t + "**影响因素**:\n" + bullets + "\n";
    }
    t := t + CauseTail(rc.fields, show);
    return Some(t);
  }

  method RenderActionSection(title: string, v: Json, show: Json -> string) returns (text: Option<string>)
    ensures text == ActionSection(title, v, show)
  {
    if !Truthy(v) {
      return Some("");
    }
    var items := Items(v);
    if items.None? {
      return None;
    }
    var xs := items.value;
    var lines := "";
    for k := 0 to |xs|
      invariant ActionLines(xs[..k], show) == Some(lines)
    {
      assert xs[..k + 1][..k] == xs[..k];
      var line := ActionLine(xs[k], show);
      if line.None? {
        ActionLinesAll(xs, show);
        return None;
      }
      lines := lines + line.value;
    }
    assert xs[..|xs|] == xs;
    return Some(title + lines);
  }

  method RenderSolutions(sol: Json, show: Json -> string) returns (text: Option<string>)
    ensures text == Solutions(sol, show)
  {
    if !sol.Obj? {
      return None;
    }
    var immediate := RenderActionSection(ImmediateTitle, Field(sol.fields, "immediate_actions", Arr([])), show);
    if immediate.None? {
      return None;
    }
    var longTerm := RenderActionSection(LongTermTitle, Field(sol.fields, "long_term_fixes", Arr([])), show);
    if longTerm.None? {
      return None;
    }
    var prevention := RenderActionSection(PreventionTitle, Field(sol.fields, "prevention_measures", Arr([])), show);
    if prevention.None? {
      return None;
    }
    return Some(SolutionsTitle + immediate.value + longTerm.value + prevention.value);
  }

  method RenderMonitoring(v: Json, show: Json -> string) returns (text: Option<string>)
    ensures text == Monitoring(v, show)
  {
    if !Truthy(v) {
      return Some("");
    }
    var items := Items(v);
    if items.None? {
      return None;
    }
    var xs := items.value;
    var numbered := "";
    var i := 1;
    for k := 0 to |xs|
      invariant i == k + 1
      invariant numbered == Numbered(xs[..k], show)
    {
      NumberedStep(xs, k, show);
      numbered := numbered + NumberedLine(i, xs[k], show);
      i := i + 1;
    }
    assert xs[..|xs|] == xs;
    return Some(MonitoringTitle + numbered + "\n");
  }

  /** `json_to_markdown` as the source writes it: the cleaned answer is reassigned step by
      step, the report grows section by section, and any failure returns the answer. */
  method JsonToMarkdown(response: string, parse: string -> Option<Json>, show: Json -> string) returns (markdown: string)
    ensures markdown == Converted(response, parse, show)
  {
    var cleaned := StripFences(response);
    cleaned := RemoveTags(cleaned);
    var parsed := parse(Strip(cleaned));
    if parsed.None? || !parsed.value.Obj? {
      return response;
    }
    var data := parsed.value.fields;
    var summary := RenderFaultSummary(Field(data, "fault_summary", Obj([])), show);
    if summary.None? {
      return response;
    }
    var cause := RenderRootCause(Field(data, "root_cause_analysis", Obj([])), show);
    if cause.None? {
      return response;
    }
    var solutions := RenderSolutions(Field(data, "solutions", Obj([])), show);
    if solutions.None? {
      return response;
    }
    var monitoring := RenderMonitoring(Field(data, "monitoring_recommendations", Arr([])), show);
    if monitoring.None? {
      return response;
    }
    markdown := Header + summary.value + cause.value + solutions.value + monitoring.value;
  }

  // ---------------------------------------------------------------- properties

  lemma StartsWithConcat(p: string, x: string)
    ensures StartsWith(p + x, p)
  {
    assert (p + x)[..|p|] == p;
  }

  lemma StartsWithExtend(s: string, p: string, x: string)
    requires StartsWith(s, p)
    ensures StartsWith(s + x, p)
  {
    assert (s + x)[..|p|] == s[..|p|];
  }

  lemma StartsWithPrepend(h: string, s: string, p: string)
    requires StartsWith(s, p)
    ensures StartsWith(h + s, h + p)
  {
    assert (h + s)[..|h + p|] == h + s[..|p|];
  }

  /** A fault summary opens with its title. */
  lemma FaultSummaryStartsWithTitle(fs: Json, show: Json -> string)
    requires FaultSummary(fs, show).Some?
    ensures StartsWith(FaultSummary(fs, show).value, SummaryTitle)
  {
    var base := SummaryBase(fs.fields, show);
    var r := FaultSummary(fs, show).value;
    assert r == SummaryTitle + (base[|SummaryTitle|..] + r[|base|..]);
    StartsWithConcat(SummaryTitle, base[|SummaryTitle|..] + r[|base|..]);
  }

  /** A rendered report is the title and the four sections in order. */
  lemma RenderParts(data: Json, show: Json -> string)
    requires Render(data, show).Some?
    ensures var f := data.fields;
      Render(data, show).value == Header + FaultSummary(Field(f, "fault_summary", Obj([])), show).value
        + RootCause(Field(f, "root_cause_analysis", Obj([])), show).value
        + Solutions(Field(f, "solutions", Obj([])), show).value
        + Monitoring(Field(f, "monitoring_recommendations", Arr([])), show).value
  {
  }

  /** A rendered report opens with the report title and the fault summary title. */
  lemma RenderStartsWithTitles(data: Json, show: Json -> string)
    requires Render(data, show).Some?
    ensures StartsWith(Render(data, show).value, Header + SummaryTitle)
  {
    var f := data.fields;
    var fs := Field(f, "fault_summary", Obj([]));
    RenderParts(data, show);
    FaultSummaryStartsWithTitle(fs, show);
    var a := FaultSummary(fs, show).value;
    var b := RootCause(Field(f, "root_cause_analysis", Obj([])), show).value;
    var c := Solutions(Field(f, "solutions", Obj([])), show).value;
    var d := Monitoring(Field(f, "monitoring_recommendations", Arr([])), show).value;
    var p := Header + SummaryTitle;
    StartsWithPrepend(Header, a, SummaryTitle);
    StartsWithExtend(Header + a, p, b);
    StartsWithExtend(Header + a + b, p, c);
    StartsWithExtend(Header + a + b + c, p, d);
  }

  /** The answer comes back unchanged, or a report comes out that opens with the report
      title and the fault summary title. */
  lemma ConvertedShape(response: string, parse: string -> Option<Json>, show: Json -> string)
    ensures var r := Converted(response, parse, show);
      r == response || StartsWith(r, Header + SummaryTitle)
    ensures parse(Strip(RemoveTags(Unfenced(response)))).None? ==> Converted(response, parse, show) == response
  {
    match parse(Strip(RemoveTags(Unfenced(response))))
    case None =>
    case Some(data) =>
      if Render(data, show).Some? {
        RenderStartsWithTitles(data, show);
      }
  }

  /** Missing summary fields render as UNKNOWN, UNKNOWN and 无描述. */
  lemma SummaryDefaults(f: seq<(string, Json)>, show: Json -> string)
    requires Lookup(f, "severity").None? && Lookup(f, "category").None? && Lookup(f, "description").None?
    ensures SummaryBase(f, show) == SummaryTitle
      + "**严重程度**: " + "UNKNOWN" + "\n\n"
      + "**故障分类**: " + "UNKNOWN" + "\n\n"
      + "**故障描述**: " + "无描述" + "\n\n"
  {
  }

  /** Missing root-cause fields render as 未识别, UNKNOWN and 无推理过程, without a factor list. */
  lemma RootCauseDefaults(f: seq<(string, Json)>, show: Json -> string)
    requires Lookup(f, "primary_cause").None? && Lookup(f, "confidence_level").None?
    requires Lookup(f, "reasoning").None? && Lookup(f, "contributing_factors").None?
    ensures RootCause(Obj(f), show) == Some(RootCauseTitle + "**主要原因**: " + "未识别" + "\n\n"
      + ("**置信度**: " + "UNKNOWN" + "\n\n" + "**分析推理**: " + "无推理过程" + "\n\n"))
  {
  }

  /** A list line is empty exactly when its value is falsy, opens with its caption
      otherwise, and fails only for a truthy value that is not a list of strings. */
  lemma JoinedLineOmitted(caption: string, v: Json)
    requires caption != []
    ensures JoinedLine(caption, v) == Some("") <==> !Truthy(v)
    ensures JoinedLine(caption, v).Some? && Truthy(v) ==> StartsWith(JoinedLine(caption, v).value, caption)
    ensures JoinedLine(caption, v).Some? <==> !Truthy(v) || (Items(v).Some? && Texts(Items(v).value).Some?)
  {
  }

  /** The services line and the error-code line are each left out exactly when their own
      list is falsy: the summary is its base followed by the two lines. */
  lemma SummaryOptionalLines(fs: Json, show: Json -> string)
    requires fs.Obj?
    ensures var services := Field(fs.fields, "affected_services", Arr([]));
      var codes := Field(fs.fields, "error_codes", Arr([]));
      var a := JoinedLine("**受影响服务**: ", services);
      var b := JoinedLine("**错误码**: ", codes);
      (FaultSummary(fs, show).Some? <==> a.Some? && b.Some?)
      && (!Truthy(services) && !Truthy(codes) ==> FaultSummary(fs, show) == Some(SummaryBase(fs.fields, show)))
      && (FaultSummary(fs, show).Some? ==>
            var rest := FaultSummary(fs, show).value[|SummaryBase(fs.fields, show)|..];
            rest == a.value + b.value
            && (!Truthy(services) ==> rest == b.value)
            && (!Truthy(codes) ==> rest == a.value)
            && (Truthy(services) ==> StartsWith(rest, "**受影响服务**: "))
            && (!Truthy(services) && Truthy(codes) ==> StartsWith(rest, "**错误码**: "))
            && (Truthy(codes) ==> EndsWith(rest, b.value) && StartsWith(b.value, "**错误码**: ")))
  {
    var base := SummaryBase(fs.fields, show);
    var services := Field(fs.fields, "affected_services", Arr([]));
    var codes := Field(fs.fields, "error_codes", Arr([]));
    var a := JoinedLine("**受影响服务**: ", services);
    var b := JoinedLine("**错误码**: ", codes);
    JoinedLineOmitted("**受影响服务**: ", services);
    JoinedLineOmitted("**错误码**: ", codes);
    if a.Some? && b.Some? {
      var t := FaultSummary(fs, show).value;
      assert t == base + a.value + b.value;
      assert t[|base|..] == a.value + b.value;
      assert a.value + "" == a.value;
      assert (a.value + b.value)[|a.value|..] == b.value;
      if !Truthy(services) && !Truthy(codes) {
        assert t == base + "" + "" == base;
      }
    }
  }

  /** The factor block is left out exactly when the factors are falsy, whether missing or
      present as an empty list or string, and otherwise follows the primary cause. */
  lemma RootCauseFactorsOmitted(rc: Json, show: Json -> string)
    requires rc.Obj?
    ensures !Truthy(Field(rc.fields, "contributing_factors", Arr([]))) ==>
      RootCause(rc, show) == Some(CauseHead(rc.fields, show) + CauseTail(rc.fields, show))
    ensures Truthy(Field(rc.fields, "contributing_factors", Arr([]))) && RootCause(rc, show).Some? ==>
      StartsWith(RootCause(rc, show).value[|CauseHead(rc.fields, show)|..], "**影响因素**:\n")
  {
  }

  /** An action subsection is empty exactly when its list is falsy; otherwise it opens with
      its title. */
  lemma ActionSectionOmitted(title: string, v: Json, show: Json -> string)
    requires title != []
    ensures ActionSection(title, v, show) == Some("") <==> !Truthy(v)
    ensures ActionSection(title, v, show).Some? && Truthy(v) ==> StartsWith(ActionSection(title, v, show).value, title)
  {
  }

  /** The monitoring section is empty exactly when the recommendations are falsy, and fails
      exactly when they are truthy but cannot be iterated. */
  lemma MonitoringOmitted(v: Json, show: Json -> string)
    ensures Monitoring(v, show) == Some("") <==> !Truthy(v)
    ensures Monitoring(v, show).None? <==> Truthy(v) && !(v.Str? || v.Arr? || v.Obj?)
  {
  }

  /** A list of actions renders exactly when every action does, as their lines in order. */
  lemma ActionLinesAll(xs: seq<Json>, show: Json -> string)
    ensures ActionLines(xs, show).Some? <==> forall k :: 0 <= k < |xs| ==> ActionLine(xs[k], show).Some?
    ensures ActionLines(xs, show).Some? ==>
      ActionLines(xs, show).value == Concat(seq(|xs|, k requires 0 <= k < |xs| => ActionLine(xs[k], show).GetOr("")))
  {
    var line := a => ActionLine(a, show);
    LinesOrFailAll(xs, line);
    assert forall k :: 0 <= k < |xs| ==> line(xs[k]) == ActionLine(xs[k], show);
    assert seq(|xs|, k requires 0 <= k < |xs| => line(xs[k]).GetOr(""))
      == seq(|xs|, k requires 0 <= k < |xs| => ActionLine(xs[k], show).GetOr(""));
  }

  /** Recommendation `k` (from 0) is the line numbered `k + 1`. */
  lemma NumberedInOrder(xs: seq<Json>, show: Json -> string)
    ensures Numbered(xs, show) == Concat(seq(|xs|, k requires 0 <= k < |xs| => NumberedLine(k + 1, xs[k], show)))
  {
    var line := (n: nat, x: Json) => NumberedLine(n, x, show);
    LinesInOrder(xs, line);
    assert seq(|xs|, k requires 0 <= k < |xs| => line(k + 1, xs[k]))
      == seq(|xs|, k requires 0 <= k < |xs| => NumberedLine(k + 1, xs[k], show));
  }

  /** The factors appear in order, one bullet each. */
  lemma BulletsInOrder(xs: seq<Json>, show: Json -> string)
    ensures Bullets(xs, show) == Concat(seq(|xs|, k requires 0 <= k < |xs| => Bullet(xs[k], show)))
  {
    var line := (n: nat, x: Json) => Bullet(x, show);
    LinesInOrder(xs, line);
    assert seq(|xs|, k requires 0 <= k < |xs| => line(k + 1, xs[k]))
      == seq(|xs|, k requires 0 <= k < |xs| => Bullet(xs[k], show));
  }
}
