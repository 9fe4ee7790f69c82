/**
 * The regular expressions the conversation summaries search with, and `re.findall` over them.
 * Every one of them has one of three shapes:
 *
 * - a lead: a literal, an optional `[：:]`, a run of `\s` (`\s*` or `\s+`) and a captured run
 *   of one character class (`\d+`, `\w+` or `[^\s\n]+`), as in `ERROR\s+(\d+)` or
 *   `服务[：:]\s*([^\s\n]+)`;
 * - a trail: a captured `\d+`, `\s*` and a literal, as in `(\d+)\s*分钟前`;
 * - a fixed shape of digits and literal characters, as in `\d{4}-\d{2}-\d{2}`.
 *
 * In each shape the space run and the captured run use disjoint classes, so the greedy match
 * at a position never backtracks: whether a match starts at `i`, and what it captures, is
 * decided by the maximal runs from `i`. `re.findall` tries every start from left to right and
 * resumes after each match.
 */
module Patterns {
  import opened Wrappers
  import opened Text

  /** The class a captured run repeats. */
  datatype CharClass = Digits | WordChars | NonSpace

  predicate InClass(c: char, cls: CharClass) {
    match cls
    case Digits => IsDigit(c)
    case WordChars => IsWordChar(c)
    case NonSpace => !IsSpace(c) && c != '\n'
  }

  /** The end of the run of `cls` characters of `s` that starts at `i`. */
  function ClassRunEnd(s: string, i: nat, cls: CharClass): (j: nat)
    requires i <= |s|
    ensures i <= j <= |s|
    ensures forall k :: i <= k < j ==> InClass(s[k], cls)
    ensures j == |s| || !InClass(s[j], cls)
    decreases |s| - i
  {
    if i < |s| && InClass(s[i], cls) then ClassRunEnd(s, i + 1, cls) else i
  }

  /** The end of the run of `\s` characters of `s` that starts at `i`. */
  function SpaceRunEnd(s: string, i: nat): (j: nat)
    requires i <= |s|
    ensures i <= j <= |s|
    ensures forall k :: i <= k < j ==> IsSpace(s[k])
    ensures j == |s| || !IsSpace(s[j])
    decreases |s| - i
  {
    if i < |s| && IsSpace(s[i]) then SpaceRunEnd(s, i + 1) else i
  }

  /** `lead[：:]?\s{minSpaces,}(cls+)`, the literal compared up to ASCII case when
      `ignoreCase`. */
  datatype Lead = Lead(lead: string, ignoreCase: bool, colon: bool, minSpaces: nat, capture: CharClass)

  predicate LiteralAt(s: string, i: nat, lit: string, ignoreCase: bool) {
    i + |lit| <= |s| && (if ignoreCase then Lower(s[i..i + |lit|]) == Lower(lit) else s[i..i + |lit|] == lit)
  }

  /** `\s{minSpaces,}(cls+)` from `j`: the captured run and where it ends, if any. */
  function SpacedRun(s: string, j: nat, minSpaces: nat, cls: CharClass): (r: Option<(string, nat)>)
    requires j <= |s|
    ensures r.Some? ==> j < r.value.1 <= |s| && 0 < |r.value.0| <= r.value.1 && r.value.0 == s[r.value.1 - |r.value.0|..r.value.1]
    ensures r.Some? ==> forall k :: 0 <= k < |r.value.0| ==> InClass(r.value.0[k], cls)
  {
    var k := SpaceRunEnd(s, j);
    if k - j < minSpaces then None
    else
      var e := ClassRunEnd(s, k, cls);
      if e == k then None else Some((s[k..e], e))
  }

  /** The match of `p` starting at `i`, if any: the captured text and where the match ends. */
  function MatchLead(s: string, i: nat, p: Lead): (r: Option<(string, nat)>)
    requires i <= |s|
    ensures r.Some? ==> i < r.value.1 <= |s| && 0 < |r.value.0| <= r.value.1 && r.value.0 == s[r.value.1 - |r.value.0|..r.value.1]
    ensures r.Some? ==> forall k :: 0 <= k < |r.value.0| ==> InClass(r.value.0[k], p.capture)
  {
    if !LiteralAt(s, i, p.lead, p.ignoreCase) then None
    else
      var j := i + |p.lead|;
      var j' := if p.colon && j < |s| && (s[j] == '：' || s[j] == ':') then j + 1 else j;
      if p.colon && j' == j then None
      else SpacedRun(s, j', p.minSpaces, p.capture)
  }

  /** `re.findall(p, s[i..])` for a lead pattern: the captures, left to right. */
  function FindAllLead(s: string, p: Lead, i: nat): (r: seq<string>)
    requires i <= |s|
    ensures forall c :: c in r ==> |c| > 0 && forall k :: 0 <= k < |c| ==> InClass(c[k], p.capture)
    decreases |s| - i
  {
    if i == |s| then []
    else
      match MatchLead(s, i, p)
      case Some((c, e)) => [c] + FindAllLead(s, p, e)
      case None => FindAllLead(s, p, i + 1)
  }

  /** `(\d+)\s*suffix`: the captured digits and where the match ends. */
  function MatchTrail(s: string, i: nat, suffix: string): (r: Option<(string, nat)>)
    requires i <= |s|
    ensures r.Some? ==> i < r.value.1 <= |s| && |r.value.0| > 0
    ensures r.Some? ==> forall k :: 0 <= k < |r.value.0| ==> IsDigit(r.value.0[k])
  {
    var e := ClassRunEnd(s, i, Digits);
    if e == i then None
    else
      var k := SpaceRunEnd(s, e);
      if OccursAt(s, suffix, k) then Some((s[i..e], k + |suffix|)) else None
  }

  /** A trail match at `i` is a maximal run of digits from `i`, then only whitespace, then
      the suffix, and it captures the digits. */
  lemma MatchTrailMeaning(s: string, i: nat, suffix: string)
    requires i <= |s| && MatchTrail(s, i, suffix).Some?
    ensures var (c, e) := MatchTrail(s, i, suffix).value;
      var d := i + |c|;
      d + |suffix| <= e && c == s[i..d] && (d == |s| || !IsDigit(s[d]))
      && (forall k :: d <= k < e - |suffix| ==> IsSpace(s[k]))
      && OccursAt(s, suffix, e - |suffix|)
  {
  }

  /** `re.findall(r'(\d+)\s*' + suffix, s[i..])`. */
  function FindAllTrail(s: string, suffix: string, i: nat): (r: seq<string>)
    requires i <= |s|
    ensures forall c :: c in r ==> |c| > 0 && forall k :: 0 <= k < |c| ==> IsDigit(c[k])
    decreases |s| - i
  {
    if i == |s| then []
    else
      match MatchTrail(s, i, suffix)
      case Some((c, e)) => [c] + FindAllTrail(s, suffix, e)
      case None => FindAllTrail(s, suffix, i + 1)
  }

  /** A fixed shape: `'d'` stands for `\d` and every other character for itself, so
      `"dddd-dd-dd"` is `\d{4}-\d{2}-\d{2}`. */
  predicate ShapeAt(s: string, i: nat, shape: string) {
    i + |shape| <= |s|
    && forall k :: 0 <= k < |shape| ==> if shape[k] == 'd' then IsDigit(s[i + k]) else s[i + k] == shape[k]
  }

  /** `re.findall(shape, s[i..])` for a fixed shape with no group: the matched texts. */
  function FindAllShape(s: string, shape: string, i: nat): (r: seq<string>)
    requires i <= |s| && |shape| > 0
    ensures forall m :: m in r ==> |m| == |shape|
    decreases |s| - i
  {
    if i == |s| then []
    else if ShapeAt(s, i, shape) then [s[i..i + |shape|]] + FindAllShape(s, shape, i + |shape|)
    else FindAllShape(s, shape, i + 1)
  }

  /** A lead match at `i` is found: `findall` reports its capture when it reaches `i`. */
  lemma {:induction false} FindAllLeadReports(s: string, p: Lead, i: nat)
    requires i < |s| && MatchLead(s, i, p).Some?
    ensures FindAllLead(s, p, i) == [MatchLead(s, i, p).value.0] + FindAllLead(s, p, MatchLead(s, i, p).value.1)
  {
  }

  /** No lead match starts anywhere in `s[i..]` exactly when `findall` finds nothing there. */
  lemma {:induction false} FindAllLeadEmpty(s: string, p: Lead, i: nat)
    requires i <= |s|
    ensures FindAllLead(s, p, i) == [] <==> forall j :: i <= j < |s| ==> MatchLead(s, j, p).None?
    decreases |s| - i
  {
    if i < |s| {
      FindAllLeadEmpty(s, p, i + 1);
      var m := MatchLead(s, i, p);
      if m.None? {
        assert FindAllLead(s, p, i) == FindAllLead(s, p, i + 1);
        assert (forall j :: i <= j < |s| ==> MatchLead(s, j, p).None?)
          <==> (forall j :: i + 1 <= j < |s| ==> MatchLead(s, j, p).None?);
      } else {
        FindAllLeadReports(s, p, i);
        assert FindAllLead(s, p, i) != [];
      }
    }
  }

  /** A trail match at `i` is found: `findall` reports its digits and resumes after the
      suffix. */
  lemma {:induction false} FindAllTrailReports(s: string, suffix: string, i: nat)
    requires i < |s| && MatchTrail(s, i, suffix).Some?
    ensures FindAllTrail(s, suffix, i)
      == [MatchTrail(s, i, suffix).value.0] + FindAllTrail(s, suffix, MatchTrail(s, i, suffix).value.1)
  {
  }

  /** Every number `findall` reports heads a trail match that starts in `s[i..]`. */
  lemma {:induction false} FindAllTrailFrom(s: string, suffix: string, i: nat)
    requires i <= |s|
    ensures forall c :: c in FindAllTrail(s, suffix, i) ==>
      exists a :: i <= a < |s| && MatchTrail(s, a, suffix).Some? && MatchTrail(s, a, suffix).value.0 == c
    decreases |s| - i
  {
    if i < |s| {
      var m := MatchTrail(s, i, suffix);
      if m.Some? {
        FindAllTrailFrom(s, suffix, m.value.1);
        assert FindAllTrail(s, suffix, i) == [m.value.0] + FindAllTrail(s, suffix, m.value.1);
      } else {
        FindAllTrailFrom(s, suffix, i + 1);
        assert FindAllTrail(s, suffix, i) == FindAllTrail(s, suffix, i + 1);
      }
    }
  }

  /** No trail match starts anywhere in `s[i..]` exactly when `findall` finds nothing there. */
  lemma {:induction false} FindAllTrailEmpty(s: string, suffix: string, i: nat)
    requires i <= |s|
    ensures FindAllTrail(s, suffix, i) == [] <==> forall j :: i <= j < |s| ==> MatchTrail(s, j, suffix).None?
    decreases |s| - i
  {
    if i < |s| {
      FindAllTrailEmpty(s, suffix, i + 1);
      var m := MatchTrail(s, i, suffix);
      if m.None? {
        assert FindAllTrail(s, suffix, i) == FindAllTrail(s, suffix, i + 1);
        assert (forall j :: i <= j < |s| ==> MatchTrail(s, j, suffix).None?)
          <==> (forall j :: i + 1 <= j < |s| ==> MatchTrail(s, j, suffix).None?);
      } else {
        FindAllTrailReports(s, suffix, i);
        assert FindAllTrail(s, suffix, i) != [];
      }
    }
  }

  /** A shape match at `i` is found: `findall` reports the matched text and resumes after it. */
  lemma {:induction false} FindAllShapeReports(s: string, shape: string, i: nat)
    requires |shape| > 0 && ShapeAt(s, i, shape)
    ensures FindAllShape(s, shape, i) == [s[i..i + |shape|]] + FindAllShape(s, shape, i + |shape|)
  {
  }

  /** Every text `findall` reports is an occurrence of the shape in `s[i..]`. */
  lemma {:induction false} FindAllShapeFrom(s: string, shape: string, i: nat)
    requires i <= |s| && |shape| > 0
    ensures forall m :: m in FindAllShape(s, shape, i) ==>
      exists a :: i <= a && ShapeAt(s, a, shape) && OccursAt(s, m, a)
    decreases |s| - i
  {
    if i < |s| {
      if ShapeAt(s, i, shape) {
        FindAllShapeFrom(s, shape, i + |shape|);
        assert OccursAt(s, s[i..i + |shape|], i);
        assert FindAllShape(s, shape, i) == [s[i..i + |shape|]] + FindAllShape(s, shape, i + |shape|);
      } else {
        FindAllShapeFrom(s, shape, i + 1);
        assert FindAllShape(s, shape, i) == FindAllShape(s, shape, i + 1);
      }
    }
  }

  /** The shape occurs nowhere in `s[i..]` exactly when `findall` finds nothing there. */
  lemma {:induction false} FindAllShapeEmpty(s: string, shape: string, i: nat)
    requires i <= |s| && |shape| > 0
    ensures FindAllShape(s, shape, i) == [] <==> forall j :: i <= j < |s| ==> !ShapeAt(s, j, shape)
    decreases |s| - i
  {
    if i < |s| {
      FindAllShapeEmpty(s, shape, i + 1);
      if !ShapeAt(s, i, shape) {
        assert FindAllShape(s, shape, i) == FindAllShape(s, shape, i + 1);
        assert (forall j :: i <= j < |s| ==> !ShapeAt(s, j, shape))
          <==> (forall j :: i + 1 <= j < |s| ==> !ShapeAt(s, j, shape));
      } else {
        FindAllShapeReports(s, shape, i);
        assert FindAllShape(s, shape, i) != [];
      }
    }
  }
}
