/**
 * The information value as Python computes it, in IEEE 754 binary64 arithmetic: each
 * literal is the nearest double to its decimal value and each `+=` rounds its sum to the
 * nearest double (ties to even). The sums here stay between 1/16 and 2, so only the five
 * binades in that range are modelled.
 *
 * This shows how the `value_score > 0.3` bar of `_intelligent_context_filter` behaves as
 * written: 0.2 + 0.1 and 0.1 + 0.2 both round to 0.30000000000000004, which clears the bar,
 * so a DEBUG log with only the length bonus, and a log of any other level with only
 * services, are kept, although their values add up to exactly 0.3.
 */
module Binary64 {
  import opened LogEntities

  /** The spacing of doubles in the binade of `x`, for 1/16 <= x < 2: 2^(e - 52) when
      2^e <= x < 2^(e + 1). */
  function Ulp(x: real): (u: real)
    ensures u > 0.0
  {
    if x >= 1.0 then 1.0 / 4503599627370496.0
    else if x >= 0.5 then 1.0 / 9007199254740992.0
    else if x >= 0.25 then 1.0 / 18014398509481984.0
    else if x >= 0.125 then 1.0 / 36028797018963968.0
    else 1.0 / 72057594037927936.0
  }

  /** Round to nearest, ties to even, at the spacing `u`. */
  function RoundAt(x: real, u: real): (r: real)
    requires u > 0.0
    ensures r - x <= u / 2.0 && x - r <= u / 2.0
  {
    var q := x / u;
    var n := q.Floor;
    var f := q - n as real;
    var m := if f < 0.5 then n else if f > 0.5 then n + 1 else if n % 2 == 0 then n else n + 1;
    var d := m as real - q;
    assert -0.5 <= d <= 0.5;
    ScaledBound(d, u);
    assert q * u == x;
    var r := m as real * u;
    assert r - x == d * u;
    assert -(u / 2.0) <= d * u;
    assert x - r <= u / 2.0;
    r
  }

  lemma ScaledBound(d: real, u: real)
    requires -0.5 <= d <= 0.5 && u > 0.0
    ensures -(u / 2.0) <= d * u <= u / 2.0
  {
    if d >= 0.0 {
      assert d * u <= 0.5 * u;
    } else {
      assert (-d) * u <= 0.5 * u;
    }
  }

  /** The double nearest to `x` (ties to even); `x` itself outside [1/16, 2), which no sum
      of the information value leaves. */
  function RoundToDouble(x: real): (r: real)
    ensures 0.0625 <= x < 2.0 ==> r - x <= Ulp(x) / 2.0 && x - r <= Ulp(x) / 2.0
  {
    if 0.0625 <= x < 2.0 then RoundAt(x, Ulp(x)) else x
  }

  /** The doubles nearest to the decimal literals of `_calculate_information_value`. */
  const D01: real := 3602879701896397.0 / 36028797018963968.0
  const D02: real := 3602879701896397.0 / 18014398509481984.0
  const D03: real := 5404319552844595.0 / 18014398509481984.0
  const D04: real := 3602879701896397.0 / 9007199254740992.0
  const D06: real := 5404319552844595.0 / 9007199254740992.0
  const D08: real := 3602879701896397.0 / 4503599627370496.0

  /** Each constant is what Python reads for its literal. */
  lemma LiteralsAreNearestDoubles()
    ensures RoundToDouble(0.1) == D01 && RoundToDouble(0.2) == D02 && RoundToDouble(0.3) == D03
    ensures RoundToDouble(0.4) == D04 && RoundToDouble(0.6) == D06 && RoundToDouble(0.8) == D08
  {
    assert 0.1 / Ulp(0.1) == 7205759403792793.6;
    assert 0.2 / Ulp(0.2) == 7205759403792793.6;
    assert 0.3 / Ulp(0.3) == 5404319552844595.2;
    assert 0.4 / Ulp(0.4) == 7205759403792793.6;
    assert 0.6 / Ulp(0.6) == 5404319552844595.2;
    assert 0.8 / Ulp(0.8) == 7205759403792793.6;
  }

  /** The double weight of a level: the literal of `level_weights`, or the default 0.1. */
  function DoubleLevelWeight(level: string): (w: real)
    ensures LevelWeight(level) == 1.0 ==> w == 1.0
  {
    if level == "FATAL" then 1.0
    else if level == "ERROR" then D08
    else if level == "WARN" then D06
    else if level == "INFO" then D04
    else if level == "DEBUG" then D02
    else D01
  }

  /** `_calculate_information_value` as Python evaluates it: every `+=` rounds. */
  function InformationValueAsWritten(content: string, level: string, codes: seq<string>, services: seq<string>): real {
    var v0 := DoubleLevelWeight(level);
    var v1 := if codes != [] then RoundToDouble(v0 + D03) else v0;
    var v2 := if services != [] then RoundToDouble(v1 + D02) else v1;
    var v3 := if LengthBonus(content) then RoundToDouble(v2 + D01) else v2;
    if v3 <= 1.0 then v3 else 1.0
  }

  /** The two sums of 0.1 and 0.2 that Python computes. */
  lemma TenthPlusFifth()
    ensures RoundToDouble(D02 + D01) == 5404319552844596.0 / 18014398509481984.0
    ensures RoundToDouble(D01 + D02) == 5404319552844596.0 / 18014398509481984.0
  {
    var x := D02 + D01;
    assert 0.25 <= x < 0.5;
    assert x / Ulp(x) == 5404319552844595.5;
  }

  /** A DEBUG log of 50 to 500 characters without error codes or services clears the bar as
      written, though its value is exactly 0.3 and the bar asks for more. */
  lemma DebugWithLengthBonusPasses(content: string)
    requires LengthBonus(content)
    ensures InformationValueAsWritten(content, "DEBUG", [], []) > D03
    ensures InformationValue(content, "DEBUG", [], []) == 0.3
  {
    TenthPlusFifth();
  }

  /** A log of no weighted level, with services and no error codes nor length bonus, clears
      the bar as written, though its value is exactly 0.3. */
  lemma ServicesOnlyPasses(content: string, services: seq<string>)
    requires services != [] && !LengthBonus(content)
    ensures InformationValueAsWritten(content, Unknown, [], services) > D03
    ensures InformationValue(content, Unknown, [], services) == 0.3
  {
    TenthPlusFifth();
  }
}
