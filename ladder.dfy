/** The efficacy decision ladder both engines apply to every (drug class,
    mutation) pair; each engine passes its own class tables. First match wins:
    (a) the detail occurs in an `effective_against` pattern: rate by score;
    (b) it occurs in a `resistant_mutations` pattern: Low;
    (c) it is all digits and the class is the antibody class: High from 4 up,
        Medium below;
    (d) otherwise Medium. */
module Ladder {
  import opened Text
  import opened Records

  /** Python `any(detail in p for p in patterns)`: the detail is a substring
      of some pattern (and not the other way round). */
  predicate MatchesAny(detail: string, patterns: seq<string>)
  {
    |patterns| > 0 && (Contains(detail, patterns[0]) || MatchesAny(detail, patterns[1..]))
  }

  lemma {:induction false} MatchesAnyIff(detail: string, patterns: seq<string>)
    ensures MatchesAny(detail, patterns) <==> exists k :: 0 <= k < |patterns| && Contains(detail, patterns[k])
  {
    if |patterns| > 0 {
      MatchesAnyIff(detail, patterns[1..]);
      assert forall k :: 1 <= k < |patterns| ==> patterns[k] == patterns[1..][k - 1];
    }
  }

  /** Rule (a): a lower resistance score means a more effective drug. */
  function ScoreEfficacy(score: int): Efficacy
  {
    if score < 30 then High else if score < 60 then Medium else Low
  }

  /** The ladder. `antibodyClass` is whether the class is the engine's
      monoclonal-antibody class. Each outcome is stated as an if-and-only-if,
      and "None" is never an outcome. */
  function Assess(detail: string, score: int, effective: seq<string>, resistant: seq<string>,
                  antibodyClass: bool): (e: Efficacy)
    ensures e != Unrated
    ensures e == High <==>
              (MatchesAny(detail, effective) && score < 30)
              || (!MatchesAny(detail, effective) && !MatchesAny(detail, resistant)
                  && antibodyClass && IsDigits(detail) && DigitsValue(detail) >= 4)
    ensures e == Low <==>
              (MatchesAny(detail, effective) && score >= 60)
              || (!MatchesAny(detail, effective) && MatchesAny(detail, resistant))
    ensures e == Medium <==> e != High && e != Low
  {
    if MatchesAny(detail, effective) then ScoreEfficacy(score)
    else if MatchesAny(detail, resistant) then Low
    else if IsDigits(detail) && antibodyClass then
      (if DigitsValue(detail) >= 4 then High else Medium)
    else Medium
  }

  /** On an effective-against hit, efficacy never drops as the score drops:
      Low from 0.6 up, Medium on [0.3, 0.6), High below 0.3. */
  lemma ScoreEfficacyMonotone(lower: int, higher: int)
    requires lower <= higher
    ensures Strength(ScoreEfficacy(lower)) >= Strength(ScoreEfficacy(higher))
    ensures ScoreEfficacy(higher) == High ==> ScoreEfficacy(lower) == High
    ensures ScoreEfficacy(lower) == Low ==> ScoreEfficacy(higher) == Low
  {
  }

  /** The empty detail is a substring of every pattern, so it always takes
      rule (a) when the class has any effective-against pattern. */
  lemma {:induction false} EmptyDetailIsEffective(score: int, effective: seq<string>, resistant: seq<string>,
                                                  antibodyClass: bool)
    requires |effective| > 0
    ensures Assess("", score, effective, resistant, antibodyClass) == ScoreEfficacy(score)
  {
    ContainsAt("", effective[0], 0);
  }
}
