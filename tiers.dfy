/** The four score tiers that every score display on the pages uses, with inclusive lower
    bounds 85, 70 and 50, and the text colour each tier is drawn in. */
module Tiers {

  datatype Tier = Excellent | Good | Fair | Poor

  function TierOf(score: int): (t: Tier)
    ensures t == Excellent <==> score >= 85
    ensures t == Good <==> 70 <= score < 85
    ensures t == Fair <==> 50 <= score < 70
    ensures t == Poor <==> score < 50
  {
    if score >= 85 then Excellent
    else if score >= 70 then Good
    else if score >= 50 then Fair
    else Poor
  }

  function Rank(t: Tier): nat {
    match t
    case Poor => 0
    case Fair => 1
    case Good => 2
    case Excellent => 3
  }

  /** A higher score never lands in a lower tier. */
  lemma TierMonotone(a: int, b: int)
    requires a <= b
    ensures Rank(TierOf(a)) <= Rank(TierOf(b))
  {
  }

  /** The text colour class of a tier, shared by every page that shows a score. */
  function TierTextClass(t: Tier): string {
    match t
    case Excellent => "text-emerald-400"
    case Good => "text-violet-400"
    case Fair => "text-amber-400"
    case Poor => "text-red-400"
  }

  /** The score colour every page uses (`getMatchScoreColor` on the applications and jobs
      pages, `getScoreColor` on the analyze page): the colour of the score's tier. */
  function ScoreTextColour(score: int): (c: string)
    ensures c == TierTextClass(TierOf(score))
  {
    if score >= 85 then "text-emerald-400"
    else if score >= 70 then "text-violet-400"
    else if score >= 50 then "text-amber-400"
    else "text-red-400"
  }

  /** Distinct tiers are drawn in distinct colours. */
  lemma TierTextClassInjective(a: Tier, b: Tier)
    requires TierTextClass(a) == TierTextClass(b)
    ensures a == b
  {
    assert TierTextClass(a)[5] == TierTextClass(b)[5];
  }
}
