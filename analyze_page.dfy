/** The analyze page: admission of a pasted job description, the analysis request, and how
    the result's scores and keywords are coloured. */
module Analyze {
  import opened Envelopes
  import opened Text
  import opened Domain
  import opened Tiers

  /** The progress-bar gradient of each tier. */
  function TierGradient(t: Tier): string {
    match t
    case Excellent => "from-emerald-500 to-emerald-400"
    case Good => "from-violet-500 to-fuchsia-400"
    case Fair => "from-amber-500 to-amber-400"
    case Poor => "from-red-500 to-red-400"
  }

  /** `getScoreGradient`, used for the skills and keywords bars. */
  function ScoreGradient(score: int): (g: string)
    ensures g == TierGradient(TierOf(score))
  {
    if score >= 85 then "from-emerald-500 to-emerald-400"
    else if score >= 70 then "from-violet-500 to-fuchsia-400"
    else if score >= 50 then "from-amber-500 to-amber-400"
    else "from-red-500 to-red-400"
  }

  /** The score ring has only three bands. */
  datatype RingBand = VioletRing | AmberRing | RedRing

  function RingBandOf(score: int): (b: RingBand)
    ensures b == VioletRing <==> score >= 70
    ensures b == AmberRing <==> 50 <= score < 70
    ensures b == RedRing <==> score < 50
  {
    if score >= 70 then VioletRing else if score >= 50 then AmberRing else RedRing
  }

  function RingColours(b: RingBand): (string, string) {
    match b
    case VioletRing => ("#8b5cf6", "#d946ef")
    case AmberRing => ("#f59e0b", "#f59e0b")
    case RedRing => ("#ef4444", "#ef4444")
  }

  /** The two gradient stops of the ring around the overall score. */
  function RingStops(score: int): (stops: (string, string))
    ensures stops == RingColours(RingBandOf(score))
  {
    (if score >= 70 then "#8b5cf6" else if score >= 50 then "#f59e0b" else "#ef4444",
     if score >= 70 then "#d946ef" else if score >= 50 then "#f59e0b" else "#ef4444")
  }

  /** The ring is coarser than the tiers: scores in one tier share a ring, and the top two
      tiers share the violet ring although their score text differs. */
  lemma RingCoarserThanTier(a: int, b: int)
    ensures TierOf(a) == TierOf(b) ==> RingStops(a) == RingStops(b)
    ensures RingStops(85) == RingStops(70) && ScoreTextColour(85) != ScoreTextColour(70)
  {
  }

  const GreenBadge: string := "bg-emerald-500/10 text-emerald-400 border-emerald-500/20"
  const AmberBadge: string := "bg-amber-500/10 text-amber-400 border-amber-500/20"

  /** A summary badge is green exactly when the value it tests is at least 70. */
  function SummaryBadge(value: int): (c: string)
    ensures c == GreenBadge <==> value >= 70
    ensures c != GreenBadge ==> c == AmberBadge
  {
    if value >= 70 then GreenBadge else AmberBadge
  }

  /** The "Skills Match" badge: it shows the skills percentage but tests the overall
      score. */
  function SkillsBadge(a: JobMatchAnalysis): (c: string)
    ensures c == GreenBadge <==> a.overallScore >= 70
  {
    SummaryBadge(a.overallScore)
  }

  /** The "Keywords Match" badge: it tests the keywords percentage it shows. */
  function KeywordsBadge(a: JobMatchAnalysis): (c: string)
    ensures c == GreenBadge <==> a.keywordsAnalysis.matchPercentage >= 70
  {
    SummaryBadge(a.keywordsAnalysis.matchPercentage)
  }

  /** The skills badge does not depend on the skills percentage: a 10% skills match is shown
      green when the overall score is 90, and a 100% match amber when it is 40. */
  lemma SkillsBadgeIgnoresSkillsPercentage(a: JobMatchAnalysis, p: int)
    ensures SkillsBadge(a.(skillsMatch := a.skillsMatch.(matchPercentage := p))) == SkillsBadge(a)
    ensures a.overallScore == 90 && a.skillsMatch.matchPercentage == 10 ==> SkillsBadge(a) == GreenBadge
    ensures a.overallScore == 40 && a.skillsMatch.matchPercentage == 100 ==> SkillsBadge(a) != GreenBadge
  {
  }

  /** For each required keyword, whether its badge is highlighted:
      `found.includes(keyword)`, exact and case-sensitive. */
  function KeywordHighlights(found: seq<string>, required: seq<string>): (r: seq<bool>)
    ensures |r| == |required|
    ensures forall i :: 0 <= i < |required| ==> (r[i] <==> required[i] in found)
  {
    if required == [] then [] else [required[0] in found] + KeywordHighlights(found, required[1..])
  }

  /** Matching is case-sensitive: "React" is not highlighted by a found "react". */
  lemma HighlightIsCaseSensitive()
    ensures KeywordHighlights(["react"], ["React"]) == [false]
  {
    var r := KeywordHighlights(["react"], ["React"]);
    assert "React"[0] != "react"[0];
    assert r[0] == false;
  }

  /** The outcome of `handleAnalyze`'s two checks. */
  datatype Admission = Blank | TooShort | Admitted

  /** Blank after trimming comes first; the length test then counts the untrimmed text. */
  function AdmissionOf(description: string): (a: Admission)
    ensures a == Blank <==> AllSpace(description)
    ensures a == TooShort <==> !AllSpace(description) && |description| < 50
    ensures a == Admitted <==> !AllSpace(description) && |description| >= 50
  {
    if Trim(description) == "" then Blank
    else if |description| < 50 then TooShort
    else Admitted
  }

  function AdmissionMessage(a: Admission): string {
    match a
    case Blank => "Please paste a job description"
    case TooShort => "Job description is too short. Please provide more details."
    case Admitted => ""
  }

  /** Whitespace counts towards the 50 characters: one letter padded with 49 spaces is
      admitted although it trims to a single character. */
  lemma PaddingCountsTowardsLength()
    ensures var d := "x" + seq(49, _ => ' ');
      AdmissionOf(d) == Admitted && Trim(d) == "x"
  {
    var d := "x" + seq(49, _ => ' ');
    assert !IsSpace(d[0]);
    var t := Trim(d);
    assert LeadingSpaces(d) == 0;
    assert t != [];
    assert t == d[..1];
  }

  /** The analyze button is enabled only when idle and the text is not blank. */
  predicate AnalyzeEnabled(isAnalyzing: bool, description: string) {
    !isAnalyzing && Trim(description) != ""
  }

  /** The button is enabled exactly when idle with a text that is not blank, so a press of
      the button never reaches the "paste a job description" branch; a too-short text can
      still be sent to it. */
  lemma EnabledButtonSkipsBlank(isAnalyzing: bool, description: string)
    ensures AnalyzeEnabled(isAnalyzing, description) <==> !isAnalyzing && AdmissionOf(description) != Blank
    ensures AnalyzeEnabled(false, "x") && AdmissionOf("x") == TooShort
  {
    assert !IsSpace("x"[0]);
  }

  class AnalyzePage {
    var resume: Option<Resume>
    var jobDescription: string
    var analysis: Option<JobMatchAnalysis>
    var isLoading: bool
    var isAnalyzing: bool
    var error: string

    /** The result view and the analyzing spinner are never shown together. */
    predicate Valid()
      reads this
    {
      analysis.Some? ==> !isAnalyzing
    }

    constructor()
      ensures Valid()
      ensures resume == None && jobDescription == "" && analysis == None
      ensures isLoading && !isAnalyzing && error == ""
    {
      resume := None;
      jobDescription := "";
      analysis := None;
      isLoading := true;
      isAnalyzing := false;
      error := "";
    }

    /** `fetchResume` up to its await. */
    method BeginFetchResume()
      modifies this
      ensures isLoading
      ensures resume == old(resume) && jobDescription == old(jobDescription) && analysis == old(analysis)
      ensures isAnalyzing == old(isAnalyzing) && error == old(error)
    {
      isLoading := true;
    }

    /** `fetchResume` after `getResume` settles; a throw is only logged. */
    method FinishFetchResume(res: Outcome<Resume>)
      modifies this
      ensures resume == if Succeeded(res) then Some(res.envelope.data.value) else old(resume)
      ensures !isLoading
      ensures jobDescription == old(jobDescription) && analysis == old(analysis)
      ensures isAnalyzing == old(isAnalyzing) && error == old(error)
    {
      if Succeeded(res) {
        resume := Some(res.envelope.data.value);
      }
      isLoading := false;
    }

    /** Typing in the description box. */
    method EditDescription(text: string)
      modifies this
      ensures jobDescription == text
      ensures resume == old(resume) && analysis == old(analysis) && isLoading == old(isLoading)
      ensures isAnalyzing == old(isAnalyzing) && error == old(error)
    {
      jobDescription := text;
    }

    /** `handleAnalyze` up to its await. A rejected description sets its message and leaves
        everything else, the previous result included; an admitted one clears the error and
        the previous result and starts the call (`calls`). */
    method BeginAnalyze() returns (calls: bool)
      requires Valid()
      modifies this
      ensures Valid()
      ensures calls <==> AdmissionOf(jobDescription) == Admitted
      ensures !calls ==> error == AdmissionMessage(AdmissionOf(jobDescription))
                         && analysis == old(analysis) && isAnalyzing == old(isAnalyzing)
      ensures calls ==> isAnalyzing && error == "" && analysis == None
      ensures resume == old(resume) && jobDescription == old(jobDescription) && isLoading == old(isLoading)
    {
      var admission := AdmissionOf(jobDescription);
      if admission != Admitted {
        error := AdmissionMessage(admission);
        calls := false;
      } else {
        isAnalyzing := true;
        error := "";
        analysis := None;
        calls := true;
      }
    }

    /** `handleAnalyze` after `analyzeJobMatch` settles. */
    method FinishAnalyze(res: Outcome<JobMatchAnalysis>)
      modifies this
      ensures Valid()
      ensures Succeeded(res) ==> analysis == Some(res.envelope.data.value) && error == old(error)
      ensures res.Returned? && !HasData(res.envelope) ==>
        analysis == old(analysis) && error == MessageOr(res.envelope, "Failed to analyze job match")
      ensures res.Threw? ==> analysis == old(analysis) && error == "Failed to analyze job match"
      ensures !isAnalyzing
      ensures resume == old(resume) && jobDescription == old(jobDescription) && isLoading == old(isLoading)
    {
      if res.Threw? {
        error := "Failed to analyze job match";
      } else if HasData(res.envelope) {
        analysis := Some(res.envelope.data.value);
      } else {
        error := MessageOr(res.envelope, "Failed to analyze job match");
      }
      isAnalyzing := false;
    }
  }

  /** One press of the analyze button with nothing in between: when the call is made, the
      page ends idle, showing the new result or no result at all. */
  method AnalyzeRound(page: AnalyzePage, res: Outcome<JobMatchAnalysis>) returns (calls: bool)
    requires page.Valid()
    modifies page
    ensures page.Valid()
    ensures calls <==> AdmissionOf(page.jobDescription) == Admitted
    ensures calls ==> !page.isAnalyzing
    ensures calls ==> page.analysis == if Succeeded(res) then Some(res.envelope.data.value) else None
    ensures !calls ==> page.analysis == old(page.analysis)
  {
    calls := page.BeginAnalyze();
    if calls {
      page.FinishAnalyze(res);
    }
  }
}
