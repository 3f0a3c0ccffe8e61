/** The records the pages and services exchange with the backend, with the fields the code
    reads. */
module Domain {
  import opened Envelopes

  /** `Application["status"]`: an unordered label set, any status may follow any other. */
  datatype Status = Saved | Applied | Interview | Rejected | Offer

  /** The order of the status tabs and of the status dropdown (`STATUS_OPTIONS`). */
  const StatusOptions: seq<Status> := [Saved, Applied, Interview, Rejected, Offer]

  /** The tabs and the dropdown list every status, each once. */
  lemma StatusOptionsListEachOnce()
    ensures forall s: Status :: s in StatusOptions
    ensures forall i, j :: 0 <= i < j < |StatusOptions| ==> StatusOptions[i] != StatusOptions[j]
  {
    forall s: Status
      ensures s in StatusOptions
    {
      match s
      case Saved => assert StatusOptions[0] == s;
      case Applied => assert StatusOptions[1] == s;
      case Interview => assert StatusOptions[2] == s;
      case Rejected => assert StatusOptions[3] == s;
      case Offer => assert StatusOptions[4] == s;
    }
  }

  /** The status as it travels on the wire and as the pages hold it. */
  function StatusName(s: Status): string {
    match s
    case Saved => "SAVED"
    case Applied => "APPLIED"
    case Interview => "INTERVIEW"
    case Rejected => "REJECTED"
    case Offer => "OFFER"
  }

  datatype Application = Application(
    id: string,
    jobId: string,
    jobTitle: string,
    company: string,
    jobUrl: string,
    resumeId: string,
    matchScore: int,
    matchSummary: string,
    status: Status,
    appliedAt: Option<string>,
    createdAt: string,
    updatedAt: Option<string>)

  datatype ApplicationStats = ApplicationStats(
    totalApplications: int,
    interviews: int,
    avgMatchScore: int,
    thisWeek: int)

  /** The body of `POST /applications`. */
  datatype CreateApplicationInput = CreateApplicationInput(
    jobId: string,
    jobTitle: string,
    company: string,
    jobUrl: string,
    resumeId: string)

  /** A job as the jobs page reads it (the `Job` interface of the jobs service declares a
      different set of fields). */
  datatype Job = Job(
    id: string,
    title: string,
    company: string,
    location: Option<string>,
    description: string,
    applyUrl: string,
    createdAt: string,
    matchScore: Option<int>)

  datatype Experience = Experience(company: string, position: string, duration: string)

  datatype Resume = Resume(
    id: string,
    name: string,
    email: string,
    text: string,
    skills: seq<string>,
    experience: seq<Experience>,
    createdAt: string,
    updatedAt: string)

  /** The search form and the active search: an absent field is `None`. */
  datatype JobFilters = JobFilters(
    keyword: Option<string>,
    location: Option<string>,
    company: Option<string>)

  datatype SkillsMatch = SkillsMatch(matched: seq<string>, missing: seq<string>, matchPercentage: int)

  datatype KeywordsAnalysis = KeywordsAnalysis(found: seq<string>, required: seq<string>, matchPercentage: int)

  datatype JobMatchAnalysis = JobMatchAnalysis(
    overallScore: int,
    matchSummary: string,
    skillsMatch: SkillsMatch,
    keywordsAnalysis: KeywordsAnalysis,
    recommendations: seq<string>)

  datatype User = User(id: string, name: string, email: string)

  datatype AuthData = AuthData(accessToken: string, refreshToken: string, user: User)
}
