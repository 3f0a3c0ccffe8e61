/** The jobs page: the initial list, search, client-side pagination and applying to a job. */
module Jobs {
  import opened Envelopes
  import opened Text
  import opened Domain
  import opened Tiers
  import ApplicationsService

  /** `JOBS_PER_PAGE`. */
  const JobsPerPage: nat := 10

  /** The badge background of each tier. */
  function TierBackground(t: Tier): string {
    match t
    case Excellent => "bg-emerald-500/10 border-emerald-500/20"
    case Good => "bg-violet-500/10 border-violet-500/20"
    case Fair => "bg-amber-500/10 border-amber-500/20"
    case Poor => "bg-red-500/10 border-red-500/20"
  }

  /** `getMatchScoreBg`: the background of the score's tier. */
  function MatchScoreBg(score: int): (c: string)
    ensures c == TierBackground(TierOf(score))
  {
    if score >= 85 then "bg-emerald-500/10 border-emerald-500/20"
    else if score >= 70 then "bg-violet-500/10 border-violet-500/20"
    else if score >= 50 then "bg-amber-500/10 border-amber-500/20"
    else "bg-red-500/10 border-red-500/20"
  }

  /** Text colour and background are chosen by the same tiers: two scores share a text
      colour exactly when they share a background. */
  lemma ColourAndBackgroundAgree(a: int, b: int)
    ensures ScoreTextColour(a) == ScoreTextColour(b) <==> MatchScoreBg(a) == MatchScoreBg(b)
  {
    if ScoreTextColour(a) == ScoreTextColour(b) {
      TierTextClassInjective(TierOf(a), TierOf(b));
    }
    if MatchScoreBg(a) == MatchScoreBg(b) {
      assert MatchScoreBg(a)[3..6] == MatchScoreBg(b)[3..6];
    }
  }

  /** The match badge of a job card, as its background and text classes; `None`: no badge. */
  function MatchBadge(resume: Option<Resume>, job: Job): (badge: Option<(string, string)>)
    ensures badge.Some? <==> resume.Some? && job.matchScore.Some?
    ensures badge.Some? ==>
      badge.value == (TierBackground(TierOf(job.matchScore.value)), TierTextClass(TierOf(job.matchScore.value)))
  {
    if resume.Some? && job.matchScore.Some? then
      Some((MatchScoreBg(job.matchScore.value), ScoreTextColour(job.matchScore.value)))
    else None
  }

  /** Before a résumé is loaded no card shows a badge, and two scores in one tier get the
      same badge. */
  lemma MatchBadgeByTier(resume: Option<Resume>, j1: Job, j2: Job)
    ensures resume.None? ==> MatchBadge(resume, j1).None?
    ensures (resume.Some? && j1.matchScore.Some? && j2.matchScore.Some? &&
             TierOf(j1.matchScore.value) == TierOf(j2.matchScore.value)) ==>
      MatchBadge(resume, j1) == MatchBadge(resume, j2)
  {
  }

  /** One field of `handleSearch`'s filter: kept only if it is non-blank after trimming, and
      kept trimmed. */
  function SearchField(field: Option<string>): (r: Option<string>)
    ensures r.Some? <==> field.Some? && !AllSpace(field.value)
    ensures r.Some? ==> r.value == Trim(field.value)
  {
    if field.Some? && Trim(field.value) != "" then Some(Trim(field.value)) else None
  }

  /** A present field that a search would send unchanged: non-empty, no surrounding
      whitespace. */
  predicate CleanField(field: Option<string>) {
    field.Some? ==> field.value != [] && !IsSpace(field.value[0]) && !IsSpace(field.value[|field.value| - 1])
  }

  predicate Clean(f: JobFilters) {
    CleanField(f.keyword) && CleanField(f.location) && CleanField(f.company)
  }

  lemma SearchFieldFixesClean(field: Option<string>)
    ensures CleanField(SearchField(field))
    ensures CleanField(field) ==> SearchField(field) == field
  {
    if field.Some? && CleanField(field) {
      TrimOfTrimmed(field.value);
    }
  }

  /** The filters `handleSearch` builds from the form (and stores as the active filters). */
  function SearchFilters(form: JobFilters): (r: JobFilters)
    ensures r.keyword == SearchField(form.keyword)
    ensures r.location == SearchField(form.location)
    ensures r.company == SearchField(form.company)
  {
    JobFilters(SearchField(form.keyword), SearchField(form.location), SearchField(form.company))
  }

  /** Searches always send clean filters, clean filters are sent as they are, and so building
      the filters twice is the same as building them once. */
  lemma SearchFiltersClean(form: JobFilters)
    ensures Clean(SearchFilters(form))
    ensures Clean(form) ==> SearchFilters(form) == form
    ensures SearchFilters(SearchFilters(form)) == SearchFilters(form)
  {
    SearchFieldFixesClean(form.keyword);
    SearchFieldFixesClean(form.location);
    SearchFieldFixesClean(form.company);
    var r := SearchFilters(form);
    SearchFieldFixesClean(r.keyword);
    SearchFieldFixesClean(r.location);
    SearchFieldFixesClean(r.company);
  }

  /** `Object.keys(activeFilters).length > 0`. */
  predicate HasActiveFilters(f: JobFilters) {
    f.keyword.Some? || f.location.Some? || f.company.Some?
  }

  /** `displayedJobs = jobs.slice(0, displayCount)`. */
  function DisplayedJobs(jobs: seq<Job>, displayCount: nat): (r: seq<Job>)
    ensures |r| == if displayCount < |jobs| then displayCount else |jobs|
    ensures r == jobs[..|r|]
  {
    if displayCount < |jobs| then jobs[..displayCount] else jobs
  }

  /** `hasMore = displayCount < jobs.length`: some job is not displayed. */
  function HasMore(jobs: seq<Job>, displayCount: nat): (b: bool)
    ensures b <==> |DisplayedJobs(jobs, displayCount)| < |jobs|
    ensures !b ==> DisplayedJobs(jobs, displayCount) == jobs
  {
    displayCount < |jobs|
  }

  /** `jobs.length - displayCount`, shown on the load-more button. */
  function Remaining(jobs: seq<Job>, displayCount: nat): (n: int)
    ensures HasMore(jobs, displayCount) ==> n > 0 && n == |jobs| - |DisplayedJobs(jobs, displayCount)|
  {
    |jobs| - displayCount
  }

  /** Loading more only appends: the old window is a prefix of the new one, which is longer
      whenever more jobs were waiting. */
  lemma LoadMoreExtends(jobs: seq<Job>, displayCount: nat)
    ensures var before, after := DisplayedJobs(jobs, displayCount), DisplayedJobs(jobs, displayCount + JobsPerPage);
      && before == after[..|before|]
      && (HasMore(jobs, displayCount) ==> |after| > |before|)
  {
  }

  /** The `createApplication` input built from the job and the résumé at apply time. */
  function ApplyInput(job: Job, resume: Resume): (input: CreateApplicationInput)
    ensures input.jobId == job.id && input.jobTitle == job.title && input.company == job.company
    ensures input.jobUrl == job.applyUrl && input.resumeId == resume.id
  {
    CreateApplicationInput(job.id, job.title, job.company, job.applyUrl, resume.id)
  }

  /** The application is a snapshot of four job fields: jobs that agree on them give the same
      input whatever their other fields (description, location, score). */
  lemma SnapshotIgnoresOtherFields(j1: Job, j2: Job, resume: Resume)
    requires j1.id == j2.id && j1.title == j2.title && j1.company == j2.company && j1.applyUrl == j2.applyUrl
    ensures ApplyInput(j1, resume) == ApplyInput(j2, resume)
  {
  }

  /** What `fetchInitialData` does with its three answers: the résumé, the list to show
      (`None`: leave the list as it is), whether the load failed, and whether the matched
      list was requested at all. */
  datatype InitialLoad = InitialLoad(
    resume: Option<Resume>,
    jobs: Option<seq<Job>>,
    failed: bool,
    requestedMatched: bool)

  /** `fetchInitialData` after `Promise.all([getResume(), getJobs()])` and, when a résumé
      came back, `getMatchedJobs()`. A throw from any awaited call lands in the catch. */
  function InitialLoadOf(resumeRes: Outcome<Resume>, jobsRes: Outcome<seq<Job>>, matchedRes: Outcome<seq<Job>>): (r: InitialLoad)
    ensures r.requestedMatched <==> jobsRes.Returned? && Succeeded(resumeRes)
    ensures r.failed <==> resumeRes.Threw? || jobsRes.Threw? || (r.requestedMatched && matchedRes.Threw?)
    ensures r.failed ==> r.jobs.None?
    ensures r.resume.Some? <==> r.requestedMatched
    ensures r.resume.Some? ==> r.resume.value == resumeRes.envelope.data.value
    ensures r.jobs.Some? ==>
      || (r.requestedMatched && Succeeded(matchedRes) && r.jobs.value == matchedRes.envelope.data.value)
      || (Succeeded(jobsRes) && r.jobs.value == jobsRes.envelope.data.value)
    ensures r.requestedMatched && Succeeded(matchedRes) ==> r.jobs == Some(matchedRes.envelope.data.value)
    ensures !r.failed && !(r.requestedMatched && Succeeded(matchedRes)) && Succeeded(jobsRes) ==>
      r.jobs == Some(jobsRes.envelope.data.value)
  {
    if resumeRes.Threw? || jobsRes.Threw? then InitialLoad(None, None, true, false)
    else if HasData(resumeRes.envelope) then
      var resume := Some(resumeRes.envelope.data.value);
      if matchedRes.Threw? then InitialLoad(resume, None, true, true)
      else if HasData(matchedRes.envelope) then InitialLoad(resume, Some(matchedRes.envelope.data.value), false, true)
      else if HasData(jobsRes.envelope) then InitialLoad(resume, Some(jobsRes.envelope.data.value), false, true)
      else InitialLoad(resume, None, false, true)
    else if HasData(jobsRes.envelope) then InitialLoad(None, Some(jobsRes.envelope.data.value), false, false)
    else InitialLoad(None, None, false, false)
  }

  /** Without a résumé the matched list is never requested and the unranked list, if it
      came, is shown. */
  lemma NoResumeShowsUnranked(resumeRes: Outcome<Resume>, jobsRes: Outcome<seq<Job>>, matchedRes: Outcome<seq<Job>>)
    requires resumeRes.Returned? && !HasData(resumeRes.envelope) && Succeeded(jobsRes)
    ensures var r := InitialLoadOf(resumeRes, jobsRes, matchedRes);
      !r.requestedMatched && r.jobs == Some(jobsRes.envelope.data.value)
  {
  }

  /** A matched list that comes back as a failure envelope falls back to the unranked list;
      one whose request throws loses the unranked list too (the list is left as it was). */
  lemma MatchedFailureFallback(resumeRes: Outcome<Resume>, jobsRes: Outcome<seq<Job>>, matchedRes: Outcome<seq<Job>>)
    requires Succeeded(resumeRes) && Succeeded(jobsRes) && !Succeeded(matchedRes)
    ensures matchedRes.Returned? ==> InitialLoadOf(resumeRes, jobsRes, matchedRes).jobs == Some(jobsRes.envelope.data.value)
    ensures matchedRes.Threw? ==> InitialLoadOf(resumeRes, jobsRes, matchedRes).jobs == None
  {
  }

  class JobsPage {
    var jobs: seq<Job>
    var resume: Option<Resume>
    var isLoading: bool
    var isLoadingMore: bool
    var error: string
    var applyingJobId: Option<string>
    var appliedJobs: set<string>
    var showFilters: bool
    var displayCount: nat
    var filters: JobFilters
    var activeFilters: JobFilters

    /** The window always holds a whole number of pages, at least one. */
    predicate Valid()
      reads this
    {
      displayCount >= JobsPerPage && displayCount % JobsPerPage == 0
    }

    constructor()
      ensures Valid()
      ensures jobs == [] && resume == None && isLoading && !isLoadingMore && error == ""
      ensures applyingJobId == None && appliedJobs == {} && !showFilters && displayCount == JobsPerPage
      ensures filters == JobFilters(Some(""), Some(""), Some("")) && activeFilters == JobFilters(None, None, None)
    {
      jobs := [];
      resume := None;
      isLoading := true;
      isLoadingMore := false;
      error := "";
      applyingJobId := None;
      appliedJobs := {};
      showFilters := false;
      displayCount := JobsPerPage;
      filters := JobFilters(Some(""), Some(""), Some(""));
      activeFilters := JobFilters(None, None, None);
    }

    /** The cards on screen. */
    function Displayed(): (r: seq<Job>)
      reads this
      ensures r == DisplayedJobs(jobs, displayCount)
      ensures |r| == if displayCount < |jobs| then displayCount else |jobs|
      ensures r == jobs[..|r|]
    {
      DisplayedJobs(jobs, displayCount)
    }

    /** `fetchInitialData` up to its await. */
    method BeginInitialFetch()
      modifies this
      ensures isLoading && error == ""
      ensures jobs == old(jobs) && resume == old(resume) && isLoadingMore == old(isLoadingMore)
      ensures applyingJobId == old(applyingJobId) && appliedJobs == old(appliedJobs) && showFilters == old(showFilters)
      ensures displayCount == old(displayCount) && filters == old(filters) && activeFilters == old(activeFilters)
    {
      isLoading := true;
      error := "";
    }

    /** `fetchInitialData` once its calls have settled; `matchedRes` is what
        `getMatchedJobs` gives if it is called, and `requestedMatched` says whether it was. */
    method FinishInitialFetch(resumeRes: Outcome<Resume>, jobsRes: Outcome<seq<Job>>, matchedRes: Outcome<seq<Job>>)
      returns (requestedMatched: bool)
      requires Valid()
      modifies this
      ensures Valid()
      ensures var r := InitialLoadOf(resumeRes, jobsRes, matchedRes);
        && requestedMatched == r.requestedMatched
        && resume == (if r.resume.Some? then r.resume else old(resume))
        && jobs == (if r.jobs.Some? then r.jobs.value else old(jobs))
        && error == (if r.failed then "Failed to load jobs" else old(error))
      ensures !isLoading
      ensures isLoadingMore == old(isLoadingMore) && applyingJobId == old(applyingJobId)
      ensures appliedJobs == old(appliedJobs) && showFilters == old(showFilters)
      ensures displayCount == old(displayCount) && filters == old(filters) && activeFilters == old(activeFilters)
    {
      requestedMatched := false;
      if resumeRes.Threw? || jobsRes.Threw? {
        error := "Failed to load jobs";
      } else if HasData(resumeRes.envelope) {
        resume := Some(resumeRes.envelope.data.value);
        requestedMatched := true;
        if matchedRes.Threw? {
          error := "Failed to load jobs";
        } else if HasData(matchedRes.envelope) {
          jobs := matchedRes.envelope.data.value;
        } else if HasData(jobsRes.envelope) {
          jobs := jobsRes.envelope.data.value;
        }
      } else if HasData(jobsRes.envelope) {
        jobs := jobsRes.envelope.data.value;
      }
      isLoading := false;
    }

    /** Typing in one of the three search inputs. */
    method EditFilters(keyword: Option<string>, location: Option<string>, company: Option<string>)
      modifies this
      ensures filters == JobFilters(keyword, location, company)
      ensures jobs == old(jobs) && resume == old(resume) && isLoading == old(isLoading)
      ensures isLoadingMore == old(isLoadingMore) && error == old(error) && applyingJobId == old(applyingJobId)
      ensures appliedJobs == old(appliedJobs) && showFilters == old(showFilters)
      ensures displayCount == old(displayCount) && activeFilters == old(activeFilters)
    {
      filters := JobFilters(keyword, location, company);
    }

    /** The "Filters" button. */
    method ToggleFilters()
      modifies this
      ensures showFilters == !old(showFilters)
      ensures jobs == old(jobs) && resume == old(resume) && isLoading == old(isLoading)
      ensures isLoadingMore == old(isLoadingMore) && error == old(error) && applyingJobId == old(applyingJobId)
      ensures appliedJobs == old(appliedJobs) && displayCount == old(displayCount)
      ensures filters == old(filters) && activeFilters == old(activeFilters)
    {
      showFilters := !showFilters;
    }

    /** `handleSearch` up to its await: the window is reset to one page and the cleaned
        filters become the active ones; `request` is what `getJobs` is called with. */
    method BeginSearch() returns (request: JobFilters)
      modifies this
      ensures Valid() && displayCount == JobsPerPage
      ensures request == SearchFilters(filters) && activeFilters == request && Clean(request)
      ensures isLoading && error == ""
      ensures jobs == old(jobs) && resume == old(resume) && isLoadingMore == old(isLoadingMore)
      ensures applyingJobId == old(applyingJobId) && appliedJobs == old(appliedJobs)
      ensures showFilters == old(showFilters) && filters == old(filters)
    {
      isLoading := true;
      error := "";
      displayCount := JobsPerPage;
      request := SearchFilters(filters);
      SearchFiltersClean(filters);
      activeFilters := request;
    }

    /** `handleSearch` after `getJobs(filters)` settles. */
    method FinishSearch(res: Outcome<seq<Job>>)
      requires Valid()
      modifies this
      ensures Valid()
      ensures Succeeded(res) ==> jobs == res.envelope.data.value && error == old(error)
      ensures res.Returned? && !HasData(res.envelope) ==>
        jobs == old(jobs) && error == MessageOr(res.envelope, "Failed to search jobs")
      ensures res.Threw? ==> jobs == old(jobs) && error == "Failed to search jobs"
      ensures !isLoading
      ensures resume == old(resume) && isLoadingMore == old(isLoadingMore)
      ensures applyingJobId == old(applyingJobId) && appliedJobs == old(appliedJobs) && showFilters == old(showFilters)
      ensures displayCount == old(displayCount) && filters == old(filters) && activeFilters == old(activeFilters)
    {
      if res.Threw? {
        error := "Failed to search jobs";
      } else if HasData(res.envelope) {
        jobs := res.envelope.data.value;
      } else {
        error := MessageOr(res.envelope, "Failed to search jobs");
      }
      isLoading := false;
    }

    /** "Clear Filters": the form is emptied, the active filters dropped, and the initial
        load starts again; the window is not reset. */
    method ClearFilters()
      modifies this
      ensures filters == JobFilters(Some(""), Some(""), Some("")) && !HasActiveFilters(activeFilters)
      ensures isLoading && error == ""
      ensures jobs == old(jobs) && resume == old(resume) && isLoadingMore == old(isLoadingMore)
      ensures applyingJobId == old(applyingJobId) && appliedJobs == old(appliedJobs)
      ensures showFilters == old(showFilters) && displayCount == old(displayCount)
    {
      filters := JobFilters(Some(""), Some(""), Some(""));
      activeFilters := JobFilters(None, None, None);
      BeginInitialFetch();
    }

    /** `handleApply` up to its await. Without a résumé the page navigates to the upload page
        and nothing else happens (`input` is `None`); otherwise `input` is what
        `createApplication` is called with. */
    method BeginApply(job: Job) returns (input: Option<CreateApplicationInput>)
      modifies this
      ensures old(resume).None? ==> input.None? && applyingJobId == old(applyingJobId) && error == old(error)
      ensures old(resume).Some? ==>
        input == Some(ApplyInput(job, old(resume).value)) && applyingJobId == Some(job.id) && error == ""
      ensures jobs == old(jobs) && resume == old(resume) && isLoading == old(isLoading)
      ensures isLoadingMore == old(isLoadingMore) && appliedJobs == old(appliedJobs) && showFilters == old(showFilters)
      ensures displayCount == old(displayCount) && filters == old(filters) && activeFilters == old(activeFilters)
    {
      if resume.None? {
        input := None;
      } else {
        applyingJobId := Some(job.id);
        error := "";
        input := Some(ApplyInput(job, resume.value));
      }
    }

    /** `handleApply` after `createApplication` settles with `reply`: the job counts as
        applied only when the envelope says success. */
    method FinishApply(job: Job, reply: Reply<Application>)
      modifies this
      ensures var res := ApplicationsService.CreateApplication(reply);
        && (res.success ==> appliedJobs == old(appliedJobs) + {job.id} && error == old(error))
        && (!res.success ==> appliedJobs == old(appliedJobs) && error == MessageOr(res, "Failed to apply"))
      ensures old(appliedJobs) <= appliedJobs
      ensures applyingJobId == None
      ensures jobs == old(jobs) && resume == old(resume) && isLoading == old(isLoading)
      ensures isLoadingMore == old(isLoadingMore) && showFilters == old(showFilters)
      ensures displayCount == old(displayCount) && filters == old(filters) && activeFilters == old(activeFilters)
    {
      var res := ApplicationsService.CreateApplication(reply);
      if res.success {
        appliedJobs := appliedJobs + {job.id};
      } else {
        error := MessageOr(res, "Failed to apply");
      }
      applyingJobId := None;
    }

    /** `handleLoadMore` before its 300 ms timer fires. */
    method BeginLoadMore()
      modifies this
      ensures isLoadingMore
      ensures jobs == old(jobs) && resume == old(resume) && isLoading == old(isLoading) && error == old(error)
      ensures applyingJobId == old(applyingJobId) && appliedJobs == old(appliedJobs) && showFilters == old(showFilters)
      ensures displayCount == old(displayCount) && filters == old(filters) && activeFilters == old(activeFilters)
    {
      isLoadingMore := true;
    }

    /** The load-more timer firing: one more page. */
    method FinishLoadMore()
      requires Valid()
      modifies this
      ensures Valid() && displayCount == old(displayCount) + JobsPerPage
      ensures |old(Displayed())| <= |Displayed()| && old(Displayed()) == Displayed()[..|old(Displayed())|]
      ensures !isLoadingMore
      ensures jobs == old(jobs) && resume == old(resume) && isLoading == old(isLoading) && error == old(error)
      ensures applyingJobId == old(applyingJobId) && appliedJobs == old(appliedJobs) && showFilters == old(showFilters)
      ensures filters == old(filters) && activeFilters == old(activeFilters)
    {
      LoadMoreExtends(jobs, displayCount);
      displayCount := displayCount + JobsPerPage;
      isLoadingMore := false;
    }
  }
}
