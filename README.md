# JobPilot dashboard — a Dafny model

This project models the client side of JobPilot, a job-search dashboard written in
TypeScript with Next.js. It covers these parts:

- **Applications service** (`src/services/applications.ts`). Each of its four calls turns
  every failure into a returned `{success, statusCode, data?, message?, error?}` envelope,
  so none of them throws.
- **Auth service** (`src/services/auth.ts`). `login` lets failures propagate. `register`
  converts them into the backend's body or `null`.
- **Applications page**. Status tabs with counts, a per-row status dropdown, and the
  status update that follows a choice in it.
- **Jobs page**. The initial load: résumé and jobs together, then the matched list if a
  résumé exists. Also search with trimmed filters, client-side pagination in pages of
  10, and applying to a job.
- **Analyze page**. Admission of a pasted job description (not blank, at least 50
  characters) and the analysis call. Also how scores, badges, the score ring and
  keywords are coloured.
- **Résumé page**. Fetching the current résumé, and the PDF-only upload from the file
  picker or by drag and drop.
- **Notifications menu**. The unread badge ("9+" above nine), mark all as read, dismiss,
  and the relative time labels.

Layout:

- One module per source file: `ApplicationsService`, `AuthService`, `Applications`,
  `Jobs`, `Analyze`, `ResumeUpload` and `Notifications`.
- Four shared modules:
  - `Envelopes`: the response envelope, and how a call can come back.
  - `Text`: `trim`, ASCII `toLowerCase`, decimal rendering of counts.
  - `Domain`: the records.
  - `Tiers`: the score tiers at 85, 70 and 50 that every page uses.

How the model represents the code:

- **Pages and menus are classes.** The fields are the component's React state.
- **Async handlers are split in two.** `Begin…` is the part before the `await`. `Finish…`
  is the part after it, `finally` included.
- **Awaited results are parameters.**
  - A service whose code is part of the model is applied to a `Reply`. A `Reply` is the
    transport outcome the HTTP client gives it: a delivered body, or a rejection with its
    message and the backend's body, if any.
  - A service whose code is not part of the model is an `Outcome`: either the envelope it
    returned, or a throw. These are `getJobs`, `getMatchedJobs`, `getResume`,
    `analyzeJobMatch` and `uploadResume`. `uploadResume` catches nothing.
- **JavaScript truthiness is written out.**
  - `res.success && res.data` is `HasData`. An empty list still counts as data.
  - `res.message || fallback` is `MessageOr`. An empty message falls back.

Where the code and the written design differ, the model follows the code:

- **Status updates are not optimistic.** The page changes a row's status only after the
  server confirms with data. A failed update is silent: it shows no error and reverts
  nothing.
- **The 50-character minimum is enforced on the analyze page, not in a service.** It
  counts the untrimmed text, so whitespace padding counts towards it
  (`Analyze.PaddingCountsTowardsLength`).
- **The 10MB résumé limit appears only as text.** The upload checks the MIME type only
  (`ResumeUpload.SizeAndNameNotChecked`).
- **Some page `catch` branches are unreachable.** The applications service never throws,
  so the pages' "Failed to load applications" and "Failed to apply to job" branches
  cannot run.
- **A thrown matched-jobs request loses the unranked list.** The error is shown and the
  list is left as it was (`Jobs.MatchedFailureFallback`). A failure envelope from the
  same request falls back to the unranked list instead.
- **The "Skills Match" badge tests the overall score.** Its colour is chosen by the
  overall score, not by the skills percentage it displays. The model keeps this as
  written (`Analyze.SkillsBadgeIgnoresSkillsPercentage`).

## Model

| member | source | states |
|---|---|---|
| Envelopes.BackendBody | src/services/applications.ts:36-41 | the backend's body is the delivered body on success and `error.response.data` on a rejection |
| Envelopes.MessageOr | src/app/dashboard/applications/page.tsx:70 | `res.message \|\| fallback`: the message when present and non-empty, the fallback otherwise |
| Text.LeadingSpaces | src/app/dashboard/jobs/page.tsx:98-100 | counts exactly the whitespace prefix: all counted characters are whitespace and the next is not |
| Text.TrailingSpaces | src/app/dashboard/jobs/page.tsx:98-100 | counts exactly the whitespace suffix |
| Text.Trim | src/app/dashboard/jobs/page.tsx:98-100 | `trim()` drops only whitespace from both ends, leaves non-space ends, and is empty iff the string is all whitespace |
| Text.TrimIdempotent | src/app/dashboard/jobs/page.tsx:98-100 | trimming twice equals trimming once |
| Text.TrimOfTrimmed | src/app/dashboard/jobs/page.tsx:98-100 | a non-empty string with non-space ends is its own trim |
| Text.Lower | src/app/dashboard/applications/page.tsx:420 | `toLowerCase()` keeps the length and lowers each ASCII capital |
| Text.NatToString | src/components/Notifications.tsx:109 | a count renders as non-empty decimal digits with no leading zero, one digit iff below 10 |
| Text.ParseNatToString | src/components/Notifications.tsx:68-70 | reading the rendered digits gives the number back |
| Text.NatToStringInjective | src/components/Notifications.tsx:68-70 | distinct numbers render differently |
| Text.NatToStringSuffixInjective | src/components/Notifications.tsx:68-70 | a rendered number followed by a unit still determines the number |
| Tiers.TierOf | src/app/dashboard/applications/page.tsx:139-144 | the four score tiers with inclusive lower bounds 85, 70 and 50, each as an iff |
| Tiers.TierMonotone | src/app/dashboard/applications/page.tsx:139-144 | a higher score never falls into a lower tier |
| Tiers.ScoreTextColour | src/app/dashboard/applications/page.tsx:139-144 | a score is drawn in its tier's text colour; the jobs page (lines 162-167) and the analyze page (lines 95-100) repeat the same function |
| Tiers.TierTextClassInjective | src/app/dashboard/applications/page.tsx:139-144 | distinct tiers get distinct text colours |
| Domain.StatusOptionsListEachOnce | src/app/dashboard/applications/page.tsx:35 | the status tabs and the dropdown list every status exactly once |
| ApplicationsService.RequestOf | src/services/applications.ts:34-105 | the verb, path and body each operation sends: GET `/applications`, GET `/applications/stats`, POST `/applications`, PATCH `/applications/{id}/status` with `{status}` |
| ApplicationsService.StatusPathNamesId | src/services/applications.ts:92 | the status-update path contains exactly the application id between its fixed parts |
| ApplicationsService.RequestOfInjective | src/services/applications.ts:34-105 | two different operations never send the same request |
| ApplicationsService.TransportFailure | src/services/applications.ts:42-47 | the envelope built when there is no backend body: not successful, status 500, no data, the default message, and the transport error's message |
| ApplicationsService.Normalise | src/services/applications.ts:35-48 | the try/catch returns the backend's body whenever one exists, success or failure, and otherwise the built failure; it never throws |
| ApplicationsService.SuccessComesFromBackend | src/services/applications.ts:38-47 | an envelope reporting success or carrying data always comes from the backend |
| ApplicationsService.NormalisedUnique | src/services/applications.ts:38-47 | each reply has exactly one normalised envelope |
| ApplicationsService.GetApplications | src/services/applications.ts:34-49 | normalised, with default message "Failed to fetch applications" |
| ApplicationsService.GetApplicationStats | src/services/applications.ts:51-66 | normalised, with default message "Failed to fetch stats" |
| ApplicationsService.CreateApplication | src/services/applications.ts:68-85 | normalised, with default message "Failed to create application" |
| ApplicationsService.UpdateApplicationStatus | src/services/applications.ts:87-105 | normalised, with default message "Failed to update status" |
| AuthService.Login | src/services/auth.ts:4-10 | returns the body iff the request was delivered; a rejection reaches the caller as a throw |
| AuthService.Register | src/services/auth.ts:12-26 | the delivered body, else the backend's error body, else `null` |
| AuthService.RegisterExtendsLogin | src/services/auth.ts:4-26 | wherever `login` returns, `register` returns the same body; wherever `login` throws, `register` returns the backend's body |
| AuthService.RegisterNullIffNoBody | src/services/auth.ts:21-25 | `register` yields `null` exactly when the backend sent no body |
| Applications.OfStatus | src/app/dashboard/applications/page.tsx:316 | an entry is kept iff it is in the list and has the status; the result is never longer |
| Applications.OfStatusAppend | src/app/dashboard/applications/page.tsx:102-105 | filtering keeps list order: it distributes over concatenation |
| Applications.OfStatusIdempotent | src/app/dashboard/applications/page.tsx:102-105 | filtering a filtered list by the same status changes nothing |
| Applications.Filtered | src/app/dashboard/applications/page.tsx:102-105 | "ALL" shows every application; a status tab shows exactly those with that status |
| Applications.FilteredIdempotent | src/app/dashboard/applications/page.tsx:102-105 | applying the selected tab twice shows the same rows |
| Applications.TabCountIsStatusCount | src/app/dashboard/applications/page.tsx:316 | a tab's count equals the number of positions in the list that hold an application with that status |
| Applications.OfStatusSnoc | src/app/dashboard/applications/page.tsx:316 | appending one application grows the filtered list by one exactly when it has the status |
| Applications.StatusIndicesSnoc | src/app/dashboard/applications/page.tsx:316 | appending one application grows the status count by one exactly when it has the status |
| Applications.TabCountsPartition | src/app/dashboard/applications/page.tsx:303-320 | the five status tab counts add up to the number shown under "All" |
| Applications.HeaderCountMatchesTab | src/app/dashboard/applications/page.tsx:326-330 | the list header's count equals the selected tab's count |
| Applications.FirstThenLower | src/app/dashboard/applications/page.tsx:420 | keeps the first character and lowers every later one, same length |
| Applications.SavedLabel | src/app/dashboard/applications/page.tsx:313 | SAVED is labelled "Saved" |
| Applications.AppliedLabel | src/app/dashboard/applications/page.tsx:313 | APPLIED is labelled "Applied" |
| Applications.InterviewLabel | src/app/dashboard/applications/page.tsx:313 | INTERVIEW is labelled "Interview" |
| Applications.RejectedLabel | src/app/dashboard/applications/page.tsx:313 | REJECTED is labelled "Rejected" |
| Applications.OfferLabel | src/app/dashboard/applications/page.tsx:313 | OFFER is labelled "Offer" |
| Applications.TabLabel | src/app/dashboard/applications/page.tsx:313 | "All" for the all-tab, otherwise the status label |
| Applications.ListTitle | src/app/dashboard/applications/page.tsx:327 | the list title is the tab label followed by " Applications" |
| Applications.StatusColor | src/app/dashboard/applications/page.tsx:107-121 | the neutral colour is used iff the status is SAVED |
| Applications.StatusIconOf | src/app/dashboard/applications/page.tsx:123-137 | the file icon is used iff the status is SAVED |
| Applications.StatusPresentationInjective | src/app/dashboard/applications/page.tsx:107-137 | no two statuses share a colour or an icon |
| Applications.WithStatus | src/app/dashboard/applications/page.tsx:85-87 | same length; the entries with the id get the new status, all other entries are unchanged |
| Applications.WithStatusRetabs | src/app/dashboard/applications/page.tsx:84-87 | after an update the row moves to the new status's tab, and every other row stays under its old tab |
| Applications.WithStatusIdempotent | src/app/dashboard/applications/page.tsx:85-87 | applying the same update twice equals applying it once |
| Applications.ApplicationsPage.constructor | src/app/dashboard/applications/page.tsx:39-44 | the initial state: no applications, loading, no error, "ALL" tab, no dropdown open, nothing updating |
| Applications.ApplicationsPage.Rows | src/app/dashboard/applications/page.tsx:102-105 | the shown rows are `Filtered` of the page state: every application under "ALL", exactly those with the selected status otherwise |
| Applications.ApplicationsPage.AtMostOneDropdownOpen | src/app/dashboard/applications/page.tsx:43 | at most one row's dropdown is open |
| Applications.ApplicationsPage.BeginFetch | src/app/dashboard/applications/page.tsx:62-64 | sets loading and clears the error; nothing else changes |
| Applications.ApplicationsPage.FinishFetch | src/app/dashboard/applications/page.tsx:65-76 | data replaces the list; otherwise the list is kept and the message or "Failed to fetch applications" is shown; loading ends |
| Applications.ApplicationsPage.SelectFilter | src/app/dashboard/applications/page.tsx:306 | selects the tab; nothing else changes |
| Applications.ApplicationsPage.ToggleDropdown | src/app/dashboard/applications/page.tsx:404-409 | opens this row's menu or closes it, closing any other; no effect while this row is updating |
| Applications.ApplicationsPage.DocumentClick | src/app/dashboard/applications/page.tsx:56-60 | a click reaching the document closes every menu |
| Applications.ApplicationsPage.BeginStatusUpdate | src/app/dashboard/applications/page.tsx:79-81 | marks the row as updating and closes the menu; the list is not changed optimistically |
| Applications.ApplicationsPage.FinishStatusUpdate | src/app/dashboard/applications/page.tsx:82-93 | the new status is applied only when the service's envelope has data; a failure is silent; the updating mark is cleared |
| Applications.StatusUpdateRound | src/app/dashboard/applications/page.tsx:79-94 | after a whole update the menu is closed, nothing is updating, and only the status of entries with that id can have changed |
| Jobs.MatchScoreBg | src/app/dashboard/jobs/page.tsx:169-174 | a match score's badge background is its tier's background |
| Jobs.ColourAndBackgroundAgree | src/app/dashboard/jobs/page.tsx:162-174 | two scores share a text colour (`getMatchScoreColor`) iff they share a background |
| Jobs.MatchBadge | src/app/dashboard/jobs/page.tsx:553-566 | a card shows a match badge iff a résumé is loaded and the job has a score; its background and text colour are those of the score's tier |
| Jobs.MatchBadgeByTier | src/app/dashboard/jobs/page.tsx:553-566 | no card has a badge before a résumé is loaded, and scores in one tier get the same badge |
| Jobs.SearchField | src/app/dashboard/jobs/page.tsx:98-100 | a filter field is sent iff present and not blank, and it is sent trimmed |
| Jobs.SearchFieldFixesClean | src/app/dashboard/jobs/page.tsx:98-100 | a sent field is always clean, and a clean field is sent unchanged |
| Jobs.SearchFilters | src/app/dashboard/jobs/page.tsx:97-102 | each of keyword, location and company is cleaned on its own |
| Jobs.SearchFiltersClean | src/app/dashboard/jobs/page.tsx:97-102 | searches send clean filters, clean filters are sent unchanged, and building them is idempotent |
| Jobs.DisplayedJobs | src/app/dashboard/jobs/page.tsx:176 | the shown cards are the prefix of the list with min(displayCount, length) jobs |
| Jobs.HasMore | src/app/dashboard/jobs/page.tsx:177 | "load more" is offered iff some job is not shown; otherwise every job is shown |
| Jobs.Remaining | src/app/dashboard/jobs/page.tsx:633 | while more remain, the count on the button is positive and equals the number of jobs not shown |
| Jobs.LoadMoreExtends | src/app/dashboard/jobs/page.tsx:148-154 | loading more only appends, and it appends something whenever more jobs were waiting |
| Jobs.ApplyInput | src/app/dashboard/jobs/page.tsx:127-133 | the application copies the job's id, title, company and apply URL, and the résumé's id |
| Jobs.SnapshotIgnoresOtherFields | src/app/dashboard/jobs/page.tsx:127-133 | jobs that agree on those four fields produce the same application |
| Jobs.InitialLoadOf | src/app/dashboard/jobs/page.tsx:63-89 | the matched list is requested iff a résumé came back and no call threw; the load fails iff an awaited call threw, and a failed load leaves the list as it was; the matched list is preferred and the unranked list is the fallback |
| Jobs.NoResumeShowsUnranked | src/app/dashboard/jobs/page.tsx:81-83 | without a résumé the matched list is not requested and the unranked list is shown |
| Jobs.MatchedFailureFallback | src/app/dashboard/jobs/page.tsx:75-85 | a matched-list failure envelope falls back to the unranked list; a thrown matched request keeps the old list |
| Jobs.JobsPage.constructor | src/app/dashboard/jobs/page.tsx:35-50 | the initial state, with one page shown, empty form fields and no active filters |
| Jobs.JobsPage.Displayed | src/app/dashboard/jobs/page.tsx:176 | the cards on screen are `DisplayedJobs` of the page state: the prefix of the list with min(displayCount, length) jobs |
| Jobs.JobsPage.BeginInitialFetch | src/app/dashboard/jobs/page.tsx:64-65 | sets loading and clears the error; nothing else changes |
| Jobs.JobsPage.FinishInitialFetch | src/app/dashboard/jobs/page.tsx:67-88 | the résumé, list and error become what `InitialLoadOf` decides; loading ends; whole pages are kept |
| Jobs.JobsPage.EditFilters | src/app/dashboard/jobs/page.tsx:341-396 | typing updates only the form |
| Jobs.JobsPage.ToggleFilters | src/app/dashboard/jobs/page.tsx:348 | flips the filter panel; nothing else changes |
| Jobs.JobsPage.BeginSearch | src/app/dashboard/jobs/page.tsx:92-104 | the window resets to one page; the cleaned form becomes both the active filters and the request |
| Jobs.JobsPage.FinishSearch | src/app/dashboard/jobs/page.tsx:104-114 | data replaces the list; a failure envelope shows its message or "Failed to search jobs"; a throw shows "Failed to search jobs" |
| Jobs.JobsPage.ClearFilters | src/app/dashboard/jobs/page.tsx:499-503 | empties the form, drops the active filters and restarts the initial load without resetting the window |
| Jobs.JobsPage.BeginApply | src/app/dashboard/jobs/page.tsx:117-124 | without a résumé nothing is sent; otherwise the job is marked applying and the snapshot is sent |
| Jobs.JobsPage.FinishApply | src/app/dashboard/jobs/page.tsx:135-145 | the job joins the applied set iff the service reports success; otherwise the message or "Failed to apply"; the applied set never shrinks |
| Jobs.JobsPage.BeginLoadMore | src/app/dashboard/jobs/page.tsx:149 | sets loading-more; nothing else changes |
| Jobs.JobsPage.FinishLoadMore | src/app/dashboard/jobs/page.tsx:150-153 | one more page; the earlier cards stay a prefix of the new ones |
| Analyze.ScoreGradient | src/app/dashboard/analyze/page.tsx:102-107 | a bar's gradient is its tier's gradient |
| Analyze.RingBandOf | src/app/dashboard/analyze/page.tsx:310-311 | the ring has three bands, split at 70 and 50 |
| Analyze.RingStops | src/app/dashboard/analyze/page.tsx:310-311 | the ring's two gradient stops are those of its band |
| Analyze.RingCoarserThanTier | src/app/dashboard/analyze/page.tsx:310-311 | scores in one tier share a ring, and the top two tiers share the violet ring |
| Analyze.SummaryBadge | src/app/dashboard/analyze/page.tsx:327-330 | a summary badge is green iff the value it tests is at least 70, and amber otherwise |
| Analyze.SkillsBadge | src/app/dashboard/analyze/page.tsx:327 | the skills badge is green iff the overall score is at least 70 |
| Analyze.KeywordsBadge | src/app/dashboard/analyze/page.tsx:330 | the keywords badge is green iff the keyword percentage is at least 70 |
| Analyze.SkillsBadgeIgnoresSkillsPercentage | src/app/dashboard/analyze/page.tsx:327-328 | the skills percentage does not affect the skills badge's colour |
| Analyze.KeywordHighlights | src/app/dashboard/analyze/page.tsx:454-460 | a required keyword is highlighted iff it appears among the found keywords |
| Analyze.HighlightIsCaseSensitive | src/app/dashboard/analyze/page.tsx:457 | a found "react" does not highlight "React" |
| Analyze.AdmissionOf | src/app/dashboard/analyze/page.tsx:61-69 | blank iff all whitespace; too short iff not blank and under 50 untrimmed characters; admitted otherwise |
| Analyze.PaddingCountsTowardsLength | src/app/dashboard/analyze/page.tsx:61-69 | one letter followed by 49 spaces is admitted, although it trims to one character |
| Analyze.EnabledButtonSkipsBlank | src/app/dashboard/analyze/page.tsx:258 | the button is enabled iff idle and the text is not blank, so it never reaches the blank branch, while a too-short text still reaches the length check |
| Analyze.AnalyzePage.constructor | src/app/dashboard/analyze/page.tsx:29-34 | the initial state: no résumé, empty text, no result, loading, idle, no error |
| Analyze.AnalyzePage.BeginFetchResume | src/app/dashboard/analyze/page.tsx:47 | sets loading; nothing else changes |
| Analyze.AnalyzePage.FinishFetchResume | src/app/dashboard/analyze/page.tsx:48-57 | the résumé is set only when one came back with data; a throw changes nothing visible; loading ends |
| Analyze.AnalyzePage.EditDescription | src/app/dashboard/analyze/page.tsx:242 | typing updates only the description |
| Analyze.AnalyzePage.BeginAnalyze | src/app/dashboard/analyze/page.tsx:60-73 | a rejected description shows its message and keeps the previous result; an admitted one clears the error and the result and starts the call |
| Analyze.AnalyzePage.FinishAnalyze | src/app/dashboard/analyze/page.tsx:75-86 | data becomes the result; a failure envelope shows its message or "Failed to analyze job match"; a throw shows that default; analyzing ends |
| Analyze.AnalyzeRound | src/app/dashboard/analyze/page.tsx:60-87 | a call is made iff the text is admitted; the page then ends idle, showing the new result or none |
| ResumeUpload.AcceptsFile | src/app/dashboard/resume/page.tsx:88 | a file is accepted iff its type is exactly "application/pdf" |
| ResumeUpload.SizeAndNameNotChecked | src/app/dashboard/resume/page.tsx:88-91 | neither size nor name affects acceptance: a ".pdf" name with another type is refused |
| ResumeUpload.ResumePage.constructor | src/app/dashboard/resume/page.tsx:32-38 | the initial state: no résumé, loading, no messages, no preview, not dragging |
| ResumeUpload.ResumePage.BeginFetch | src/app/dashboard/resume/page.tsx:66-67 | sets loading and clears the error |
| ResumeUpload.ResumePage.FinishFetch | src/app/dashboard/resume/page.tsx:69-78 | the résumé is set only by a success with data; a throw shows "Failed to load resume"; loading ends |
| ResumeUpload.ResumePage.BeginUpload | src/app/dashboard/resume/page.tsx:87-95 | a non-PDF shows "Please upload a PDF file" and stops, keeping the file input; a PDF starts the upload and clears both messages |
| ResumeUpload.ResumePage.FinishUpload | src/app/dashboard/resume/page.tsx:97-112 | success sets the résumé and the success message; a failure shows its message or "Failed to upload resume"; always stops uploading and clears the input |
| ResumeUpload.ResumePage.SelectFile | src/app/dashboard/resume/page.tsx:115-120 | a picked file is uploaded; picking nothing changes no message |
| ResumeUpload.ResumePage.DragOver | src/app/dashboard/resume/page.tsx:122-126 | marks the zone as dragged over |
| ResumeUpload.ResumePage.DragLeave | src/app/dashboard/resume/page.tsx:128-132 | unmarks the zone |
| ResumeUpload.ResumePage.Drop | src/app/dashboard/resume/page.tsx:134-143 | unmarks the zone and uploads the first dropped file, if any |
| ResumeUpload.ResumePage.TogglePreview | src/app/dashboard/resume/page.tsx:324 | flips the text preview; nothing else changes |
| ResumeUpload.ResumePage.ExpireSuccessMessage | src/app/dashboard/resume/page.tsx:51-56 | the success message's timer clears it |
| ResumeUpload.ResumePage.ExpireError | src/app/dashboard/resume/page.tsx:58-63 | the error's timer clears it |
| ResumeUpload.PickAndUpload | src/app/dashboard/resume/page.tsx:87-120 | a refused file leaves the résumé; after an upload the page is idle, the input is cleared, and the résumé changed only on success |
| Notifications.NotificationIcon | src/components/Notifications.tsx:49-60 | each type has its own icon, each as an iff |
| Notifications.UnreadCount | src/components/Notifications.tsx:79 | never more than the list length, and zero iff every notification is read |
| Notifications.MarkAllRead | src/components/Notifications.tsx:92-94 | every notification becomes read, with nothing else changed |
| Notifications.MarkAllReadClears | src/components/Notifications.tsx:92-94 | afterwards the unread count is zero, and marking again changes nothing |
| Notifications.Dismiss | src/components/Notifications.tsx:96-98 | a notification survives iff its id differs |
| Notifications.DismissAppend | src/components/Notifications.tsx:97 | dismissing keeps order: it distributes over concatenation |
| Notifications.UnreadCountAppend | src/components/Notifications.tsx:79 | the unread count of a concatenation is the sum of the counts |
| Notifications.DismissUnread | src/components/Notifications.tsx:96-98 | dismissing never raises the unread count, and leaves it unchanged when the dismissed ones were read |
| Notifications.BadgeLabel | src/components/Notifications.tsx:107-110 | no badge iff nothing is unread; one digit for 1-9; "9+" above 9 |
| Notifications.MarkAllShownWithBadge | src/components/Notifications.tsx:118-126 | "Mark all as read" is offered iff the bell shows a badge, iff some notification is unread, and marking all withdraws it |
| Notifications.TimeAgo | src/components/Notifications.tsx:62-72 | "Just now" under a minute; between a minute and a week, a number n of minutes (1-59), hours (1-23) or days (1-6) with n units <= elapsed < n+1 units, as "n m/h/d ago"; a locale date (not modelled) iff a week or more |
| Notifications.TimeAgoReadsBack | src/components/Notifications.tsx:65-70 | the number in a label is unique: any n whose rendering matches the label lies in the floor bounds of its unit |
| Notifications.NotificationsMenu.constructor | src/components/Notifications.tsx:75-76 | starts closed with the given notifications |
| Notifications.NotificationsMenu.Toggle | src/components/Notifications.tsx:103 | the bell flips the menu |
| Notifications.NotificationsMenu.MouseDown | src/components/Notifications.tsx:81-90 | a press outside closes the menu; one inside leaves it |
| Notifications.NotificationsMenu.MarkAllAsRead | src/components/Notifications.tsx:92-94 | all become read and the unread count is zero |
| Notifications.NotificationsMenu.DismissNotification | src/components/Notifications.tsx:96-98 | removes that id, and the unread count does not rise |

## Left out

- `src/lib/api.ts` is not part of this model: the access token header, the 401 refresh-and-retry interceptor, and its redirect to `/login`. The model starts at what the HTTP client hands a service.
- The services the pages call but whose code is not part of this model (`getJobs`, `getMatchedJobs`, `getResume`, `analyzeJobMatch`, `uploadResume`) are represented only by what they return or that they throw.
- Login and register request shapes (`/auth/login`, `/auth/register` with their fields) are not modelled; only what each function returns for a reply is.
- Rendering, routing, the auth guard on each page, logout and `localStorage` are left out: they are browser effects, not logic.
- Timers (the 5 s message timers, the 300 ms load-more delay) are explicit events. Their cancellation on re-render is not modelled.
- The concurrency of `Promise.all` and interleavings of handlers are not modelled. Each `Begin…`/`Finish…` pair is one handler, and other events may run between them.
- `Notifications.TimeAgo`: the last branch (`toLocaleDateString`) and date parsing are left out, and elapsed time is given in whole seconds.
- `Text.Lower`: only ASCII letters are lowered, which covers every status name. Non-ASCII case mapping is not modelled.
- `Text.Trim` and `Analyze.AdmissionOf` count characters, not UTF-16 code units, so `length` differs for characters outside the Basic Multilingual Plane.
- Scores are integers. The source's numbers may be fractional, and a fractional score uses the same comparisons.
- The score ring's stroke offset (based on `Math.PI`) and the width of the progress bars are floating-point layout and are left out.
- The dropdown entry's text colour (`getStatusColor(status).split(" ")[1]`) and the per-row date formatting are presentation only.
- `Notifications.NotificationsMenu.constructor` takes the initial notifications as a parameter instead of the fixed mock list.
- `Jobs.JobsPage.EditFilters` sets all three form fields at once. The source updates one field per keystroke, and one call here covers that with the other two fields unchanged.
