/** The applications page: the status tabs and their counts, the status dropdown of each row
    and the status update that follows a choice in it. */
module Applications {
  import opened Envelopes
  import opened Text
  import opened Domain
  import ApplicationsService

  /** The selected tab: `"ALL"` or one status. */
  datatype StatusFilter = All | Only(status: Status)

  /** `applications.filter((app) => app.status === s)`. */
  function OfStatus(apps: seq<Application>, s: Status): (r: seq<Application>)
    ensures |r| <= |apps|
    ensures forall x :: x in r <==> x in apps && x.status == s
  {
    if apps == [] then []
    else (if apps[0].status == s then [apps[0]] else []) + OfStatus(apps[1..], s)
  }

  /** Filtering keeps the original order: it distributes over concatenation. */
  lemma {:induction false} OfStatusAppend(a: seq<Application>, b: seq<Application>, s: Status)
    ensures OfStatus(a + b, s) == OfStatus(a, s) + OfStatus(b, s)
  {
    if a == [] {
      assert a + b == b;
    } else {
      assert (a + b)[1..] == a[1..] + b;
      OfStatusAppend(a[1..], b, s);
    }
  }

  /** Filtering an already filtered list by the same status changes nothing. */
  lemma {:induction false} OfStatusIdempotent(apps: seq<Application>, s: Status)
    ensures OfStatus(OfStatus(apps, s), s) == OfStatus(apps, s)
  {
    if apps != [] {
      var head := if apps[0].status == s then [apps[0]] else [];
      OfStatusAppend(head, OfStatus(apps[1..], s), s);
      OfStatusIdempotent(apps[1..], s);
    }
  }

  /** `filteredApplications`: everything under "All", else exactly the entries with the
      selected status. */
  function Filtered(apps: seq<Application>, f: StatusFilter): (r: seq<Application>)
    ensures f.All? ==> r == apps
    ensures f.Only? ==> |r| <= |apps| && forall x :: x in r <==> x in apps && x.status == f.status
  {
    if f.All? then apps else OfStatus(apps, f.status)
  }

  /** Selecting the same tab twice shows the same rows. */
  lemma FilteredIdempotent(apps: seq<Application>, f: StatusFilter)
    ensures Filtered(Filtered(apps, f), f) == Filtered(apps, f)
  {
    if f.Only? {
      OfStatusIdempotent(apps, f.status);
    }
  }

  /** The positions in the list that hold an application with status `s`. */
  function StatusIndices(apps: seq<Application>, s: Status): set<nat> {
    set i: nat | i < |apps| && apps[i].status == s
  }

  /** The number of applications with status `s`: how many positions hold one. */
  function CountStatus(apps: seq<Application>, s: Status): nat {
    |StatusIndices(apps, s)|
  }

  /** Appending one application adds its position to the index set exactly when it has
      the status. */
  lemma StatusIndicesSnoc(front: seq<Application>, last: Application, s: Status)
    ensures CountStatus(front + [last], s) == CountStatus(front, s) + (if last.status == s then 1 else 0)
  {
    var k: nat := |front|;
    var apps := front + [last];
    var before, after := StatusIndices(front, s), StatusIndices(apps, s);
    var added: set<nat> := if last.status == s then {k} else {};
    forall i | i in after
      ensures i in before + added
    {
      if i < k {
        assert apps[i] == front[i];
      }
    }
    forall i | i in before + added
      ensures i in after
    {
      if i < k {
        assert apps[i] == front[i];
      }
    }
    assert after == before + added;
    assert k !in before;
  }

  /** Filtering a list with one more application at its end. */
  lemma OfStatusSnoc(front: seq<Application>, last: Application, s: Status)
    ensures |OfStatus(front + [last], s)| == |OfStatus(front, s)| + (if last.status == s then 1 else 0)
  {
    OfStatusAppend(front, [last], s);
    assert [last][1..] == [];
  }

  /** The count on a status tab, `applications.filter(a => a.status === status).length`, is
      the number of positions holding an application with that status. */
  lemma {:induction false} TabCountIsStatusCount(apps: seq<Application>, s: Status)
    ensures |OfStatus(apps, s)| == CountStatus(apps, s)
    decreases |apps|
  {
    if apps == [] {
      assert StatusIndices(apps, s) == {};
    } else {
      var front, last := apps[..|apps| - 1], apps[|apps| - 1];
      assert apps == front + [last];
      TabCountIsStatusCount(front, s);
      OfStatusSnoc(front, last, s);
      StatusIndicesSnoc(front, last, s);
    }
  }

  /** The five tab counts add up to the number of applications under "All". */
  lemma {:induction false} TabCountsPartition(apps: seq<Application>)
    ensures |OfStatus(apps, Saved)| + |OfStatus(apps, Applied)| + |OfStatus(apps, Interview)|
          + |OfStatus(apps, Rejected)| + |OfStatus(apps, Offer)| == |Filtered(apps, All)|
  {
    if apps != [] {
      TabCountsPartition(apps[1..]);
    }
  }

  /** The count in the list header is the count on the selected tab. */
  lemma HeaderCountMatchesTab(apps: seq<Application>, s: Status)
    ensures |Filtered(apps, Only(s))| == CountStatus(apps, s)
  {
    TabCountIsStatusCount(apps, s);
  }

  /** `name.charAt(0) + name.slice(1).toLowerCase()`. */
  function FirstThenLower(name: string): (r: string)
    ensures |r| == |name|
    ensures name != [] ==> r[0] == name[0]
    ensures forall i :: 1 <= i < |name| ==> r[i] == LowerChar(name[i])
  {
    if name == [] then [] else [name[0]] + Lower(name[1..])
  }

  /** The label shown for a status on its tab, its row button and its dropdown entry. */
  function StatusLabel(s: Status): string {
    FirstThenLower(StatusName(s))
  }

  // The label of each status, character by character.

  lemma SavedLabel()
    ensures StatusLabel(Saved) == "Saved"
  {
    assert LowerChar('A') == 'a' && LowerChar('D') == 'd' && LowerChar('E') == 'e' && LowerChar('V') == 'v';
    var r := StatusLabel(Saved);
    assert r[1] == 'a' && r[2] == 'v' && r[3] == 'e' && r[4] == 'd';
  }

  lemma AppliedLabel()
    ensures StatusLabel(Applied) == "Applied"
  {
    assert LowerChar('D') == 'd' && LowerChar('E') == 'e' && LowerChar('I') == 'i' && LowerChar('L') == 'l' && LowerChar('P') == 'p';
    var r := StatusLabel(Applied);
    assert r[1] == 'p' && r[2] == 'p' && r[3] == 'l' && r[4] == 'i' && r[5] == 'e' && r[6] == 'd';
  }

  lemma InterviewLabel()
    ensures StatusLabel(Interview) == "Interview"
  {
    assert LowerChar('E') == 'e' && LowerChar('I') == 'i' && LowerChar('N') == 'n' && LowerChar('R') == 'r' && LowerChar('T') == 't' && LowerChar('V') == 'v' && LowerChar('W') == 'w';
    var r := StatusLabel(Interview);
    assert r[1] == 'n' && r[2] == 't' && r[3] == 'e' && r[4] == 'r' && r[5] == 'v' && r[6] == 'i' && r[7] == 'e' && r[8] == 'w';
  }

  lemma RejectedLabel()
    ensures StatusLabel(Rejected) == "Rejected"
  {
    assert LowerChar('C') == 'c' && LowerChar('D') == 'd' && LowerChar('E') == 'e' && LowerChar('J') == 'j' && LowerChar('T') == 't';
    var r := StatusLabel(Rejected);
    assert r[1] == 'e' && r[2] == 'j' && r[3] == 'e' && r[4] == 'c' && r[5] == 't' && r[6] == 'e' && r[7] == 'd';
  }

  lemma OfferLabel()
    ensures StatusLabel(Offer) == "Offer"
  {
    assert LowerChar('E') == 'e' && LowerChar('F') == 'f' && LowerChar('R') == 'r';
    var r := StatusLabel(Offer);
    assert r[1] == 'f' && r[2] == 'f' && r[3] == 'e' && r[4] == 'r';
  }

  /** The caption of a tab. */
  function TabLabel(f: StatusFilter): (r: string)
    ensures f.All? ==> r == "All"
    ensures f.Only? ==> r == StatusLabel(f.status)
  {
    if f.All? then "All" else StatusLabel(f.status)
  }

  /** The title above the list. */
  function ListTitle(f: StatusFilter): (r: string)
    ensures r == TabLabel(f) + " Applications"
  {
    if f.All? then "All Applications" else StatusLabel(f.status) + " Applications"
  }

  const DefaultStatusColor: string := "bg-white/5 text-white/60 border-white/10"

  /** `getStatusColor`. */
  function StatusColor(s: Status): (c: string)
    ensures c == DefaultStatusColor <==> s == Saved
  {
    match s
    case Offer => "bg-emerald-500/10 text-emerald-400 border-emerald-500/20"
    case Interview => "bg-violet-500/10 text-violet-400 border-violet-500/20"
    case Applied => "bg-blue-500/10 text-blue-400 border-blue-500/20"
    case Rejected => "bg-red-500/10 text-red-400 border-red-500/20"
    case Saved => DefaultStatusColor
  }

  datatype StatusIcon = CheckCircleIcon | CalendarIcon | ClockIcon | XCircleIcon | FileTextIcon

  /** `getStatusIcon`, and the icon in each dropdown entry. */
  function StatusIconOf(s: Status): (i: StatusIcon)
    ensures i == FileTextIcon <==> s == Saved
  {
    match s
    case Offer => CheckCircleIcon
    case Interview => CalendarIcon
    case Applied => ClockIcon
    case Rejected => XCircleIcon
    case Saved => FileTextIcon
  }

  /** Every status is drawn distinctly: colour and icon each identify it. */
  lemma StatusPresentationInjective(a: Status, b: Status)
    ensures StatusColor(a) == StatusColor(b) ==> a == b
    ensures StatusIconOf(a) == StatusIconOf(b) ==> a == b
  {
    if StatusColor(a) == StatusColor(b) {
      assert StatusColor(a)[3..10] == StatusColor(b)[3..10];
    }
  }

  /** The local list after a successful status update: `prev.map(app => app._id === id ?
      {...app, status} : app)`. */
  function WithStatus(apps: seq<Application>, id: string, s: Status): (r: seq<Application>)
    ensures |r| == |apps|
    ensures forall i :: 0 <= i < |apps| ==>
      r[i] == if apps[i].id == id then apps[i].(status := s) else apps[i]
  {
    if apps == [] then []
    else [if apps[0].id == id then apps[0].(status := s) else apps[0]] + WithStatus(apps[1..], id, s)
  }

  /** After the update every entry with that id is listed under the new status's tab, and
      every other entry stays under the tab it was under. */
  lemma WithStatusRetabs(apps: seq<Application>, id: string, s: Status, i: nat)
    requires i < |apps|
    ensures var r := WithStatus(apps, id, s);
      && (apps[i].id == id ==> r[i] in OfStatus(r, s))
      && (apps[i].id != id ==> r[i] == apps[i] && r[i] in OfStatus(r, apps[i].status))
  {
  }

  /** Applying the same update twice is the same as applying it once. */
  lemma WithStatusIdempotent(apps: seq<Application>, id: string, s: Status)
    ensures WithStatus(WithStatus(apps, id, s), id, s) == WithStatus(apps, id, s)
  {
  }

  class ApplicationsPage {
    var applications: seq<Application>
    var isLoading: bool
    var error: string
    var statusFilter: StatusFilter
    var openDropdownId: Option<string>
    var updatingId: Option<string>

    constructor()
      ensures applications == [] && isLoading && error == "" && statusFilter == All
      ensures openDropdownId == None && updatingId == None
    {
      applications := [];
      isLoading := true;
      error := "";
      statusFilter := All;
      openDropdownId := None;
      updatingId := None;
    }

    /** The rows under the selected tab. */
    function Rows(): (r: seq<Application>)
      reads this
      ensures r == Filtered(applications, statusFilter)
      ensures statusFilter.All? ==> r == applications
      ensures statusFilter.Only? ==>
        forall x :: x in r <==> x in applications && x.status == statusFilter.status
    {
      Filtered(applications, statusFilter)
    }

    /** Whether the action menu of row `id` is open; the open row is a single optional id. */
    predicate DropdownOpen(id: string)
      reads this
    {
      openDropdownId == Some(id)
    }

    lemma AtMostOneDropdownOpen(a: string, b: string)
      requires DropdownOpen(a) && DropdownOpen(b)
      ensures a == b
    {
    }

    /** `fetchApplications` up to its await. */
    method BeginFetch()
      modifies this
      ensures isLoading && error == ""
      ensures applications == old(applications) && statusFilter == old(statusFilter)
      ensures openDropdownId == old(openDropdownId) && updatingId == old(updatingId)
    {
      isLoading := true;
      error := "";
    }

    /** `fetchApplications` after `getApplications` settles with `reply`. */
    method FinishFetch(reply: Reply<seq<Application>>)
      modifies this
      ensures var res := ApplicationsService.GetApplications(reply);
        && (HasData(res) ==> applications == res.data.value && error == old(error))
        && (!HasData(res) ==> applications == old(applications)
                              && error == MessageOr(res, "Failed to fetch applications"))
      ensures !isLoading
      ensures statusFilter == old(statusFilter)
      ensures openDropdownId == old(openDropdownId) && updatingId == old(updatingId)
    {
      var res := ApplicationsService.GetApplications(reply);
      if HasData(res) {
        applications := res.data.value;
      } else {
        error := MessageOr(res, "Failed to fetch applications");
      }
      isLoading := false;
    }

    /** A click on a tab. */
    method SelectFilter(f: StatusFilter)
      modifies this
      ensures statusFilter == f
      ensures applications == old(applications) && isLoading == old(isLoading) && error == old(error)
      ensures openDropdownId == old(openDropdownId) && updatingId == old(updatingId)
    {
      statusFilter := f;
    }

    /** A click on the status button of row `id`; it stops propagation, so the document
        listener does not see it, and while that row is updating the button is disabled. */
    method ToggleDropdown(id: string)
      modifies this
      ensures updatingId == Some(id) ==> openDropdownId == old(openDropdownId)
      ensures updatingId != Some(id) ==>
        openDropdownId == if old(openDropdownId) == Some(id) then None else Some(id)
      ensures applications == old(applications) && isLoading == old(isLoading) && error == old(error)
      ensures statusFilter == old(statusFilter) && updatingId == old(updatingId)
    {
      if updatingId != Some(id) {
        openDropdownId := if openDropdownId == Some(id) then None else Some(id);
      }
    }

    /** A click that reaches the document: any open menu closes. */
    method DocumentClick()
      modifies this
      ensures openDropdownId == None
      ensures applications == old(applications) && isLoading == old(isLoading) && error == old(error)
      ensures statusFilter == old(statusFilter) && updatingId == old(updatingId)
    {
      openDropdownId := None;
    }

    /** `handleStatusUpdate` up to its await: nothing is applied optimistically. */
    method BeginStatusUpdate(id: string)
      modifies this
      ensures updatingId == Some(id) && openDropdownId == None
      ensures applications == old(applications) && isLoading == old(isLoading) && error == old(error)
      ensures statusFilter == old(statusFilter)
    {
      updatingId := Some(id);
      openDropdownId := None;
    }

    /** `handleStatusUpdate` after `updateApplicationStatus` settles with `reply`: the new
        status is applied only on success with data; a failure changes nothing and shows no
        error. */
    method FinishStatusUpdate(id: string, newStatus: Status, reply: Reply<Application>)
      modifies this
      ensures var res := ApplicationsService.UpdateApplicationStatus(reply);
        applications == if HasData(res) then WithStatus(old(applications), id, newStatus)
                        else old(applications)
      ensures updatingId == None
      ensures isLoading == old(isLoading) && error == old(error)
      ensures statusFilter == old(statusFilter) && openDropdownId == old(openDropdownId)
    {
      var res := ApplicationsService.UpdateApplicationStatus(reply);
      if HasData(res) {
        applications := WithStatus(applications, id, newStatus);
      }
      updatingId := None;
    }
  }

  /** A whole status update, start to finish with nothing in between: the dropdown ends
      closed, no row is marked updating, and only the status of the entries with that id can
      have changed. */
  method StatusUpdateRound(page: ApplicationsPage, id: string, newStatus: Status, reply: Reply<Application>)
    modifies page
    ensures page.openDropdownId == None && page.updatingId == None
    ensures |page.applications| == |old(page.applications)|
    ensures forall i :: 0 <= i < |page.applications| ==>
      page.applications[i].(status := old(page.applications[i].status)) == old(page.applications[i])
    ensures forall i :: 0 <= i < |page.applications| && old(page.applications[i].id) != id ==>
      page.applications[i] == old(page.applications[i])
  {
    page.BeginStatusUpdate(id);
    page.FinishStatusUpdate(id, newStatus, reply);
  }
}
