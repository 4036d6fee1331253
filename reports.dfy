/**
 * What the police dashboard and the "my reports" page share: the
 * case-insensitive search over a report's name and last-seen location, the
 * order-keeping filter behind both lists, and the badge colours.
 */
module ReportLists {
  import opened Text

  const Yellow := "bg-yellow-100 text-yellow-800"
  const Blue := "bg-blue-100 text-blue-800"
  const Green := "bg-green-100 text-green-800"
  const Gray := "bg-gray-100 text-gray-800"

  /** `fullName.toLowerCase().includes(q) || lastSeenLocation.toLowerCase().includes(q)`, `q` lowered too. */
  predicate MatchesSearch(fullName: string, location: string, query: string)
  {
    Contains(ToLower(fullName), ToLower(query)) || Contains(ToLower(location), ToLower(query))
  }

  /** An empty search matches every report. */
  lemma EmptySearchMatches(fullName: string, location: string)
    ensures MatchesSearch(fullName, location, "")
  {
    EmptyIsContained(ToLower(fullName));
  }

  /** The search ignores the case of the query. */
  lemma SearchIgnoresCase(fullName: string, location: string, query: string)
    ensures MatchesSearch(fullName, location, query) == MatchesSearch(fullName, location, ToLower(query))
  {
    LowerTwice(query);
  }

  /** Lowering an already lowered string changes nothing. */
  lemma LowerTwice(s: string)
    ensures ToLower(ToLower(s)) == ToLower(s)
  {
    var t := ToLower(s);
    assert forall i :: 0 <= i < |s| ==> LowerChar(t[i]) == t[i];
  }

  /** `Array.prototype.filter`. */
  function Keep<T>(s: seq<T>, p: T -> bool): seq<T>
  {
    if s == [] then [] else (if p(s[0]) then [s[0]] else []) + Keep(s[1..], p)
  }

  /** The filter keeps exactly the elements that pass. */
  lemma {:induction false} KeepMembers<T>(s: seq<T>, p: T -> bool)
    ensures forall x :: x in Keep(s, p) <==> x in s && p(x)
  {
    if s != [] {
      KeepMembers(s[1..], p);
      assert s == [s[0]] + s[1..];
    }
  }

  /** The filter works element by element, so it keeps the list's order. */
  lemma {:induction false} KeepAppend<T>(a: seq<T>, b: seq<T>, p: T -> bool)
    ensures Keep(a + b, p) == Keep(a, p) + Keep(b, p)
  {
    if a != [] {
      assert (a + b)[0] == a[0];
      assert (a + b)[1..] == a[1..] + b;
      KeepAppend(a[1..], b, p);
      var head := if p(a[0]) then [a[0]] else [];
      assert Keep(a + b, p) == head + Keep(a[1..] + b, p);
    } else {
      assert a + b == b;
    }
  }

  /** When every element passes, the filter returns the list unchanged. */
  lemma {:induction false} KeepEverything<T>(s: seq<T>, p: T -> bool)
    requires forall x :: x in s ==> p(x)
    ensures Keep(s, p) == s
  {
    if s != [] {
      KeepEverything(s[1..], p);
    }
  }
}

/**
 * The police dashboard: the officer's assigned reports with their sighting
 * counters, the search and status filter over them, the "seen" marks, and
 * the photo carousel of the report open in the modal.
 *
 * Fetching, the socket connection and the navbar counter are not modelled;
 * a notification is a call of `OnNotification`, and whether the "mark as
 * seen" request succeeded is an input.
 */
module PoliceDashboard {
  import opened Wrappers
  import opened Text
  import opened ReportLists

  /** The fields of an assigned report the dashboard reads or updates; an absent count is `None`. */
  datatype AssignedReport = AssignedReport(
    id: string, fullName: string, lastSeenLocation: string, status: string, isSeen: bool,
    photo: string, additionalPhotos: seq<string>, notificationCount: Option<int>)

  /** Whether a report passes the search box and the status select. */
  predicate Shown(r: AssignedReport, query: string, statusFilter: string)
  {
    MatchesSearch(r.fullName, r.lastSeenLocation, query) &&
    (statusFilter == "all" || ToLower(r.status) == ToLower(statusFilter))
  }

  /** `filteredReports`. */
  function FilteredReports(reports: seq<AssignedReport>, query: string, statusFilter: string): (r: seq<AssignedReport>)
    ensures forall x :: x in r <==> x in reports && Shown(x, query, statusFilter)
  {
    KeepMembers(reports, x => Shown(x, query, statusFilter));
    Keep(reports, x => Shown(x, query, statusFilter))
  }

  /**
   * The filter works report by report, so it keeps the list's order; with
   * an empty search and "all" it keeps every report.
   */
  lemma FilteredReportsShape(reports: seq<AssignedReport>, more: seq<AssignedReport>, query: string, statusFilter: string)
    ensures FilteredReports(reports + more, query, statusFilter) ==
      FilteredReports(reports, query, statusFilter) + FilteredReports(more, query, statusFilter)
    ensures FilteredReports(reports, "", "all") == reports
  {
    KeepAppend(reports, more, r => Shown(r, query, statusFilter));
    forall r | r in reports
      ensures Shown(r, "", "all")
    {
      EmptySearchMatches(r.fullName, r.lastSeenLocation);
    }
    KeepEverything(reports, r => Shown(r, "", "all"));
  }

  /** `report.notificationCount || 0`. */
  function CountOf(r: AssignedReport): int
  {
    if r.notificationCount.Some? then r.notificationCount.value else 0
  }

  /** The socket handler's map: one more sighting on the report with the notified id. */
  function Bumped(reports: seq<AssignedReport>, missingId: string): (r: seq<AssignedReport>)
    ensures |r| == |reports|
    ensures forall i :: 0 <= i < |reports| && reports[i].id != missingId ==> r[i] == reports[i]
    ensures forall i :: 0 <= i < |reports| && reports[i].id == missingId ==>
      r[i] == reports[i].(notificationCount := Some(CountOf(reports[i]) + 1))
  {
    if reports == [] then []
    else
      [if reports[0].id == missingId then reports[0].(notificationCount := Some(CountOf(reports[0]) + 1)) else reports[0]] +
      Bumped(reports[1..], missingId)
  }

  /** The sum of the counters, an absent one read as 0. */
  function TotalCount(reports: seq<AssignedReport>): int
  {
    if reports == [] then 0 else CountOf(reports[0]) + TotalCount(reports[1..])
  }

  /** How many reports carry `id`. */
  function Occurrences(reports: seq<AssignedReport>, id: string): nat
  {
    if reports == [] then 0 else (if reports[0].id == id then 1 else 0) + Occurrences(reports[1..], id)
  }

  /** A notification adds one sighting per report with that id, so the total grows by exactly that many. */
  lemma {:induction false} BumpedTotal(reports: seq<AssignedReport>, missingId: string)
    ensures TotalCount(Bumped(reports, missingId)) == TotalCount(reports) + Occurrences(reports, missingId)
  {
    if reports != [] {
      BumpedTotal(reports[1..], missingId);
      assert Bumped(reports, missingId)[1..] == Bumped(reports[1..], missingId);
    }
  }

  /** The update of `markReportAsSeen` after the request succeeded. */
  function MarkedSeen(reports: seq<AssignedReport>, reportId: string): (r: seq<AssignedReport>)
    ensures |r| == |reports|
    ensures forall i :: 0 <= i < |reports| && reports[i].id != reportId ==> r[i] == reports[i]
    ensures forall i :: 0 <= i < |reports| && reports[i].id == reportId ==> r[i] == reports[i].(isSeen := true)
  {
    if reports == [] then []
    else [if reports[0].id == reportId then reports[0].(isSeen := true) else reports[0]] + MarkedSeen(reports[1..], reportId)
  }

  /** Marking twice is marking once, and afterwards every report with that id is seen. */
  lemma MarkedSeenIdempotent(reports: seq<AssignedReport>, reportId: string)
    ensures MarkedSeen(MarkedSeen(reports, reportId), reportId) == MarkedSeen(reports, reportId)
    ensures forall r :: r in MarkedSeen(reports, reportId) && r.id == reportId ==> r.isSeen
  {
    var once := MarkedSeen(reports, reportId);
    var twice := MarkedSeen(once, reportId);
    assert |twice| == |once|;
    forall i | 0 <= i < |once|
      ensures twice[i] == once[i]
    {
    }
  }

  /** The pseudo-address shown when an additional photo is missing or empty. */
  const Placeholder := "/placeholder.svg?height=300&width=300"

  /** The image shown at carousel position `index`: 0 is the main photo, `i` the `i`-th additional one. */
  function PhotoAt(report: AssignedReport, index: int): string
  {
    if index == 0 then report.photo
    else if 1 <= index <= |report.additionalPhotos| && report.additionalPhotos[index - 1] != "" then
      report.additionalPhotos[index - 1]
    else Placeholder
  }

  /** The number of images the carousel counts: the main photo and the additional ones. */
  function PhotoCount(report: AssignedReport): nat
  {
    |report.additionalPhotos| + 1
  }

  /** `nextPhoto` as written: it advances only while the index is below `additionalPhotos.length - 1`. */
  function NextIndexAsWritten(index: int, selected: Option<AssignedReport>): int
  {
    if selected.Some? && index < |selected.value.additionalPhotos| - 1 then index + 1 else index
  }

  /** `nextPhoto` as the counter "i of n" and the button's `disabled` test intend: up to the last image. */
  function NextIndex(index: int, selected: Option<AssignedReport>): int
  {
    if selected.Some? && index < |selected.value.additionalPhotos| then index + 1 else index
  }

  /** `prevPhoto`. */
  function PrevIndex(index: int): int
  {
    if index > 0 then index - 1 else index
  }

  /** The next button is enabled while the index is below `additionalPhotos.length`. */
  predicate NextEnabled(index: int, report: AssignedReport)
  {
    index < |report.additionalPhotos|
  }

  datatype Move = Forward | Back

  function RunAsWritten(index: int, selected: Option<AssignedReport>, moves: seq<Move>): int
    decreases |moves|
  {
    if moves == [] then index
    else RunAsWritten(if moves[0] == Forward then NextIndexAsWritten(index, selected) else PrevIndex(index), selected, moves[1..])
  }

  function Run(index: int, selected: Option<AssignedReport>, moves: seq<Move>): int
    decreases |moves|
  {
    if moves == [] then index
    else Run(if moves[0] == Forward then NextIndex(index, selected) else PrevIndex(index), selected, moves[1..])
  }

  /**
   * As written, the index never passes `additionalPhotos.length - 1`
   * (or 0), whatever the clicks, so the last additional photo, at position
   * `additionalPhotos.length`, is never shown.
   */
  lemma {:induction false} AsWrittenMissesLastPhoto(report: AssignedReport, index: int, moves: seq<Move>)
    requires 0 <= index <= Max0(|report.additionalPhotos| - 1)
    ensures 0 <= RunAsWritten(index, Some(report), moves) <= Max0(|report.additionalPhotos| - 1)
    ensures |report.additionalPhotos| >= 1 ==> RunAsWritten(index, Some(report), moves) != |report.additionalPhotos|
    decreases |moves|
  {
    if moves != [] {
      var next := if moves[0] == Forward then NextIndexAsWritten(index, Some(report)) else PrevIndex(index);
      AsWrittenMissesLastPhoto(report, next, moves[1..]);
    }
  }

  function Max0(n: int): nat { if n > 0 then n else 0 }

  /** With one additional photo, the next button is enabled on the main photo but clicking it does nothing. */
  lemma AsWrittenStuckOnMainPhoto()
    ensures var report := AssignedReport("r", "", "", "", false, "main.jpg", ["second.jpg"], None);
      NextEnabled(0, report) && NextIndexAsWritten(0, Some(report)) == 0 &&
      PhotoAt(report, 1) == "second.jpg"
  {
  }

  /** The carousel index stays between the main photo and the last additional one. */
  lemma {:induction false} RunStaysInRange(report: AssignedReport, index: int, moves: seq<Move>)
    requires 0 <= index <= |report.additionalPhotos|
    ensures 0 <= Run(index, Some(report), moves) <= |report.additionalPhotos|
    decreases |moves|
  {
    if moves != [] {
      var next := if moves[0] == Forward then NextIndex(index, Some(report)) else PrevIndex(index);
      RunStaysInRange(report, next, moves[1..]);
    }
  }

  /** `k` clicks on "next" from the main photo show the `k`-th additional photo, the last one included. */
  lemma {:induction false} EveryPhotoReachable(report: AssignedReport, index: int, k: nat)
    requires 0 <= index && index + k <= |report.additionalPhotos|
    ensures Run(index, Some(report), seq(k, _ => Forward)) == index + k
    decreases k
  {
    if k > 0 {
      var moves := seq(k, _ => Forward);
      assert moves[0] == Forward;
      assert moves[1..] == seq(k - 1, _ => Forward);
      EveryPhotoReachable(report, index + 1, k - 1);
    }
  }

  /**
   * `getStatusColor`: pending, active and found get their colours whatever
   * their case; "closed" and everything else are gray.
   */
  function StatusColor(status: string): string
  {
    var s := ToLower(status);
    if s == "pending" then Yellow
    else if s == "active" then Blue
    else if s == "found" then Green
    else Gray
  }

  /** The colour does not depend on the status's case, and only three statuses are not gray. */
  lemma StatusColorCases(status: string)
    ensures StatusColor(status) == StatusColor(ToLower(status))
    ensures StatusColor(status) != Gray <==> ToLower(status) in {"pending", "active", "found"}
  {
    LowerTwice(status);
  }

  /** The dashboard's state. */
  class Dashboard {
    var assignedReports: seq<AssignedReport>
    var selectedReport: Option<AssignedReport>
    var currentPhotoIndex: int
    var showModal: bool
    /** The ids sent to the "mark as seen" endpoint, in order. */
    var seenRequests: seq<string>

    /** The photo index points at an image of the open report. */
    ghost predicate Valid()
      reads this
    {
      0 <= currentPhotoIndex &&
      (selectedReport.Some? ==> currentPhotoIndex <= |selectedReport.value.additionalPhotos|)
    }

    constructor ()
      ensures Valid()
      ensures assignedReports == [] && selectedReport == None && currentPhotoIndex == 0 && !showModal && seenRequests == []
    {
      assignedReports := [];
      selectedReport := None;
      currentPhotoIndex := 0;
      showModal := false;
      seenRequests := [];
    }

    /** The socket's "notification" handler. */
    method OnNotification(missingId: string)
      modifies this`assignedReports
      ensures assignedReports == Bumped(old(assignedReports), missingId)
      ensures TotalCount(assignedReports) == TotalCount(old(assignedReports)) + Occurrences(old(assignedReports), missingId)
    {
      BumpedTotal(assignedReports, missingId);
      assignedReports := Bumped(assignedReports, missingId);
    }

    /** `markReportAsSeen`: the request is sent; only a successful answer marks the report. */
    method MarkReportAsSeen(reportId: string, succeeded: bool)
      modifies this`assignedReports, this`seenRequests
      ensures seenRequests == old(seenRequests) + [reportId]
      ensures assignedReports == if succeeded then MarkedSeen(old(assignedReports), reportId) else old(assignedReports)
    {
      seenRequests := seenRequests + [reportId];
      if succeeded {
        assignedReports := MarkedSeen(assignedReports, reportId);
      }
    }

    /** `handleViewFullReport`: open the report on its main photo, and mark it seen if it was not. */
    method HandleViewFullReport(report: AssignedReport, markSucceeded: bool)
      requires Valid()
      modifies this
      ensures Valid()
      ensures selectedReport == Some(report) && currentPhotoIndex == 0 && showModal
      ensures report.isSeen ==> seenRequests == old(seenRequests) && assignedReports == old(assignedReports)
      ensures !report.isSeen ==> seenRequests == old(seenRequests) + [report.id]
      ensures !report.isSeen && markSucceeded ==> assignedReports == MarkedSeen(old(assignedReports), report.id)
      ensures !report.isSeen && !markSucceeded ==> assignedReports == old(assignedReports)
    {
      selectedReport := Some(report);
      currentPhotoIndex := 0;
      showModal := true;
      if !report.isSeen {
        MarkReportAsSeen(report.id, markSucceeded);
      }
    }

    /** `nextPhoto`, with the bound the carousel's counter and button intend. */
    method NextPhoto()
      requires Valid()
      modifies this`currentPhotoIndex
      ensures Valid()
      ensures currentPhotoIndex == NextIndex(old(currentPhotoIndex), selectedReport)
    {
      if selectedReport.Some? && currentPhotoIndex < |selectedReport.value.additionalPhotos| {
        currentPhotoIndex := currentPhotoIndex + 1;
      }
    }

    /** `prevPhoto`. */
    method PrevPhoto()
      requires Valid()
      modifies this`currentPhotoIndex
      ensures Valid()
      ensures currentPhotoIndex == PrevIndex(old(currentPhotoIndex))
    {
      if currentPhotoIndex > 0 {
        currentPhotoIndex := currentPhotoIndex - 1;
      }
    }
  }
}

/**
 * The "my reports" page: the reporter's own reports, whose counters and
 * status labels follow the police's notifications, the search over them,
 * and the badge and text under each card.
 */
module MyReports {
  import opened Wrappers
  import opened Text
  import opened ReportLists

  /** The fields of a report the page reads or updates; an absent count is `None`. */
  datatype MyReport = MyReport(id: string, fullName: string, lastSeenLocation: string, status: string,
                               notificationCount: Option<int>)

  /** The label a notification's `newStatus` is shown as; anything else, or none, reads "Rejected". */
  function StatusLabel(newStatus: Option<string>): string
  {
    if newStatus == Some("SOLVED") then "Found"
    else if newStatus == Some("SENT_TEAM") then "Investigating"
    else if newStatus == Some("NOTIFIED_FAMILY") then "Awaiting Verification"
    else "Rejected"
  }

  /** The three police decisions get three different labels, and every other value reads "Rejected". */
  lemma StatusLabelCases(newStatus: Option<string>)
    ensures StatusLabel(newStatus) in {"Found", "Investigating", "Awaiting Verification", "Rejected"}
    ensures StatusLabel(newStatus) == "Rejected" <==>
      newStatus !in {Some("SOLVED"), Some("SENT_TEAM"), Some("NOTIFIED_FAMILY")}
    ensures forall other: Option<string> :: StatusLabel(other) == StatusLabel(newStatus) && StatusLabel(newStatus) != "Rejected" ==> other == newStatus
  {
  }

  function CountOf(r: MyReport): int
  {
    if r.notificationCount.Some? then r.notificationCount.value else 0
  }

  /** The socket handler's map: one more update and the new label on the notified report. */
  function Notified(reports: seq<MyReport>, missingId: string, newStatus: Option<string>): (r: seq<MyReport>)
    ensures |r| == |reports|
    ensures forall i :: 0 <= i < |reports| && reports[i].id != missingId ==> r[i] == reports[i]
    ensures forall i :: 0 <= i < |reports| && reports[i].id == missingId ==>
      r[i] == reports[i].(notificationCount := Some(CountOf(reports[i]) + 1), status := StatusLabel(newStatus))
  {
    if reports == [] then []
    else
      [if reports[0].id == missingId
       then reports[0].(notificationCount := Some(CountOf(reports[0]) + 1), status := StatusLabel(newStatus))
       else reports[0]] +
      Notified(reports[1..], missingId, newStatus)
  }

  predicate Matches(r: MyReport, query: string)
  {
    MatchesSearch(r.fullName, r.lastSeenLocation, query)
  }

  /** `filteredReports`: the search only; exactly the matching reports are kept. */
  function FilteredReports(reports: seq<MyReport>, query: string): (r: seq<MyReport>)
    ensures forall x :: x in r <==> x in reports && Matches(x, query)
  {
    KeepMembers(reports, x => Matches(x, query));
    Keep(reports, x => Matches(x, query))
  }

  /** The filter works report by report, so it keeps the list's order, and an empty search keeps every report. */
  lemma FilteredReportsShape(reports: seq<MyReport>, more: seq<MyReport>, query: string)
    ensures FilteredReports(reports + more, query) == FilteredReports(reports, query) + FilteredReports(more, query)
    ensures FilteredReports(reports, "") == reports
  {
    KeepAppend(reports, more, r => Matches(r, query));
    forall r | r in reports
      ensures Matches(r, "")
    {
      EmptySearchMatches(r.fullName, r.lastSeenLocation);
    }
    KeepEverything(reports, r => Matches(r, ""));
  }

  /** `getStatusColor`: gray for a missing or empty status; "investigating" is gray too. */
  function StatusColor(status: Option<string>): string
  {
    if status.None? || status.value == "" then Gray
    else
      var s := ToLower(status.value);
      if s == "pending" then Yellow
      else if s == "active" then Blue
      else if s == "found" then Green
      else Gray
  }

  /** Of the labels a notification sets, only "Found" has a colour of its own. */
  lemma LabelColours(newStatus: Option<string>)
    ensures StatusColor(Some(StatusLabel(newStatus))) == if newStatus == Some("SOLVED") then Green else Gray
  {
    var shown := StatusLabel(newStatus);
    if newStatus == Some("SOLVED") {
      LowerFound();
    } else {
      assert shown[0] == 'I' || shown[0] == 'R' || (shown[0] == 'A' && shown[1] == 'w');
      StartsApart(shown);
    }
  }

  lemma LowerFound()
    ensures ToLower("Found") == "found"
  {
    var t := ToLower("Found");
    assert t[0] == 'f' && t[1] == 'o' && t[2] == 'u' && t[3] == 'n' && t[4] == 'd';
  }

  /** A status starting with 'I', 'R', or 'A' followed by 'w' lowers to none of the coloured statuses. */
  lemma StartsApart(text: string)
    requires |text| >= 2 && (text[0] == 'I' || text[0] == 'R' || (text[0] == 'A' && text[1] == 'w'))
    ensures StatusColor(Some(text)) == Gray
  {
    var t := ToLower(text);
    assert t[0] == LowerChar(text[0]) && t[1] == LowerChar(text[1]);
    assert t != "pending" && t != "found";
    assert t != "active" by {
      if t[0] == 'a' {
        assert t[1] == 'w';
      }
    }
  }

  /** The colour ignores case; only pending, active and found are not gray. */
  lemma StatusColorCases(status: string)
    ensures StatusColor(Some(status)) == StatusColor(Some(ToLower(status)))
    ensures StatusColor(Some(status)) != Gray <==> ToLower(status) in {"pending", "active", "found"}
  {
    LowerTwice(status);
  }

  /** The red bubble on the bell: shown for a positive count, capped at "99+". */
  function Badge(count: Option<int>): Option<string>
  {
    if count.Some? && count.value > 0 then Some(if count.value > 99 then "99+" else IntToString(count.value))
    else None
  }

  /** The text beside the bell; no count and a zero count both read "No new updates". */
  function UpdatesText(count: Option<int>): string
  {
    if count.Some? && count.value != 0 then
      IntToString(count.value) + " new update" + (if count.value != 1 then "s" else "")
    else "No new updates"
  }

  /** The badge shows the count itself from 1 to 99, "99+" above, and nothing otherwise. */
  lemma BadgeShape(count: Option<int>)
    ensures Badge(count).Some? <==> count.Some? && count.value > 0
    ensures count.Some? && count.value > 99 ==> Badge(count) == Some("99+")
    ensures count.Some? && 0 < count.value <= 99 ==>
      |Badge(count).value| <= 2 && ParseInt(Badge(count).value) == Some(count.value)
  {
    if count.Some? && 0 < count.value <= 99 {
      var n := count.value;
      ParseIntOfNat(n);
      assert n >= 10 ==> NatToString(n) == NatToString(n / 10) + [DigitChar(n % 10)];
    }
  }

  /** A positive count is written out, read back by `parseInt`, with "update" plural unless it is 1. */
  lemma UpdatesTextShape(n: nat)
    requires n > 0
    ensures UpdatesText(Some(n)) == NatToString(n) + (if n == 1 then " new update" else " new updates")
    ensures ParseInt(UpdatesText(Some(n))) == Some(n)
    ensures UpdatesText(None) == UpdatesText(Some(0)) == "No new updates"
  {
    var digits := NatToString(n);
    var rest := if n == 1 then " new update" else " new updates";
    assert UpdatesText(Some(n)) == digits + rest;
    assert !IsSpace(digits[0]);
    assert TrimStart(digits + rest) == digits + rest;
    assert (digits + rest)[0] == digits[0];
    DigitPrefixOf(digits, rest);
    DigitsValueOfNat(n);
  }

  /** The page's state. */
  class MyReportsPage {
    var myReports: seq<MyReport>
    var searchQuery: string

    constructor ()
      ensures myReports == [] && searchQuery == ""
    {
      myReports := [];
      searchQuery := "";
    }

    /** The socket's "notification" handler. */
    method OnNotification(missingId: string, newStatus: Option<string>)
      modifies this`myReports
      ensures myReports == Notified(old(myReports), missingId, newStatus)
    {
      myReports := Notified(myReports, missingId, newStatus);
    }
  }
}
