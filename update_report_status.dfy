/**
 * The police's "update report status" route: an officer records a decision
 * on a sighting report, which stores the new status on the report, records
 * the officer's action (one per report, replaced on every decision), and,
 * for "SOLVED" and "SENT_TEAM", moves the missing person's case to "Found"
 * or "Investigating".
 *
 * The database is a value of four collections. Each write is applied where
 * the route makes it and is not undone when a later step fails: the route
 * has no transaction. A write the database refuses ends the request with
 * 500, as the route's `catch` does.
 */
module ReportStatusRoute {
  import opened Wrappers
  import opened MyReports

  /** `PoliceActionType`. */
  datatype ActionType = SentTeam | Solved | Reject | NotifiedFamily

  datatype Sighting = Sighting(status: string, showUser: bool, isSentVerification: bool, missingPersonId: string)

  /** The one action recorded on a sighting report. */
  datatype PoliceAction = PoliceAction(actionTaken: ActionType, policeId: string)

  /**
   * The database as the route sees it: the officers' user ids, the
   * sighting reports and their actions by report id, and each missing
   * person's case status by id.
   */
  datatype Db = Db(officers: set<string>, sightings: map<string, Sighting>, actions: map<string, PoliceAction>,
                   personStatus: map<string, string>)

  datatype Reply =
    | Updated(report: Sighting, action: PoliceAction)  // 200
    | InvalidOfficer                                   // 400
    | ReportNotFound                                   // 404
    | ServerError                                      // 500

  function Code(r: Reply): int
  {
    match r
    case Updated(_, _) => 200
    case InvalidOfficer => 400
    case ReportNotFound => 404
    case ServerError => 500
  }

  /** The `switch` on the status: three statuses name their action, every other one is "family notified". */
  function ActionFor(status: string): ActionType
  {
    if status == "SENT_TEAM" then SentTeam
    else if status == "SOLVED" then Solved
    else if status == "REJECT" then Reject
    else NotifiedFamily
  }

  /** The case status a decision moves the missing person to, if any. */
  function CaseStatus(status: string): Option<string>
  {
    if status == "SOLVED" then Some("Found")
    else if status == "SENT_TEAM" then Some("Investigating")
    else None
  }

  /** The request, step by step, from a database to the database afterwards and the reply. */
  function PutSpec(db: Db, reportId: string, status: string, policeId: string): (Db, Reply)
  {
    if policeId !in db.officers then (db, InvalidOfficer)
    else if reportId !in db.sightings then
      // The "NOTIFIED_FAMILY" flags are written before the existence check; updating a missing record throws.
      (db, if status == "NOTIFIED_FAMILY" then ServerError else ReportNotFound)
    else
      var found := db.sightings[reportId];
      var flagged := if status == "NOTIFIED_FAMILY" then found.(showUser := true, isSentVerification := true) else found;
      var report := flagged.(status := status);
      var action := PoliceAction(ActionFor(status), policeId);
      var written := db.(sightings := db.sightings[reportId := report], actions := db.actions[reportId := action]);
      match CaseStatus(status)
      case None => (written, Updated(report, action))
      case Some(c) =>
        if found.missingPersonId in db.personStatus then
          (written.(personStatus := db.personStatus[found.missingPersonId := c]), Updated(report, action))
        else (written, ServerError)
  }

  /** Only three statuses name their own action; all others, "NOTIFIED_FAMILY" and unknown ones alike, notify the family. */
  lemma ActionForCases(status: string)
    ensures ActionFor(status) == SentTeam <==> status == "SENT_TEAM"
    ensures ActionFor(status) == Solved <==> status == "SOLVED"
    ensures ActionFor(status) == Reject <==> status == "REJECT"
    ensures ActionFor(status) == NotifiedFamily <==> status !in {"SENT_TEAM", "SOLVED", "REJECT"}
  {
  }

  /** An unknown officer gets 400 and nothing is written; an officer never appears or disappears. */
  lemma UnknownOfficerWritesNothing(db: Db, reportId: string, status: string, policeId: string)
    ensures PutSpec(db, reportId, status, policeId).0.officers == db.officers
    ensures Code(PutSpec(db, reportId, status, policeId).1) == 400 <==> policeId !in db.officers
    ensures policeId !in db.officers ==> PutSpec(db, reportId, status, policeId).0 == db
  {
  }

  /**
   * For a known officer and an unknown report nothing is written, and the
   * reply is 500 for "NOTIFIED_FAMILY" (its early write fails) and 404
   * for every other status.
   */
  lemma MissingReport(db: Db, reportId: string, status: string, policeId: string)
    requires policeId in db.officers && reportId !in db.sightings
    ensures PutSpec(db, reportId, status, policeId).0 == db
    ensures Code(PutSpec(db, reportId, status, policeId).1) == if status == "NOTIFIED_FAMILY" then 500 else 404
  {
  }

  /**
   * On an existing report the status is stored as given, the report's one
   * action becomes the mapped type by this officer, the verification flags
   * are raised only for "NOTIFIED_FAMILY", and no other report or action
   * changes.
   */
  lemma ExistingReport(db: Db, reportId: string, status: string, policeId: string)
    requires policeId in db.officers && reportId in db.sightings
    ensures var after := PutSpec(db, reportId, status, policeId).0;
      var before := db.sightings[reportId];
      reportId in after.sightings && reportId in after.actions &&
      after.sightings[reportId].status == status &&
      after.sightings[reportId].missingPersonId == before.missingPersonId &&
      after.actions[reportId] == PoliceAction(ActionFor(status), policeId) &&
      (status == "NOTIFIED_FAMILY" ==> after.sightings[reportId].showUser && after.sightings[reportId].isSentVerification) &&
      (status != "NOTIFIED_FAMILY" ==> after.sightings[reportId].showUser == before.showUser &&
                                       after.sightings[reportId].isSentVerification == before.isSentVerification) &&
      after.sightings.Keys == db.sightings.Keys && after.actions.Keys == db.actions.Keys + {reportId} &&
      (forall id :: id in db.sightings && id != reportId ==> after.sightings[id] == db.sightings[id]) &&
      (forall id :: id in db.actions && id != reportId ==> after.actions[id] == db.actions[id])
  {
  }

  /**
   * The missing person's case moves to "Found" on "SOLVED" and to
   * "Investigating" on "SENT_TEAM"; other statuses leave every case alone,
   * and the reply is 200 unless the person's record is missing.
   */
  lemma CaseStatusAfter(db: Db, reportId: string, status: string, policeId: string)
    requires policeId in db.officers && reportId in db.sightings
    ensures var (after, reply) := PutSpec(db, reportId, status, policeId);
      var person := db.sightings[reportId].missingPersonId;
      (CaseStatus(status).None? ==> after.personStatus == db.personStatus && reply.Updated?) &&
      (CaseStatus(status).Some? && person in db.personStatus ==>
         reply.Updated? && after.personStatus == db.personStatus[person := CaseStatus(status).value]) &&
      (CaseStatus(status).Some? && person !in db.personStatus ==>
         Code(reply) == 500 && after.personStatus == db.personStatus)
  {
  }

  /** Sending the same decision twice leaves the database as sending it once. */
  lemma PutIdempotent(db: Db, reportId: string, status: string, policeId: string)
    ensures var once := PutSpec(db, reportId, status, policeId).0;
      PutSpec(once, reportId, status, policeId).0 == once
  {
    var once := PutSpec(db, reportId, status, policeId).0;
    if policeId in db.officers && reportId in db.sightings {
      var found := db.sightings[reportId];
      assert once.sightings[reportId].missingPersonId == found.missingPersonId;
      assert once.sightings[reportId := once.sightings[reportId]] == once.sightings;
      assert once.actions[reportId := once.actions[reportId]] == once.actions;
      var c := CaseStatus(status);
      if c.Some? && found.missingPersonId in db.personStatus {
        assert once.personStatus[found.missingPersonId := c.value] == once.personStatus;
      }
    }
  }

  /** The case status the route writes is the label the reporter's page shows for the same decision. */
  lemma CaseStatusMatchesReporterLabel(status: string)
    requires CaseStatus(status).Some?
    ensures CaseStatus(status).value == StatusLabel(Some(status))
  {
  }

  /** The database behind the route. */
  class Store {
    var officers: set<string>
    var sightings: map<string, Sighting>
    var actions: map<string, PoliceAction>
    var personStatus: map<string, string>

    function State(): Db
      reads this
    {
      Db(officers, sightings, actions, personStatus)
    }

    constructor (db: Db)
      ensures State() == db
    {
      officers := db.officers;
      sightings := db.sightings;
      actions := db.actions;
      personStatus := db.personStatus;
    }

    /** `PUT`: the route's writes in the route's order. */
    method Put(reportId: string, status: string, policeId: string) returns (reply: Reply)
      modifies this
      ensures (State(), reply) == PutSpec(old(State()), reportId, status, policeId)
    {
      if policeId !in officers {
        return InvalidOfficer;
      }
      var found := if reportId in sightings then Some(sightings[reportId]) else None;
      if status == "NOTIFIED_FAMILY" {
        if reportId !in sightings {
          return ServerError;
        }
        sightings := sightings[reportId := sightings[reportId].(showUser := true, isSentVerification := true)];
      }
      if found.None? {
        return ReportNotFound;
      }
      var report := sightings[reportId].(status := status);
      sightings := sightings[reportId := report];
      var action := PoliceAction(ActionFor(status), policeId);
      if reportId in actions {
        actions := actions[reportId := actions[reportId].(actionTaken := action.actionTaken, policeId := policeId)];
      } else {
        actions := actions[reportId := action];
      }
      assert actions == old(actions)[reportId := action];
      assert sightings == old(sightings)[reportId := report];
      var person := found.value.missingPersonId;
      if status == "SOLVED" || status == "SENT_TEAM" {
        if person !in personStatus {
          return ServerError;
        }
        personStatus := personStatus[person := if status == "SOLVED" then "Found" else "Investigating"];
      }
      return Updated(report, action);
    }
  }
}
