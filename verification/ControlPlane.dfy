/** The control plane's policy and result tables: which actions a device is assigned, how a reported
    result is stored, and how compliance is derived from stored results. */
module ControlPlane {
  import opened Actions
  import AgentStore
  import Executor
  import opened Order

  const ON_DEVICE := 1
  const ON_GROUP := 2

  datatype Assignment = Assignment(actionId: string, targetType: int, targetId: string)
  datatype Member = Member(group: string, device: string)
  datatype StoredResult = StoredResult(device: string, result: ActionResult)

  /** An audit event of an accepted result. The stored event names action and device; `run` records
      which result's transaction wrote it. */
  datatype AuditEvent = AuditEvent(actionId: string, device: string, run: string)

  /** `actions` and `results` are keyed by their primary keys. */
  datatype Database = Database(
    actions: map<string, Action>, assignments: map<string, Assignment>,
    members: set<Member>, devices: set<string>,
    results: map<string, StoredResult>, audits: seq<AuditEvent>)

  /** Foreign keys hold, and every stored definition carries the identifier of its row. */
  ghost predicate Consistent(db: Database) {
    && (forall id :: id in db.actions ==> id != "" && db.actions[id].id == id)
    && (forall s :: s in db.assignments ==> db.assignments[s].actionId in db.actions)
    && (forall s :: s in db.assignments && db.assignments[s].targetType == ON_DEVICE ==>
          db.assignments[s].targetId in db.devices)
    && (forall m :: m in db.members ==> m.device in db.devices)
    && (forall r :: r in db.results ==>
          && db.results[r].device in db.devices && db.results[r].result.actionId in db.actions
          && db.results[r].result.runId == r)
  }

  // ---------------------------------------------------------------- the two assignment queries

  /** "Assigned directly or through a group": the meaning both queries must have. */
  ghost predicate Assigned(db: Database, device: string, id: string) {
    && id in db.actions
    && exists s :: s in db.assignments && db.assignments[s].actionId == id && Targets(db, db.assignments[s], device)
  }

  predicate Targets(db: Database, a: Assignment, device: string) {
    || (a.targetType == ON_DEVICE && a.targetId == device)
    || (a.targetType == ON_GROUP && Member(a.targetId, device) in db.members)
  }

  /** The join condition between an assignment and a group membership. */
  predicate JoinsMember(a: Assignment, m: Member, device: string) {
    a.targetType == ON_GROUP && a.targetId == m.group && m.device == device
  }

  /** One row of assignments LEFT JOIN members; `None` is the NULL-extended row. */
  datatype Joined = Joined(assignment: string, member: Option<Member>)

  function LeftJoin(db: Database, device: string): set<Joined> {
    (set s, m | s in db.assignments && m in db.members && JoinsMember(db.assignments[s], m, device) ::
       Joined(s, Some(m)))
    + (set s | s in db.assignments && (forall m :: m in db.members ==> !JoinsMember(db.assignments[s], m, device)) ::
         Joined(s, None))
  }

  predicate Selects(db: Database, j: Joined, device: string)
    requires j.assignment in db.assignments
  {
    var a := db.assignments[j.assignment];
    || (a.targetType == ON_DEVICE && a.targetId == device)
    || (a.targetType == ON_GROUP && j.member.Some?)
  }

  /** The policy query: join first, then filter, project and DISTINCT. */
  function ListActionsForDevice(db: Database, device: string): set<string> {
    set id, j | id in db.actions && j in LeftJoin(db, device) && j.assignment in db.assignments
                && db.assignments[j.assignment].actionId == id && Selects(db, j, device) :: id
  }

  /** The compliance query: one correlated EXISTS per action. */
  function ListComplianceActions(db: Database, device: string): set<string> {
    set id | id in db.actions &&
      exists j :: j in LeftJoin(db, device) && j.assignment in db.assignments
                  && db.assignments[j.assignment].actionId == id && Selects(db, j, device)
  }

  lemma JoinSelectsTargets(db: Database, device: string, s: string)
    requires s in db.assignments
    ensures Targets(db, db.assignments[s], device) <==>
      exists j :: j in LeftJoin(db, device) && j.assignment == s && Selects(db, j, device)
  {
    var a := db.assignments[s];
    if Targets(db, a, device) {
      if a.targetType == ON_GROUP {
        assert JoinsMember(a, Member(a.targetId, device), device);
        assert Joined(s, Some(Member(a.targetId, device))) in LeftJoin(db, device);
      } else {
        assert forall m :: m in db.members ==> !JoinsMember(a, m, device);
        assert Joined(s, None) in LeftJoin(db, device);
      }
    }
    if j :| j in LeftJoin(db, device) && j.assignment == s && Selects(db, j, device) {
      if a.targetType == ON_GROUP {
        assert JoinsMember(a, j.member.value, device);
        assert j.member.value == Member(a.targetId, device);
      }
    }
  }

  /** Both queries select exactly the actions assigned directly or through a group. */
  lemma QueriesAgree(db: Database, device: string)
    ensures ListActionsForDevice(db, device) == ListComplianceActions(db, device)
    ensures forall id :: id in ListActionsForDevice(db, device) <==> Assigned(db, device, id)
    ensures forall id :: id in ListActionsForDevice(db, device) <==>
      && id in db.actions
      && exists s :: && s in db.assignments && db.assignments[s].actionId == id
                     && var a := db.assignments[s];
                        || (a.targetType == 1 && a.targetId == device)
                        || (a.targetType == 2 && Member(a.targetId, device) in db.members)
  {
    forall id ensures id in ListComplianceActions(db, device) <==> Assigned(db, device, id) {
      if s :| && id in db.actions && s in db.assignments && db.assignments[s].actionId == id
              && Targets(db, db.assignments[s], device) {
        JoinSelectsTargets(db, device, s);
      }
      if id in ListComplianceActions(db, device) {
        var j :| j in LeftJoin(db, device) && j.assignment in db.assignments
                 && db.assignments[j.assignment].actionId == id && Selects(db, j, device);
        JoinSelectsTargets(db, device, j.assignment);
      }
    }
  }

  /** The rows of a DISTINCT query, in some order: every selected action once. */
  ghost predicate DistinctRows(ids: seq<string>, s: set<string>) {
    && (forall i, j :: 0 <= i < j < |ids| ==> ids[i] != ids[j])
    && (forall id :: id in ids <==> id in s)
  }

  /** The policy message compiled for a device, in the order the rows arrive. */
  function DesiredPolicy(db: Database, ids: seq<string>): AgentStore.Policy
    requires forall i :: 0 <= i < |ids| ==> ids[i] in db.actions
  {
    seq(|ids|, i requires 0 <= i < |ids| => Some(db.actions[ids[i]]))
  }

  /** The agent never rejects a policy the server compiled, and it decodes to exactly the current
      definitions of the assigned actions. */
  lemma PolicyIsWellFormed(db: Database, device: string, ids: seq<string>)
    requires Consistent(db) && DistinctRows(ids, ListActionsForDevice(db, device))
    ensures forall i :: 0 <= i < |ids| ==> ids[i] in db.actions
    ensures AgentStore.WellFormed(DesiredPolicy(db, ids))
    ensures var d := AgentStore.Desired(DesiredPolicy(db, ids));
      forall id :: (id in d <==> Assigned(db, device, id)) && (id in d ==> d[id] == db.actions[id])
  {
    QueriesAgree(db, device);
    forall i | 0 <= i < |ids| ensures ids[i] in db.actions && ids[i] != "" && db.actions[ids[i]].id == ids[i] {
      assert ids[i] in ListActionsForDevice(db, device);
    }
    var p := DesiredPolicy(db, ids);
    assert AgentStore.WellFormed(p);
    var d := AgentStore.Desired(p);
    forall id ensures (id in d <==> Assigned(db, device, id)) && (id in d ==> d[id] == db.actions[id]) {
      AgentStore.DesiredLookup(p, id);
      if Assigned(db, device, id) {
        var i :| 0 <= i < |ids| && ids[i] == id;
        assert p[i].value.id == id;
      }
      if id in d {
        var i :| 0 <= i < |p| && p[i] == Some(d[id]);
        assert db.actions[ids[i]].id == ids[i] == id;
      }
    }
  }

  // ---------------------------------------------------------------- storing a result

  datatype Verdict = Accepted | Rejected | Failure

  /** Timestamps outside the years 1 to 9999 are invalid. */
  predicate ValidTimestamp(t: Time) {
    -62_135_596_800_000_000_000 <= t < 253_402_300_800_000_000_000
  }

  predicate Reportable(r: ActionResult) {
    r.completedAt.Some? && Is32(r.digest) && ValidTimestamp(r.completedAt.value)
  }

  function StoreVerdict(db: Database, device: string, r: ActionResult): Verdict {
    if !Reportable(r) then Rejected
    else if r.runId in db.results then
      if db.results[r.runId] == StoredResult(device, r) then Accepted else Rejected
    else if r.actionId !in ListActionsForDevice(db, device) then Rejected
    else if r.actionId !in db.actions || db.actions[r.actionId].id != r.actionId then Failure
    else Accepted
  }

  function StoreResult(db: Database, device: string, r: ActionResult): Database {
    if StoreVerdict(db, device, r) == Accepted && r.runId !in db.results
    then db.(results := db.results[r.runId := StoredResult(device, r)],
             audits := db.audits + [AuditEvent(r.actionId, device, r.runId)])
    else db
  }

  /** A report the server can take in: completed at a time of the years 1 to 9999, under a 32-byte digest. */
  predicate WellFormedReport(r: ActionResult) {
    && r.completedAt.Some?
    && -62_135_596_800 * 1_000_000_000 <= r.completedAt.value < 253_402_300_800 * 1_000_000_000
    && (r.digest.Sha256? || |r.digest.bytes| == 32)
  }

  /** The verdict on a report, whatever its status: a first report is accepted exactly when it is well formed
      and its action is assigned to the device, and otherwise rejected; a repeated one is accepted exactly
      when it is well formed and device and payload are those stored, and otherwise rejected. */
  lemma VerdictIff(db: Database, device: string, r: ActionResult)
    requires Consistent(db)
    ensures r.runId !in db.results ==>
      (StoreVerdict(db, device, r) == Accepted <==> WellFormedReport(r) && Assigned(db, device, r.actionId))
    ensures r.runId in db.results ==>
      (StoreVerdict(db, device, r) == Accepted <==>
       WellFormedReport(r) && db.results[r.runId].device == device && db.results[r.runId].result == r)
    ensures StoreVerdict(db, device, r) == Accepted || StoreVerdict(db, device, r) == Rejected
  {
    QueriesAgree(db, device);
    hide ListActionsForDevice;
  }

  /** What storing a report leaves: a first accepted one adds its row and exactly one audit event, and
      anything else leaves every table as it was. */
  lemma StoreAddsOneRow(db: Database, device: string, r: ActionResult)
    ensures var db' := StoreResult(db, device, r);
      if StoreVerdict(db, device, r) == Accepted && r.runId !in db.results then
        && db'.results.Keys == db.results.Keys + {r.runId}
        && db'.results[r.runId] == StoredResult(device, r)
        && (forall run :: run in db.results ==> db'.results[run] == db.results[run])
        && db'.audits == db.audits + [AuditEvent(r.actionId, device, r.runId)]
        && db'.actions == db.actions && db'.assignments == db.assignments
        && db'.members == db.members && db'.devices == db.devices
      else db' == db
  {
    hide StoreVerdict;
  }

  /** Any accepted report is stored with exactly this payload; storing again changes nothing, is
      accepted again, and a report that is not accepted leaves the tables alone. */
  lemma StoreIsIdempotent(db: Database, device: string, r: ActionResult)
    ensures var db1 := StoreResult(db, device, r);
      && (StoreVerdict(db, device, r) == Accepted ==>
            r.runId in db1.results && db1.results[r.runId] == StoredResult(device, r)
            && StoreVerdict(db1, device, r) == Accepted && StoreResult(db1, device, r) == db1)
      && (StoreVerdict(db, device, r) != Accepted ==> db1 == db)
      && (forall run :: run in db.results ==> run in db1.results && db1.results[run] == db.results[run])
  {
  }

  /** The result tables as an object; one call is one transaction. */
  class ResultStore {
    var db: Database

    constructor (initial: Database)
      ensures db == initial
    {
      db := initial;
    }

    /** `rows` are the rows the policy query returns for the device, in query order. */
    method StoreActionResult(device: string, r: ActionResult, rows: seq<string>) returns (v: Verdict)
      requires DistinctRows(rows, ListActionsForDevice(db, device))
      modifies this
      ensures v == StoreVerdict(old(db), device, r)
      ensures db == StoreResult(old(db), device, r)
    {
      if r.completedAt.None? || !Is32(r.digest) || !ValidTimestamp(r.completedAt.value) { return Rejected; }
      if r.runId in db.results {
        var existing := db.results[r.runId];
        if existing.device == device && existing.result == r { return Accepted; }
        return Rejected;
      }
      var found: Option<string> := None;
      for i := 0 to |rows|
        invariant found.None? && (forall j :: 0 <= j < i ==> rows[j] != r.actionId)
        invariant db == old(db)
      {
        if rows[i] == r.actionId {
          found := Some(rows[i]);
          break;
        }
      }
      assert found.Some? <==> r.actionId in rows;
      if found.None? { return Rejected; }
      if r.actionId !in db.actions || db.actions[r.actionId].id != r.actionId { return Failure; }
      db := db.(results := db.results[r.runId := StoredResult(device, r)],
                audits := db.audits + [AuditEvent(r.actionId, device, r.runId)]);
      return Accepted;
    }
  }

  // ---------------------------------------------------------------- compliance

  datatype Compliance = Unspecified | Compliant | Waiting | NonCompliant

  function ComplianceStatus(a: Action, r: Option<ActionResult>): Compliance {
    if !IsComplianceAction(a) then Unspecified
    else if r.None? then Waiting
    else if ActionDigest(a) != r.value.digest then Waiting
    else if r.value.status == Success && r.value.detection.Some? && r.value.detection.value.exitCode == 0 then Compliant
    else NonCompliant
  }

  /** The later of two results of one action: by completion time, then by run identifier. */
  predicate Before(a: ActionResult, b: ActionResult) {
    && a.completedAt.Some? && b.completedAt.Some?
    && (a.completedAt.value < b.completedAt.value
        || (a.completedAt.value == b.completedAt.value && Less(a.runId, b.runId)))
  }

  predicate IsResultOf(r: StoredResult, device: string, id: string) {
    r.device == device && r.result.actionId == id
  }

  /** The correlated sub-select: the newest stored result of this action on this device, if any. */
  ghost predicate IsLatest(db: Database, device: string, id: string, r: Option<ActionResult>) {
    match r
    case None => forall run :: run in db.results ==> !IsResultOf(db.results[run], device, id)
    case Some(x) =>
      && x.runId in db.results && db.results[x.runId] == StoredResult(device, x) && x.actionId == id
      && (forall run :: run in db.results && IsResultOf(db.results[run], device, id) && run != x.runId ==>
            Before(db.results[run].result, x))
  }

  /** The newest result is unique: every other result of the action on the device completed earlier, or at
      the same time under a smaller run identifier. */
  lemma LatestMeans(db: Database, device: string, id: string, x: ActionResult, y: ActionResult)
    requires Consistent(db) && IsLatest(db, device, id, Some(x))
    requires y.runId in db.results && db.results[y.runId] == StoredResult(device, y) && y.actionId == id && y != x
    ensures x.completedAt.Some? && y.completedAt.Some?
    ensures y.completedAt.value < x.completedAt.value ||
            (y.completedAt.value == x.completedAt.value && Less(y.runId, x.runId))
    ensures !IsLatest(db, device, id, Some(y)) && !IsLatest(db, device, id, None)
  {
    assert y.runId != x.runId;
    LessIrreflexive(x.runId);
    if Less(y.runId, x.runId) && Less(x.runId, y.runId) { LessTransitive(x.runId, y.runId, x.runId); }
  }

  /** A result says something about the current definition only if it carries its digest. */
  predicate IsCurrent(a: Action, r: Option<ActionResult>) {
    r.Some? && r.value.digest == Sha256(a)
  }

  /** The status of a compliance check: waiting exactly while there is no result of the current definition,
      and then compliant exactly when that result is a clean detection. */
  lemma CheckIff(a: Action, r: Option<ActionResult>)
    requires a.params.Shell? && a.params.shell.Some? && a.params.shell.value.isCompliance
    ensures ComplianceStatus(a, r) == Waiting <==> !IsCurrent(a, r)
    ensures ComplianceStatus(a, r) == Compliant <==> IsCurrent(a, r) && Executor.CleanDetection(r.value)
    ensures ComplianceStatus(a, r) == NonCompliant <==> IsCurrent(a, r) && !Executor.CleanDetection(r.value)
  {
  }

  /** One row of the compliance query. */
  datatype CheckRow = CheckRow(action: Action, result: Option<ActionResult>)

  datatype Summary = Summary(status: Compliance, passing: nat, checks: seq<Compliance>)

  function Severity(c: Compliance): nat {
    match c case Unspecified => 0 case Compliant => 1 case Waiting => 2 case NonCompliant => 3
  }

  function RowStatus(row: CheckRow): Compliance {
    ComplianceStatus(row.action, row.result)
  }

  function CheckStatuses(rows: seq<CheckRow>): seq<Compliance> {
    if rows == [] then []
    else CheckStatuses(rows[..|rows| - 1]) +
         (if IsComplianceAction(rows[|rows| - 1].action) then [RowStatus(rows[|rows| - 1])] else [])
  }

  /** The summary status is the most severe check, whatever order they come in. */
  ghost predicate MostSevere(status: Compliance, checks: seq<Compliance>) {
    && (forall c :: c in checks ==> Severity(c) <= Severity(status))
    && (status in checks || (status == Unspecified && checks == []))
  }

  /** What the summary of the rows is: one check per compliance action, the most severe of them as status,
      and the exact number of compliant ones. */
  ghost predicate Summarises(s: Summary, rows: seq<CheckRow>) {
    s.checks == CheckStatuses(rows) && MostSevere(s.status, s.checks) && s.passing == multiset(s.checks)[Compliant]
  }

  /** The rows of the compliance query for a device: each selected action once, with its current definition
      and its newest result. */
  ghost predicate ComplianceRows(db: Database, device: string, ids: seq<string>, rows: seq<CheckRow>) {
    && DistinctRows(ids, ListComplianceActions(db, device)) && |rows| == |ids|
    && forall i :: 0 <= i < |ids| ==>
         && ids[i] in db.actions && rows[i].action == db.actions[ids[i]]
         && IsLatest(db, device, ids[i], rows[i].result)
  }

  ghost predicate AssignedCheck(db: Database, device: string, id: string) {
    Assigned(db, device, id) && IsComplianceAction(db.actions[id])
  }

  lemma {:induction false} StatusOfRow(rows: seq<CheckRow>, i: nat)
    requires i < |rows| && IsComplianceAction(rows[i].action)
    ensures RowStatus(rows[i]) in CheckStatuses(rows)
    decreases |rows|
  {
    hide ComplianceStatus, IsComplianceAction;
    if i < |rows| - 1 {
      StatusOfRow(rows[..|rows| - 1], i);
    } else {
      var last := CheckStatuses(rows);
      assert last[|last| - 1] == RowStatus(rows[i]);
    }
  }

  lemma {:induction false} RowOfStatus(rows: seq<CheckRow>, c: Compliance) returns (i: nat)
    requires c in CheckStatuses(rows)
    ensures i < |rows| && IsComplianceAction(rows[i].action) && RowStatus(rows[i]) == c
    decreases |rows|
  {
    hide ComplianceStatus, IsComplianceAction;
    var front := rows[..|rows| - 1];
    if c in CheckStatuses(front) {
      i := RowOfStatus(front, c);
    } else {
      i := |rows| - 1;
    }
  }

  /** In a compliant summary every check is compliant, so all of them are counted as passing. */
  lemma {:induction false} AllCompliant(checks: seq<Compliance>)
    requires forall i :: 0 <= i < |checks| ==> checks[i] == Compliant
    ensures multiset(checks)[Compliant] == |checks|
  {
    if checks != [] {
      var front := checks[..|checks| - 1];
      assert checks == front + [Compliant];
      AllCompliant(front);
    }
  }

  lemma CompliantSummary(db: Database, device: string, ids: seq<string>, rows: seq<CheckRow>, s: Summary)
    requires ComplianceRows(db, device, ids, rows) && Summarises(s, rows) && s.status == Compliant
    ensures (exists id :: AssignedCheck(db, device, id)) && s.passing == |s.checks|
  {
    forall i | 0 <= i < |s.checks| ensures s.checks[i] == Compliant { ChecksAreSpecified(rows, s.checks[i]); }
    AllCompliant(s.checks);
    var i := RowOfStatus(rows, Compliant);
    QueriesAgree(db, device);
    assert AssignedCheck(db, device, ids[i]);
  }

  lemma {:induction false} ChecksAreSpecified(rows: seq<CheckRow>, c: Compliance)
    requires c in CheckStatuses(rows)
    ensures c != Unspecified
    decreases |rows|
  {
    if c in CheckStatuses(rows[..|rows| - 1]) { ChecksAreSpecified(rows[..|rows| - 1], c); }
  }

  /** An assigned compliance action of a compliant device has a newest result, and that is compliant. */
  lemma CompliantCheck(db: Database, device: string, ids: seq<string>, rows: seq<CheckRow>, s: Summary, id: string)
    returns (x: ActionResult)
    requires ComplianceRows(db, device, ids, rows) && Summarises(s, rows) && s.status == Compliant
    requires AssignedCheck(db, device, id)
    ensures id in db.actions && IsLatest(db, device, id, Some(x))
    ensures ComplianceStatus(db.actions[id], Some(x)) == Compliant
  {
    hide CheckStatuses, IsLatest;
    QueriesAgree(db, device);
    var i :| 0 <= i < |ids| && ids[i] == id;
    StatusOfRow(rows, i);
    ChecksAreSpecified(rows, RowStatus(rows[i]));
    assert Severity(RowStatus(rows[i])) <= Severity(Compliant);
    x := rows[i].result.value;
  }

  /** The switch of the status loop: whether a check takes over the status. */
  predicate Escalates(status: Compliance, check: Compliance) {
    || check == NonCompliant
    || (check == Waiting && status != NonCompliant)
    || (check == Compliant && status == Unspecified)
  }

  /** Some assigned compliance action is in this state, judged by its newest result. */
  ghost predicate SomeCheck(db: Database, device: string, c: Compliance) {
    exists id, r :: CheckIn(db, device, id, r, c)
  }

  ghost predicate CheckIn(db: Database, device: string, id: string, r: Option<ActionResult>, c: Compliance) {
    && AssignedCheck(db, device, id) && IsLatest(db, device, id, r)
    && match c
       case NonCompliant => IsCurrent(db.actions[id], r) && !Executor.CleanDetection(r.value)
       case Waiting => !IsCurrent(db.actions[id], r)
       case Compliant => IsCurrent(db.actions[id], r) && Executor.CleanDetection(r.value)
       case Unspecified => false
  }

  /** The status of a device, from its assigned compliance actions and their newest results alone: it is
      non-compliant exactly if one of them was last seen deviating in its current definition, else waiting
      exactly if one of them has no result of its current definition, else compliant exactly if there is one. */
  lemma DeviceStatusIff(db: Database, device: string, ids: seq<string>, rows: seq<CheckRow>, s: Summary)
    requires ComplianceRows(db, device, ids, rows) && Summarises(s, rows)
    ensures s.status == NonCompliant <==> SomeCheck(db, device, NonCompliant)
    ensures s.status == Waiting <==> SomeCheck(db, device, Waiting) && !SomeCheck(db, device, NonCompliant)
    ensures s.status == Compliant <==>
      && SomeCheck(db, device, Compliant)
      && !SomeCheck(db, device, Waiting) && !SomeCheck(db, device, NonCompliant)
  {
    hide MostSevere, SomeCheck, ComplianceRows, CheckStatuses;
    ChecksAreStates(db, device, ids, rows, NonCompliant);
    ChecksAreStates(db, device, ids, rows, Waiting);
    ChecksAreStates(db, device, ids, rows, Compliant);
    SevereIff(s.status, s.checks);
    if Unspecified in s.checks { ChecksAreSpecified(rows, Unspecified); }
  }

  lemma SevereIff(status: Compliance, checks: seq<Compliance>)
    requires MostSevere(status, checks)
    ensures status == NonCompliant <==> NonCompliant in checks
    ensures status == Waiting <==> Waiting in checks && NonCompliant !in checks
    ensures status == Compliant <==> Compliant in checks && Waiting !in checks && NonCompliant !in checks
  {
  }

  /** A status occurs among the checks exactly if some assigned compliance action is in that state. */
  lemma ChecksAreStates(db: Database, device: string, ids: seq<string>, rows: seq<CheckRow>, c: Compliance)
    requires ComplianceRows(db, device, ids, rows) && c != Unspecified
    ensures c in CheckStatuses(rows) <==> SomeCheck(db, device, c)
  {
    hide CheckStatuses, IsLatest, ListComplianceActions, ListActionsForDevice;
    QueriesAgree(db, device);
    if c in CheckStatuses(rows) {
      var i := RowOfStatus(rows, c);
      CheckIff(rows[i].action, rows[i].result);
      assert CheckIn(db, device, ids[i], rows[i].result, c);
    }
    if SomeCheck(db, device, c) {
      var id, r :| CheckIn(db, device, id, r, c);
      var i :| 0 <= i < |ids| && ids[i] == id;
      OneLatest(db, device, id, r, rows[i].result);
      CheckIff(rows[i].action, rows[i].result);
      StatusOfRow(rows, i);
    }
  }

  lemma OneLatest(db: Database, device: string, id: string, x: Option<ActionResult>, y: Option<ActionResult>)
    requires IsLatest(db, device, id, x) && IsLatest(db, device, id, y)
    ensures x == y
  {
    if x.Some? && y.Some? && x != y {
      assert x.value.runId != y.value.runId;
      LessIrreflexive(x.value.runId);
      if Less(x.value.runId, y.value.runId) && Less(y.value.runId, x.value.runId) {
        LessTransitive(x.value.runId, y.value.runId, x.value.runId);
      }
    }
  }

  /** One more check: the switch of the status loop keeps the most severe status. */
  lemma OneMoreCheck(status: Compliance, checks: seq<Compliance>, check: Compliance, next: Compliance)
    requires MostSevere(status, checks) && Unspecified !in checks && check != Unspecified
    requires next == if Escalates(status, check) then check else status
    ensures MostSevere(next, checks + [check]) && Unspecified !in checks + [check]
    ensures multiset(checks + [check])[Compliant] == multiset(checks)[Compliant] + (if check == Compliant then 1 else 0)
  {
    assert forall c :: c in checks + [check] <==> c in checks || c == check;
  }

  lemma NoChecks(rows: seq<CheckRow>)
    ensures CheckStatuses(rows[..0]) == [] && MostSevere(Unspecified, [])
  {
  }

  lemma OneMoreRow(rows: seq<CheckRow>, i: nat)
    requires i < |rows|
    ensures CheckStatuses(rows[..i + 1]) == CheckStatuses(rows[..i]) +
      if IsComplianceAction(rows[i].action) then [ComplianceStatus(rows[i].action, rows[i].result)] else []
    ensures IsComplianceAction(rows[i].action) ==> ComplianceStatus(rows[i].action, rows[i].result) != Unspecified
  {
    assert rows[..i + 1][..i] == rows[..i];
  }

  /** The status loop over the checks, with its three-way switch. */
  method DeviceCompliance(rows: seq<CheckRow>) returns (s: Summary)
    ensures Summarises(s, rows)
  {
    hide CheckStatuses, MostSevere, ComplianceStatus, IsComplianceAction;
    var status, passing, checks := Unspecified, 0, [];
    NoChecks(rows);
    for i := 0 to |rows|
      invariant checks == CheckStatuses(rows[..i])
      invariant MostSevere(status, checks) && Unspecified !in checks
      invariant passing == multiset(checks)[Compliant]
    {
      OneMoreRow(rows, i);
      var row := rows[i];
      if IsComplianceAction(row.action) {
        var check := ComplianceStatus(row.action, row.result);
        ghost var before, was := checks, status;
        checks := checks + [check];
        if check == Compliant { passing := passing + 1; }
        if check == NonCompliant {
          status := check;
        } else if check == Waiting && status != NonCompliant {
          status := check;
        } else if check == Compliant && status == Unspecified {
          status := check;
        }
        OneMoreCheck(was, before, check, status);
      }
    }
    assert rows[..|rows|] == rows;
    return Summary(status, passing, checks);
  }

  /** Any two orders of the same checks give the same summary. */
  lemma SummaryIsOrderIndependent(a: seq<Compliance>, b: seq<Compliance>, x: Compliance, y: Compliance)
    requires multiset(a) == multiset(b) && MostSevere(x, a) && MostSevere(y, b)
    ensures x == y && multiset(a)[Compliant] == multiset(b)[Compliant]
  {
    forall c ensures c in a <==> c in b {
      assert c in multiset(a) <==> c in multiset(b);
    }
    if a == [] { assert |multiset(b)| == 0; }
    if b == [] { assert |multiset(a)| == 0; }
  }
}
