/** The agent's durable store: the tables `scheduled_work` and `result_outbox`, and the
    transactions that move rows through idle, running, running-and-retired and deleted. */
module AgentStore {
  import opened Actions
  import Order

  /** One row of `scheduled_work`; the stored blob is the action it decodes to. */
  datatype Row = Row(
    action: Action, retired: bool, running: bool,
    runId: Option<string>, runDigest: Option<Digest>,
    lastAt: Option<Time>, nextAt: Time)

  type Work = map<string, Row>

  /** `nextSeq` is the autoincrement counter: it never goes back, so sequences are never reused. */
  datatype Tables = Tables(work: Work, outbox: map<nat, ActionResult>, nextSeq: nat)

  // ---------------------------------------------------------------- schedule arithmetic

  function Interval(hours: int): Time {
    if hours > 0 then hours * HOUR else 8 * HOUR
  }

  function ClampInterval(computed: Time, now: Time, interval: Time): Time {
    if computed > now + interval then now + interval else computed
  }

  function NextExecute(hours: int, last: Option<Time>, now: Time): Time {
    if last.None? then now else ClampInterval(last.value + Interval(hours), now, Interval(hours))
  }

  /** The next time is never more than one interval ahead, even for a start in the future, and a
      start that is not in the future is followed by exactly one interval. */
  lemma NextExecuteBounds(hours: int, started: Time, now: Time)
    ensures NextExecute(hours, Some(started), now) <= now + Interval(hours)
    ensures started <= now ==> NextExecute(hours, Some(started), now) == started + Interval(hours)
    ensures NextExecute(hours, Some(started), now) <= started + Interval(hours)
    ensures Interval(hours) > 0
    ensures NextExecute(hours, None, now) == now
    ensures var step := (if hours > 0 then hours else 8) * 3_600_000_000_000;
      NextExecute(hours, Some(started), now) == (if started <= now then started else now) + step
  {
    if hours > 0 {
      assert hours * HOUR >= HOUR;
    }
  }

  // ---------------------------------------------------------------- policy reconciliation

  /** A policy message as received: its entries may be missing or carry no identifier. */
  type Policy = seq<Option<Action>>

  predicate WellFormed(p: Policy) {
    && (forall i :: 0 <= i < |p| ==> p[i].Some? && p[i].value.id != "")
    && (forall i, j :: 0 <= i < j < |p| ==> p[i].value.id != p[j].value.id)
  }

  /** The desired actions by identifier. */
  function Desired(p: Policy): map<string, Action>
    requires WellFormed(p)
  {
    if p == [] then map[]
    else Desired(p[..|p| - 1])[p[|p| - 1].value.id := p[|p| - 1].value]
  }

  /** Every entry of a well-formed policy is found under its own identifier, and nothing else is. */
  lemma {:induction false} DesiredLookup(p: Policy, id: string)
    requires WellFormed(p)
    ensures id in Desired(p) <==> exists i :: 0 <= i < |p| && p[i].value.id == id
    ensures id in Desired(p) ==> Some(Desired(p)[id]) in p && Desired(p)[id].id == id && id != ""
    decreases |p|
  {
    if p != [] {
      var n := |p| - 1;
      var front := p[..n];
      DesiredLookup(front, id);
      if p[n].value.id != id && id in Desired(front) {
        var i :| 0 <= i < |front| && front[i].value.id == id;
        assert p[i].value.id == id;
        assert Some(Desired(front)[id]) in front;
      }
      if i :| 0 <= i < |p| && p[i].value.id == id && i != n {
        assert front[i].value.id == id;
      }
      if p[n].value.id == id { assert p[n] == Some(Desired(p)[id]); }
    }
  }

  /** What the row of one identifier becomes; `None` is an absent row. */
  function Target(row: Option<Row>, want: Option<Action>, now: Time): Option<Row> {
    match want
    case None => if row.Some? && row.value.running then Some(row.value.(retired := true)) else None
    case Some(a) =>
      match row
      case None => Some(Row(a, false, false, None, None, None, NextExecute(a.intervalHours, None, now)))
      case Some(r) =>
        if !r.retired && r.action == a then row
        else Some(r.(action := a, retired := false, nextAt := now))
  }

  function Get<T>(m: map<string, T>, id: string): Option<T> {
    if id in m then Some(m[id]) else None
  }

  /** Reconciliation as one simultaneous assignment, without any iteration order. */
  function Reconcile(work: Work, d: map<string, Action>, now: Time): Work {
    map id | id in work.Keys + d.Keys && Target(Get(work, id), Get(d, id), now).Some?
      :: Target(Get(work, id), Get(d, id), now).value
  }

  /** Declarative reading: the live rows are exactly the policy, anything else survives only as a
      retired running row, and nothing touches a run that is in progress. A row that is new, revived or
      redefined is due at once; a new one is otherwise blank, a revived or redefined one otherwise as it
      was, and a row that already says what the policy wants is not touched. */
  lemma ReconcileMeaning(work: Work, d: map<string, Action>, now: Time)
    ensures var w := Reconcile(work, d, now);
      && (forall id :: id in w && !w[id].retired <==> id in d)
      && (forall id :: id in d ==> w[id].action == d[id])
      && (forall id :: id in w && w[id].retired ==> id in work && work[id].running)
      && (forall id :: id in work && work[id].running ==>
            && id in w && w[id].running && w[id].runId == work[id].runId
            && w[id].runDigest == work[id].runDigest && w[id].lastAt == work[id].lastAt)
      && (forall id :: id in w && w[id].running ==> id in work && work[id].running)
      && (forall id :: id in work && id in w && id in d && !work[id].retired && work[id].action == d[id] ==>
            w[id] == work[id])
    ensures var w := Reconcile(work, d, now);
      && (forall id :: id in d && id !in work ==> w[id] == Row(d[id], false, false, None, None, None, now))
      && (forall id :: id in d && id in work && (work[id].retired || work[id].action != d[id]) ==>
            w[id] == work[id].(action := d[id], retired := false, nextAt := now))
      && (forall id :: id in work && id !in d ==>
            if work[id].running then w[id] == work[id].(retired := true) else id !in w)
      && (forall id :: id in d && (id !in work || work[id].retired || work[id].action != d[id]) && !w[id].running ==>
            Runnable(w, id, now))
  {
    var w := Reconcile(work, d, now);
    forall id
      ensures id in w <==> id in work.Keys + d.Keys && Target(Get(work, id), Get(d, id), now).Some?
      ensures id in w ==> w[id] == Target(Get(work, id), Get(d, id), now).value
    {}
  }

  /** Applying the same policy again, at any later time, changes no row at all. */
  lemma ReconcileIdempotent(work: Work, d: map<string, Action>, now: Time, later: Time)
    ensures Reconcile(Reconcile(work, d, now), d, later) == Reconcile(work, d, now)
  {
    var w := Reconcile(work, d, now);
    var w2 := Reconcile(w, d, later);
    forall id
      ensures id in w <==> id in w2
      ensures id in w ==> w2[id] == w[id]
    {
      var r := Target(Get(work, id), Get(d, id), now);
      assert Get(w, id) == if id in work.Keys + d.Keys then r else None;
      assert r.Some? ==> Target(r, Get(d, id), later) == r;
    }
  }

  // ---------------------------------------------------------------- runs

  predicate Runnable(w: Work, id: string, now: Time) {
    id in w && !w[id].retired && !w[id].running && w[id].nextAt <= now
  }

  function Begun(row: Row, run: string, started: Time, now: Time): Row {
    row.(runId := Some(run), runDigest := Some(ActionDigest(row.action)), running := true,
         lastAt := Some(started), nextAt := NextExecute(row.action.intervalHours, Some(started), now))
  }

  ghost predicate RunIdTaken(w: Work, run: string) {
    exists id :: id in w && w[id].runId == Some(run)
  }

  /** The guard of the finishing UPDATE. */
  predicate Finishable(w: Work, id: string, run: string, digest: Option<Digest>) {
    id in w && w[id].running && w[id].runId == Some(run) && digest.Some? && w[id].runDigest == digest
  }

  /** The finishing transaction: release or delete the row, and append the result. */
  function Finish(t: Tables, id: string, r: ActionResult): Tables
    requires id in t.work
  {
    var row := t.work[id];
    var work := if row.retired then t.work - {id}
                else t.work[id := row.(running := false, runId := None, runDigest := None)];
    Tables(work, t.outbox[t.nextSeq := r], t.nextSeq + 1)
  }

  predicate Recordable(r: ActionResult) {
    r.actionId != "" && r.runId != "" && r.completedAt.Some? && Is32(r.digest)
  }

  function RunIdOf(row: Row): string {
    if row.runId.Some? then row.runId.value else ""
  }

  function Interrupted(id: string, row: Row, now: Time): ActionResult {
    ActionResult(id, RunIdOf(row), Indeterminate, Some(Output(0, "", "interrupted action run")), None, Some(now),
                 if row.runDigest.Some? then row.runDigest.value else Raw([]))
  }

  /** The result of an interrupted run: it names the row, the run and the definition that was running, claims
      nothing about success, and can be recorded. */
  lemma InterruptedMeans(id: string, row: Row, now: Time)
    requires row.runId.Some? && row.runDigest.Some?
    ensures var r := Interrupted(id, row, now);
      && r.actionId == id && Some(r.runId) == row.runId && Some(r.digest) == row.runDigest
      && r.status == Indeterminate && r.detection.None? && r.completedAt == Some(now)
      && r.output == Some(Output(0, "", "interrupted action run"))
      && (id != "" && r.runId != "" && row.runDigest.value.Sha256? ==> Recordable(r))
  {
  }

  /** Recovery over a list of row identifiers; `None` when some row cannot be finished. */
  function RecoverAll(t: Tables, ids: seq<string>, now: Time): Option<Tables>
    decreases |ids|
  {
    if ids == [] then Some(t)
    else
      var id := ids[0];
      if id in t.work && Finishable(t.work, id, RunIdOf(t.work[id]), t.work[id].runDigest)
      then RecoverAll(Finish(t, id, Interrupted(id, t.work[id], now)), ids[1..], now)
      else None
  }

  ghost predicate Enumerates(ids: seq<string>, s: set<string>) {
    && (forall i, j :: 0 <= i < j < |ids| ==> ids[i] != ids[j])
    && (forall id :: id in ids <==> id in s)
  }

  ghost function RunningIds(w: Work): set<string> {
    set id | id in w && w[id].running
  }

  /** What every reachable store satisfies: identifiers match their blobs, a retired row is running,
      and a row carries a run identifier and digest exactly while it runs. */
  ghost predicate Sound(w: Work) {
    forall id :: id in w ==>
      && id != "" && w[id].action.id == id
      && (w[id].retired ==> w[id].running)
      && (w[id].running <==> w[id].runId.Some?)
      && (w[id].running <==> w[id].runDigest.Some?)
      && (w[id].running ==>
            w[id].runId.value != "" && w[id].runDigest.value.Sha256? && w[id].runDigest.value.of.id == id)
  }

  /** What recovery leaves behind: no running row, exactly the retired rows gone, the schedule of the
      others kept, and one indeterminate result per interrupted run appended in order. */
  ghost predicate RecoveredFrom(t: Tables, ids: seq<string>, now: Time, r: Tables) {
    RecoveredRows(t.work, r.work) && RecoveredOutbox(t, ids, now, r)
  }

  ghost predicate RecoveredRows(w: Work, w': Work) {
    && (forall id :: id in w' <==> id in w && !w[id].retired)
    && (forall id :: id in w' ==>
          && !w'[id].running && w'[id].runId.None? && w'[id].runDigest.None?
          && w'[id].action == w[id].action && w'[id].nextAt == w[id].nextAt && w'[id].lastAt == w[id].lastAt)
  }

  ghost predicate RecoveredOutbox(t: Tables, ids: seq<string>, now: Time, r: Tables) {
    && r.nextSeq == t.nextSeq + |ids|
    && (forall s :: s in r.outbox <==> s in t.outbox || t.nextSeq <= s < t.nextSeq + |ids|)
    && (forall s :: s in t.outbox ==> r.outbox[s] == t.outbox[s])
    && (forall i :: 0 <= i < |ids| ==>
          ids[i] in t.work && r.outbox[t.nextSeq + i] == Interrupted(ids[i], t.work[ids[i]], now))
  }

  ghost predicate SequencesBelow(t: Tables) {
    forall s :: s in t.outbox ==> s < t.nextSeq
  }

  /** Recovery of a sound store never fails. */
  lemma {:induction false} RecoveryNeverFails(t: Tables, ids: seq<string>, now: Time)
    requires Sound(t.work) && SequencesBelow(t)
    requires Enumerates(ids, RunningIds(t.work))
    ensures var r := RecoverAll(t, ids, now); r.Some? && RecoveredFrom(t, ids, now, r.value) && Sound(r.value.work)
    decreases |ids|
  {
    if ids != [] {
      var id := ids[0];
      assert id in RunningIds(t.work);
      var t1 := Finish(t, id, Interrupted(id, t.work[id], now));
      FinishOne(t, ids, now);
      RecoveryNeverFails(t1, ids[1..], now);
      RecoverStep(t, ids, now, t1, RecoverAll(t1, ids[1..], now).value);
    } else {
      forall id | id in t.work ensures !t.work[id].running {
        assert t.work[id].running ==> id in RunningIds(t.work);
      }
    }
  }

  lemma FinishOne(t: Tables, ids: seq<string>, now: Time)
    requires Sound(t.work) && SequencesBelow(t)
    requires ids != [] && Enumerates(ids, RunningIds(t.work)) && ids[0] in t.work
    ensures var t1 := Finish(t, ids[0], Interrupted(ids[0], t.work[ids[0]], now));
      Sound(t1.work) && SequencesBelow(t1) && Enumerates(ids[1..], RunningIds(t1.work))
  {
    var id := ids[0];
    assert id in RunningIds(t.work);
    var t1 := Finish(t, id, Interrupted(id, t.work[id], now));
    assert forall x :: x in ids <==> x == id || x in ids[1..];
    assert RunningIds(t1.work) == RunningIds(t.work) - {id};
  }

  lemma RecoverStep(t: Tables, ids: seq<string>, now: Time, t1: Tables, r: Tables)
    requires Sound(t.work) && SequencesBelow(t)
    requires ids != [] && Enumerates(ids, RunningIds(t.work)) && ids[0] in t.work
    requires t1 == Finish(t, ids[0], Interrupted(ids[0], t.work[ids[0]], now))
    requires RecoveredFrom(t1, ids[1..], now, r)
    ensures RecoveredFrom(t, ids, now, r)
  {
    assert ids[0] in RunningIds(t.work);
    RecoverRows(t, ids[0], t1, r, now);
    RecoverOutbox(t, ids, now, t1, r);
  }

  lemma RecoverRows(t: Tables, id: string, t1: Tables, r: Tables, now: Time)
    requires Sound(t.work) && id in t.work && t1 == Finish(t, id, Interrupted(id, t.work[id], now))
    requires RecoveredRows(t1.work, r.work)
    ensures RecoveredRows(t.work, r.work)
  {
    hide Interrupted;
  }

  lemma RecoverOutbox(t: Tables, ids: seq<string>, now: Time, t1: Tables, r: Tables)
    requires SequencesBelow(t) && ids != [] && Enumerates(ids, RunningIds(t.work)) && ids[0] in t.work
    requires t1 == Finish(t, ids[0], Interrupted(ids[0], t.work[ids[0]], now))
    requires RecoveredOutbox(t1, ids[1..], now, r)
    ensures RecoveredOutbox(t, ids, now, r)
  {
    hide Interrupted;
    forall i | 0 <= i < |ids|
      ensures ids[i] in t.work && r.outbox[t.nextSeq + i] == Interrupted(ids[i], t.work[ids[i]], now)
    {
      assert ids[i] in RunningIds(t.work);
      if i > 0 {
        assert ids[i] == ids[1..][i - 1];
        assert r.outbox[t1.nextSeq + (i - 1)] == Interrupted(ids[i], t1.work[ids[i]], now);
      } else {
        assert t.nextSeq in t1.outbox;
      }
    }
  }

  lemma EnumerateOneMore(ids: seq<string>, all: set<string>, todo: set<string>, id: string)
    requires Enumerates(ids, all - todo) && id in todo && todo <= all
    ensures Enumerates(ids + [id], all - (todo - {id}))
  {
    var longer := ids + [id];
    assert forall x :: x in longer <==> x in ids || x == id;
  }

  // ---------------------------------------------------------------- the store object

  /** A result waiting for upload. */
  datatype Pending = Pending(sequence: nat, result: ActionResult)

  /** Whether one statement of a transaction fails; a healthy database never fails one. */
  method StatementFails(dbOk: bool) returns (failed: bool)
    ensures dbOk ==> !failed
  {
    failed := *;
    failed := failed && !dbOk;
  }

  lemma ExtendPolicy(p: Policy, i: nat)
    requires i < |p| && WellFormed(p[..i]) && p[i].Some? && p[i].value.id != ""
    ensures WellFormed(p[..i + 1]) <==> p[i].value.id !in Desired(p[..i])
    ensures WellFormed(p[..i + 1]) ==> Desired(p[..i + 1]) == Desired(p[..i])[p[i].value.id := p[i].value]
  {
    var front, ext, id := p[..i], p[..i + 1], p[i].value.id;
    DesiredLookup(front, id);
    assert ext[..i] == front && |ext| == i + 1;
    if id in Desired(front) {
      var j :| 0 <= j < |front| && front[j].value.id == id;
      assert ext[j] == front[j] && ext[i] == p[i];
      assert !WellFormed(ext);
    } else {
      forall j, k | 0 <= j < k < |ext| ensures ext[j].Some? && ext[k].Some? && ext[j].value.id != ext[k].value.id {
        assert ext[j] == front[j];
        if k < i { assert ext[k] == front[k]; } else { assert front[j].value.id != id; }
      }
      forall j | 0 <= j < |ext| ensures ext[j].Some? && ext[j].value.id != "" {
        if j < i { assert ext[j] == front[j]; }
      }
    }
  }

  /** The identifiers of a snapshot, or `None` when it has a missing, unnamed or repeated action. */
  method ParsePolicy(p: Policy) returns (r: Option<map<string, Action>>)
    ensures r.Some? <==> WellFormed(p)
    ensures r.Some? ==> r.value == Desired(p)
    ensures r.Some? <==>
      && (forall i :: 0 <= i < |p| ==> p[i].Some? && p[i].value.id != "")
      && (forall i, j :: 0 <= i < j < |p| ==> p[i].value.id != p[j].value.id)
  {
    var current: map<string, Action> := map[];
    for i := 0 to |p|
      invariant WellFormed(p[..i]) && current == Desired(p[..i])
    {
      if p[i].None? || p[i].value.id == "" { return None; }
      ExtendPolicy(p, i);
      if p[i].value.id in current { return None; }
      current := current[p[i].value.id := p[i].value];
    }
    assert p[..|p|] == p;
    return Some(current);
  }

  function Wanted(work: Work, current: map<string, Action>, now: Time, id: string): Option<Row> {
    Target(Get(work, id), Get(current, id), now)
  }

  /** The table `w` part-way: identifiers in `done` are reconciled, the others as in `rest`. */
  ghost predicate PartWay(w: Work, work: Work, current: map<string, Action>, now: Time, done: set<string>, rest: Work) {
    forall id :: Get(w, id) == if id in done then Wanted(work, current, now, id) else Get(rest, id)
  }

  lemma Advance(w: Work, v: Work, work: Work, current: map<string, Action>, now: Time, done: set<string>, rest: Work,
                id: string)
    requires PartWay(w, work, current, now, done, rest)
    requires forall x :: x != id ==> Get(v, x) == Get(w, x)
    requires Get(v, id) == Wanted(work, current, now, id)
    ensures PartWay(v, work, current, now, done + {id}, rest)
  {
    forall x ensures Get(v, x) == if x in done + {id} then Wanted(work, current, now, x) else Get(rest, x) {
      if x != id { assert Get(w, x) == Get(v, x); }
    }
  }

  lemma AdvanceInsert(w: Work, work: Work, current: map<string, Action>, now: Time, done: set<string>, rest: Work,
                      id: string)
    requires PartWay(w, work, current, now, done, rest) && work.Keys <= done
    requires id in current
    ensures var a := current[id];
      var row := Row(a, false, false, None, None, None, NextExecute(a.intervalHours, None, now));
      PartWay(if id in work then w else w[id := row], work, current, now, done + {id}, rest)
  {
    var a := current[id];
    var row := Row(a, false, false, None, None, None, NextExecute(a.intervalHours, None, now));
    Advance(w, if id in work then w else w[id := row], work, current, now, done, rest, id);
  }

  lemma PartWayIsReconcile(w: Work, work: Work, current: map<string, Action>, now: Time, rest: Work)
    requires PartWay(w, work, current, now, work.Keys + current.Keys, rest)
    requires rest.Keys <= work.Keys
    ensures w == Reconcile(work, current, now)
  {
    var r := Reconcile(work, current, now);
    forall id ensures id in w <==> id in r {
      assert Get(w, id) == if id in work.Keys + current.Keys then Wanted(work, current, now, id) else Get(rest, id);
    }
    forall id | id in w ensures w[id] == r[id] {
      assert Get(w, id) == Some(w[id]) == Wanted(work, current, now, id);
    }
  }

  /** First loop of a reconciliation: retire, delete, update or revive each stored row, in any order. */
  method UpdateExistingRows(work: Work, current: map<string, Action>, now: Time, dbOk: bool) returns (r: Option<Work>)
    ensures dbOk ==> r.Some?
    ensures r.Some? ==> PartWay(r.value, work, current, now, work.Keys, work)
  {
    var w := work;
    var todo := work.Keys;
    while todo != {}
      invariant todo <= work.Keys
      invariant PartWay(w, work, current, now, work.Keys - todo, work)
      decreases |todo|
    {
      var failed := StatementFails(dbOk);
      if failed { return None; }
      var id :| id in todo;
      var row := work[id];
      ghost var before := w;
      assert Get(w, id) == Some(row);
      if id !in current {
        if row.running {
          w := w[id := w[id].(retired := true)];
        } else {
          w := w - {id};
        }
      } else if !row.retired {
        if row.action != current[id] {
          w := w[id := w[id].(action := current[id], retired := false, nextAt := now)];
        }
      } else {
        w := w[id := w[id].(action := current[id], retired := false, nextAt := now)];
      }
      Advance(before, w, work, current, now, work.Keys - todo, work, id);
      assert work.Keys - todo + {id} == work.Keys - (todo - {id});
      todo := todo - {id};
    }
    assert work.Keys - todo == work.Keys;
    return Some(w);
  }

  lemma OneMoreDone(rows: set<string>, wanted: set<string>, todo: set<string>, id: string)
    requires todo <= wanted
    ensures id in todo ==> rows + (wanted - (todo - {id})) == rows + (wanted - todo) + {id}
    ensures todo == wanted ==> rows + (wanted - todo) == rows
    ensures wanted - {} == wanted
  {
  }

  /** Second loop of a reconciliation: insert the actions that had no row, in any order, and commit. */
  method InsertMissingRows(work: Work, kept: Work, current: map<string, Action>, now: Time, dbOk: bool)
    returns (r: Option<Work>)
    requires PartWay(kept, work, current, now, work.Keys, work)
    ensures dbOk ==> r.Some?
    ensures r.Some? ==> r.value == Reconcile(work, current, now)
  {
    hide PartWay, Reconcile;
    var w := kept;
    var todo := current.Keys;
    ghost var done := work.Keys;
    OneMoreDone(work.Keys, current.Keys, todo, "");
    while todo != {}
      invariant todo <= current.Keys && done == work.Keys + (current.Keys - todo)
      invariant PartWay(w, work, current, now, done, work)
      decreases |todo|
    {
      var failed := StatementFails(dbOk);
      if failed { return None; }
      var id :| id in todo;
      AdvanceInsert(w, work, current, now, done, work, id);
      if id !in work {
        var a := current[id];
        w := w[id := Row(a, false, false, None, None, None, NextExecute(a.intervalHours, None, now))];
      }
      OneMoreDone(work.Keys, current.Keys, todo, id);
      done := done + {id};
      todo := todo - {id};
    }
    var failed := StatementFails(dbOk);
    if failed { return None; }
    PartWayIsReconcile(w, work, current, now, work);
    return Some(w);
  }

  /** The order of the due list: by next time, then by identifier. */
  predicate Earlier(w: Work, a: string, b: string)
    requires a in w && b in w
  {
    w[a].nextAt < w[b].nextAt || (w[a].nextAt == w[b].nextAt && Order.Less(a, b))
  }

  method Earliest(w: Work, ids: set<string>) returns (first: string)
    requires ids != {} && ids <= w.Keys
    ensures first in ids && forall x :: x in ids && x != first ==> Earlier(w, first, x)
  {
    first :| first in ids;
    var rest := ids - {first};
    while rest != {}
      invariant rest <= ids && first in ids && first !in rest
      invariant forall x :: x in ids && x !in rest && x != first ==> Earlier(w, first, x)
      decreases |rest|
    {
      var x :| x in rest;
      Order.LessTotal(x, first);
      if Earlier(w, x, first) {
        forall y | y in ids && y !in rest && y != first ensures Earlier(w, x, y) { EarlierTransitive(w, x, first, y); }
        first := x;
      }
      rest := rest - {x};
    }
  }

  predicate InOrder(w: Work, ids: seq<string>) {
    && (forall i :: 0 <= i < |ids| ==> ids[i] in w)
    && (forall i, j :: 0 <= i < j < |ids| ==> Earlier(w, ids[i], ids[j]))
  }

  method SortByTime(w: Work, all: set<string>) returns (ids: seq<string>)
    requires all <= w.Keys
    ensures InOrder(w, ids) && forall id :: id in ids <==> id in all
  {
    ids := [];
    var todo := all;
    while todo != {}
      invariant todo <= all && InOrder(w, ids) && (forall id :: id in ids <==> id in all && id !in todo)
      invariant forall i, id :: 0 <= i < |ids| && id in todo ==> Earlier(w, ids[i], id)
      decreases |todo|
    {
      hide Earlier;
      var first := Earliest(w, todo);
      ids := ids + [first];
      todo := todo - {first};
    }
  }

  lemma EarlierTransitive(w: Work, a: string, b: string, c: string)
    requires a in w && b in w && c in w && Earlier(w, a, b) && Earlier(w, b, c)
    ensures Earlier(w, a, c)
  {
    if Order.Less(a, b) && Order.Less(b, c) { Order.LessTransitive(a, b, c); }
  }

  /** The store. Each method is one transaction under the store's mutex: it works on copies of the
      tables and commits at the end. With `dbOk` false any statement may fail and roll back. */
  class Store {
    var work: Work
    var outbox: map<nat, ActionResult>
    var nextSeq: nat

    constructor ()
      ensures T() == Tables(map[], map[], 1)
    {
      work, outbox, nextSeq := map[], map[], 1;
    }

    ghost function T(): Tables
      reads this
    {
      Tables(work, outbox, nextSeq)
    }

    method ReconcilePolicy(policy: Option<Policy>, now: Time, dbOk: bool) returns (ok: bool)
      modifies this
      ensures ok ==> policy.Some? && WellFormed(policy.value)
      ensures ok ==> T() == old(T()).(work := Reconcile(old(work), Desired(policy.value), now))
      ensures !ok ==> T() == old(T())
      ensures dbOk && policy.Some? && WellFormed(policy.value) ==> ok
    {
      if policy.None? { return false; }
      var current := ParsePolicy(policy.value);
      if current.None? { return false; }
      var kept := UpdateExistingRows(work, current.value, now, dbOk);
      if kept.None? { return false; }
      var w := InsertMissingRows(work, kept.value, current.value, now, dbOk);
      if w.None? { return false; }
      work := w.value;
      return true;
    }

    /** The due list: exactly the live, idle rows whose time has come, earliest first. */
    method GetDueScheduledWork(now: Time) returns (ids: seq<string>, actions: seq<Action>)
      ensures forall id :: id in ids <==>
        id in work && !work[id].retired && !work[id].running && work[id].nextAt <= now
      ensures InOrder(work, ids)
      ensures |actions| == |ids| && forall i :: 0 <= i < |ids| ==> actions[i] == work[ids[i]].action
    {
      ids := SortByTime(work, set id | id in work && !work[id].retired && !work[id].running && work[id].nextAt <= now);
      actions := [];
      for i := 0 to |ids|
        invariant |actions| == i && forall j :: 0 <= j < i ==> actions[j] == work[ids[j]].action
      {
        actions := actions + [work[ids[i]].action];
      }
    }

    /** Starts a run of the row as it is now, whatever the caller's due list said, and returns the
        definition that must be executed. */
    method BeginActionRun(workId: string, run: string, started: Time, now: Time, dbOk: bool)
      returns (action: Option<Action>)
      modifies this
      ensures action.Some? <==> T() != old(T())
      ensures action.Some? ==>
        && Runnable(old(work), workId, now) && !old(RunIdTaken(work, run))
        && action.value == old(work)[workId].action
        && T() == old(T()).(work := old(work)[workId := Begun(old(work)[workId], run, started, now)])
      ensures dbOk ==>
        (action.Some? <==>
         && workId != "" && workId in old(work) && !old(work)[workId].retired && !old(work)[workId].running
         && old(work)[workId].nextAt <= now && (forall id :: id in old(work) ==> old(work)[id].runId != Some(run)))
      ensures action.Some? ==>
        && work[workId] == old(work)[workId].(
             running := true, runId := Some(run), runDigest := Some(ActionDigest(action.value)),
             lastAt := Some(started), nextAt := NextExecute(action.value.intervalHours, Some(started), now))
    {
      if workId == "" { return None; }
      var failed: bool;
      failed := StatementFails(dbOk);
      if failed { return None; }
      if workId !in work || work[workId].retired || work[workId].running || work[workId].nextAt > now {
        return None;
      }
      var a := work[workId].action;
      var taken := false;
      var todo := work.Keys;
      while todo != {}
        invariant todo <= work.Keys && T() == old(T())
        invariant taken ==> RunIdTaken(work, run)
        invariant !taken ==> forall id :: id in work && id !in todo ==> work[id].runId != Some(run)
        decreases |todo|
      {
        var id :| id in todo;
        todo := todo - {id};
        if work[id].runId == Some(run) { taken := true; }
      }
      failed := StatementFails(dbOk);
      if taken || failed { return None; }
      var row := work[workId];
      work := work[workId := row.(runId := Some(run), runDigest := Some(ActionDigest(a)), lastAt := Some(started),
                                  nextAt := NextExecute(a.intervalHours, Some(started), now), running := true)];
      assert work[workId].running && !old(work)[workId].running;
      return Some(a);
    }

    method RecordActionResult(r: ActionResult, dbOk: bool) returns (sequence: Option<nat>)
      modifies this
      ensures sequence.Some? ==>
        && Recordable(r) && Finishable(old(work), r.actionId, r.runId, Some(r.digest))
        && T() == Finish(old(T()), r.actionId, r) && sequence.value == old(nextSeq)
      ensures sequence.None? ==> T() == old(T())
      ensures dbOk ==>
        (sequence.Some? <==>
         && r.actionId != "" && r.runId != "" && r.completedAt.Some? && (r.digest.Sha256? || |r.digest.bytes| == 32)
         && r.actionId in old(work) && old(work)[r.actionId].running
         && old(work)[r.actionId].runId == Some(r.runId) && old(work)[r.actionId].runDigest == Some(r.digest))
    {
      if r.actionId == "" || r.runId == "" || r.completedAt.None? || !Is32(r.digest) { return None; }
      var failed: bool;
      failed := StatementFails(dbOk);
      if failed { return None; }
      var retired := FinishScheduledRun(r.actionId, r.runId, Some(r.digest), work);
      if retired.None? { return None; }
      var (gone, w) := retired.value;
      failed := StatementFails(dbOk);
      if failed { return None; }
      sequence := Some(nextSeq);
      if gone { w := DeleteRetiredWork(w, r.actionId, r.runId); }
      work, outbox, nextSeq := w, outbox[nextSeq := r], nextSeq + 1;
    }

    method RecoverInterruptedActions(now: Time, dbOk: bool) returns (count: Option<nat>, ghost order: seq<string>)
      modifies this
      ensures count.Some? ==>
        && Enumerates(order, RunningIds(old(work))) && count.value == |order|
        && RecoverAll(old(T()), order, now) == Some(T())
      ensures count.None? ==> T() == old(T())
      ensures dbOk && Sound(old(work)) && SequencesBelow(old(T())) ==> count.Some?
    {
      order := [];
      var failed: bool;
      var w, o, n := work, outbox, nextSeq;
      var todo := set id | id in work && work[id].running;
      var done := 0;
      while todo != {}
        invariant T() == old(T()) && done == |order|
        invariant todo <= RunningIds(work)
        invariant forall id :: id in todo ==> id in w && w[id] == work[id] && id !in order
        invariant Enumerates(order, RunningIds(work) - todo)
        invariant RecoverAll(T(), order, now) == Some(Tables(w, o, n))
        decreases |todo|
      {
        hide Enumerates, RecoverAll, Interrupted, Sound, SequencesBelow;
        failed := StatementFails(dbOk);
        if failed { return None, order; }
        var id :| id in todo;
        EnumerateOneMore(order, RunningIds(work), todo, id);
        todo := todo - {id};
        var row := work[id];
        var runId := if row.runId.Some? then row.runId.value else "";
        var result := Interrupted(id, row, now);
        var finished := FinishScheduledRun(id, runId, row.runDigest, w);
        if finished.None? { return None, order; }
        ghost var previous := Tables(w, o, n);
        RecoverAppend(T(), order, id, now, previous);
        var (gone, w1) := finished.value;
        w := w1;
        o, n := o[n := result], n + 1;
        if gone { w := DeleteRetiredWork(w, id, runId); }
        assert Tables(w, o, n) == Finish(previous, id, result);
        order := order + [id];
        done := done + 1;
      }
      assert RunningIds(work) - todo == RunningIds(work);
      failed := StatementFails(dbOk);
      if failed { return None, order; }
      work, outbox, nextSeq := w, o, n;
      return Some(done), order;
    }

    /** Pending results in sequence order. */
    method GetPendingResults() returns (out: seq<Pending>)
      requires SequencesBelow(T())
      ensures forall i, j :: 0 <= i < j < |out| ==> out[i].sequence < out[j].sequence
      ensures forall i :: 0 <= i < |out| ==> out[i].sequence in outbox && outbox[out[i].sequence] == out[i].result
      ensures forall s :: s in outbox ==> Pending(s, outbox[s]) in out
    {
      out := [];
      for s := 0 to nextSeq
        invariant forall i, j :: 0 <= i < j < |out| ==> out[i].sequence < out[j].sequence
        invariant forall i :: 0 <= i < |out| ==>
          out[i].sequence < s && out[i].sequence in outbox && outbox[out[i].sequence] == out[i].result
        invariant forall k :: k in outbox && k < s ==> Pending(k, outbox[k]) in out
      {
        if s in outbox { out := out + [Pending(s, outbox[s])]; }
      }
    }

    method DeletePendingResult(sequence: nat)
      modifies this`outbox
      ensures T() == old(T()).(outbox := old(outbox) - {sequence})
    {
      outbox := outbox - {sequence};
    }
  }

  /** The finishing UPDATE on its own: a retired row keeps its run identifier for the DELETE that follows. */
  function FinishScheduledRun(id: string, run: string, digest: Option<Digest>, w: Work): (r: Option<(bool, Work)>)
    ensures r.Some? <==> Finishable(w, id, run, digest)
    ensures r.Some? ==> r.value.0 == w[id].retired && r.value.1.Keys == w.Keys
  {
    if Finishable(w, id, run, digest) then
      var row := w[id];
      var left := if row.retired then row.runId else None;
      Some((row.retired, w[id := row.(running := false, runDigest := None, runId := left)]))
    else None
  }

  function DeleteRetiredWork(w: Work, id: string, run: string): Work {
    if id in w && w[id].runId == Some(run) && w[id].retired then w - {id} else w
  }

  lemma {:induction false} RecoverAppend(t: Tables, ids: seq<string>, id: string, now: Time, last: Tables)
    requires RecoverAll(t, ids, now) == Some(last)
    ensures RecoverAll(t, ids + [id], now) ==
      if id in last.work && Finishable(last.work, id, RunIdOf(last.work[id]), last.work[id].runDigest)
      then Some(Finish(last, id, Interrupted(id, last.work[id], now))) else None
    decreases |ids|
  {
    if ids == [] {
      assert [] + [id] == [id];
      assert [id][1..] == [];
    } else {
      assert (ids + [id])[1..] == ids[1..] + [id];
      RecoverAppend(Finish(t, ids[0], Interrupted(ids[0], t.work[ids[0]], now)), ids[1..], id, now, last);
    }
  }

  /** The two statements of a finishing transaction, one releasing the row and one deleting it if it was
      retired meanwhile, together do what finishing means: the row is gone exactly if it was retired, is
      otherwise idle and keeps its definition and schedule, and no other row changed. */
  lemma FinishStatementsCompose(t: Tables, id: string, run: string, digest: Option<Digest>, r: ActionResult)
    requires Finishable(t.work, id, run, digest)
    ensures var done := FinishScheduledRun(id, run, digest, t.work);
      && done.Some?
      && (if done.value.0 then DeleteRetiredWork(done.value.1, id, run) else done.value.1) == Finish(t, id, r).work
    ensures var t' := Finish(t, id, r);
      && (id in t'.work <==> !t.work[id].retired)
      && (id in t'.work ==> t'.work[id] == t.work[id].(running := false, runId := None, runDigest := None))
      && (forall x :: x != id ==> Get(t'.work, x) == Get(t.work, x))
      && t'.nextSeq == t.nextSeq + 1 && t'.outbox == t.outbox[t.nextSeq := r]
  {
  }
}
