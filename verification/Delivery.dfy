/** The whole delivery protocol of one device as a state machine: the scheduler goroutine, the network
    goroutines and the control plane run concurrently against the agent's store; the process may
    crash, messages may be lost, delayed or processed repeatedly, and administrators may change or
    delete anything. Each step is one transaction or one local move of a goroutine. */
module Delivery {
  import opened Actions
  import opened AgentStore
  import CP = ControlPlane
  import Executor

  // ---------------------------------------------------------------- state

  /** One execution: the definition executed, what the commands did, and when it completed. */
  datatype Observation = Observation(action: Action, world: int -> Executor.Outcome, expired: bool, at: Time)

  /** Where the scheduler goroutine is. `due` is the rest of the due list, loaded at `dueAt`. */
  datatype Scheduler =
    | Down
    | Idle
    | Recovered
    | Looping(due: seq<string>, dueAt: Time)
    | Starting(due: seq<string>, dueAt: Time, id: string, started: Time)
    | Executing(due: seq<string>, dueAt: Time, id: string, run: string, action: Action)
    | Recording(due: seq<string>, dueAt: Time, id: string, run: string, obs: Observation)

  /** Where the uploading goroutine is; the head of `queue` is the entry being sent. */
  datatype Uploader =
    | Offline
    | Quiet
    | Sending(queue: seq<Pending>)
    | Awaiting(queue: seq<Pending>, message: string)
    | Deleting(queue: seq<Pending>, verdict: CP.Verdict)

  datatype Reply = Reply(message: string, verdict: CP.Verdict)

  /** History: where a run that was begun is now. */
  datatype Place = Running(work: string) | Queued(sequence: nat) | Settled(verdict: CP.Verdict)

  /** History: the start of a row's latest run, kept while the row's definition is untouched. */
  datatype Anchor = Anchor(start: Time, interval: Time)

  type Places = map<string, Place>
  type Anchors = map<string, Anchor>
  type Definitions = map<string, Action>
  type Results = map<string, ActionResult>
  type Observations = map<string, Observation>
  type StoredResults = map<string, CP.StoredResult>
  type Outbox = map<nat, ActionResult>

  datatype System = System(
    me: string, clock: Time, t: Tables, sched: Scheduler, up: Uploader,
    requests: Results, replies: set<Reply>, db: CP.Database,
    // history
    place: Places, definition: Definitions, produced: Results,
    observed: Observations, others: StoredResults,
    accepted: StoredResults, rejected: set<string>,
    goneActions: set<string>, goneDevices: set<string>, anchor: Anchors)

  /** Moves of the scheduler goroutine and of its process. */
  datatype SchedulerStep =
    | Boot
    | Crash
    | Recover(order: seq<string>)
    | LoadDue(due: seq<string>)
    | NextItem
    | EndRound
    | BeginFails
    | BeginRun(run: string, replyLost: bool)
    | ExecutorReturns(world: int -> Executor.Outcome, expired: bool)
    | Abandon
    | Record

  /** Moves of the agent's network goroutines. */
  datatype NetworkStep =
    | ReconcilePolicy(policy: Policy)
    | Connect
    | Disconnect
    | LoadPending(queue: seq<Pending>)
    | StopSync
    | Send(message: string)
    | ReplyArrives(verdict: CP.Verdict)
    | DeleteEntry

  /** Moves of the rest of the world. */
  datatype WorldStep =
    | Tick(now: Time)
    | ServerHandles(message: string)
    | OtherDevice(device: string, result: ActionResult)
    | Administer(db: CP.Database)

  datatype Step = Scheduling(s: SchedulerStep) | Networking(n: NetworkStep) | World(w: WorldStep)

  // ---------------------------------------------------------------- steps

  /** The executor's result with the run identifier and the digest the scheduler adds. */
  function Stamped(o: Observation, run: string): ActionResult {
    Executor.ExecuteAction(o.action, o.world, o.expired, o.at).(runId := run, digest := ActionDigest(o.action))
  }

  function Restrict<V>(m: map<string, V>, keep: set<string>): map<string, V> {
    map k | k in m && k in keep :: m[k]
  }

  /** Rows that a reconciliation leaves exactly as they were. */
  ghost function UntouchedRows(before: Work, after: Work): set<string> {
    set id | id in before && id in after && before[id] == after[id]
  }

  ghost predicate Snapshot(queue: seq<Pending>, outbox: Outbox) {
    && (forall i, j :: 0 <= i < j < |queue| ==> queue[i].sequence < queue[j].sequence)
    && (forall i :: 0 <= i < |queue| ==> queue[i].sequence in outbox && outbox[queue[i].sequence] == queue[i].result)
    && (forall q :: q in outbox ==> Pending(q, outbox[q]) in queue)
  }

  function CascadedResults(results: StoredResults, db: CP.Database): StoredResults {
    map r | r in results && results[r].result.actionId in db.actions && results[r].device in db.devices :: results[r]
  }

  /** Administrators may rewrite definitions, assignments and memberships and delete actions and
      devices; deletions cascade to results, audit events stay, and identifiers are never reused. */
  ghost predicate AdminChange(s: System, db: CP.Database) {
    && CP.Consistent(db) && db.audits == s.db.audits
    && db.results == CascadedResults(s.db.results, db)
    && db.actions.Keys !! s.goneActions && db.devices !! s.goneDevices
  }

  ghost predicate SchedulerCan(s: System, st: SchedulerStep) {
    match st
    case Boot => s.sched.Down?
    case Crash => true
    case Recover(order) => s.sched.Idle? && Enumerates(order, RunningIds(s.t.work))
    case LoadDue(due) =>
      s.sched.Recovered? && Enumerates(due, set id | id in s.t.work && Runnable(s.t.work, id, s.clock))
    case NextItem => s.sched.Looping? && s.sched.due != []
    case EndRound => s.sched.Looping? || s.sched.Recovered?
    case BeginFails => s.sched.Starting?
    case BeginRun(run, _) =>
      && s.sched.Starting? && Runnable(s.t.work, s.sched.id, s.clock)
      && run != "" && run !in s.place && run !in s.others
    case ExecutorReturns(_, _) => s.sched.Executing?
    case Abandon => s.sched.Executing? || s.sched.Recording?
    case Record => CanRecord(s)
  }

  /** The recording transaction commits exactly when its finishing UPDATE finds the row. */
  ghost predicate CanRecord(s: System) {
    && s.sched.Recording?
    && var r := Stamped(s.sched.obs, s.sched.run);
       Recordable(r) && Finishable(s.t.work, r.actionId, r.runId, Some(r.digest))
  }

  ghost predicate NetworkCan(s: System, st: NetworkStep) {
    match st
    case ReconcilePolicy(_) => true
    case Connect => s.up.Offline? && !s.sched.Down?
    case Disconnect => true
    case LoadPending(queue) => s.up.Quiet? && Snapshot(queue, s.t.outbox)
    case StopSync => !s.up.Offline?
    case Send(m) => s.up.Sending? && s.up.queue != [] && m !in s.requests
    case ReplyArrives(v) => s.up.Awaiting? && Reply(s.up.message, v) in s.replies && v != CP.Failure
    case DeleteEntry => s.up.Deleting? && s.up.queue != []
  }

  ghost predicate WorldCan(s: System, st: WorldStep) {
    match st
    case Tick(now) => s.clock <= now
    case ServerHandles(m) => m in s.requests
    case OtherDevice(d, r) =>
      && d != s.me && r.runId !in s.place
      && (r.runId in s.others ==> s.others[r.runId] == CP.StoredResult(d, r))
    case Administer(db) => AdminChange(s, db)
  }

  ghost predicate Enabled(s: System, st: Step) {
    match st
    case Scheduling(k) => SchedulerCan(s, k)
    case Networking(k) => NetworkCan(s, k)
    case World(k) => WorldCan(s, k)
  }

  ghost function Stored(s: System, device: string, r: ActionResult): System {
    var v := CP.StoreVerdict(s.db, device, r);
    s.(db := CP.StoreResult(s.db, device, r),
       accepted := if v == CP.Accepted && r.runId !in s.accepted
                   then s.accepted[r.runId := CP.StoredResult(device, r)] else s.accepted)
  }

  ghost function SchedulerDoes(s: System, st: SchedulerStep): System
    requires SchedulerCan(s, st)
  {
    match st
    case Boot => s.(sched := Idle)
    case Crash => s.(sched := Down, up := Offline)
    case Recover(order) => ApplyRecover(s, order)
    case LoadDue(due) => s.(sched := Looping(due, s.clock))
    case NextItem => s.(sched := Starting(s.sched.due[1..], s.sched.dueAt, s.sched.due[0], s.clock))
    case EndRound => s.(sched := Idle)
    case BeginFails => s.(sched := Looping(s.sched.due, s.sched.dueAt))
    case BeginRun(run, replyLost) => ApplyBegin(s, run, replyLost)
    case ExecutorReturns(world, expired) =>
      s.(sched := Recording(s.sched.due, s.sched.dueAt, s.sched.id, s.sched.run,
                            Observation(s.sched.action, world, expired, s.clock)))
    case Abandon => s.(sched := Looping(s.sched.due, s.sched.dueAt))
    case Record => ApplyRecord(s)
  }

  ghost function NetworkDoes(s: System, st: NetworkStep): System
    requires NetworkCan(s, st)
  {
    match st
    case ReconcilePolicy(p) => ApplyReconcile(s, p)
    case Connect => s.(up := Quiet)
    case Disconnect => s.(up := Offline)
    case LoadPending(queue) => s.(up := Sending(queue))
    case StopSync => s.(up := Quiet)
    case Send(m) => s.(up := Awaiting(s.up.queue, m), requests := s.requests[m := s.up.queue[0].result])
    case ReplyArrives(v) => s.(up := Deleting(s.up.queue, v))
    case DeleteEntry => ApplyDelete(s)
  }

  ghost function WorldDoes(s: System, st: WorldStep): System
    requires WorldCan(s, st)
  {
    match st
    case Tick(now) => s.(clock := now)
    case ServerHandles(m) => ApplyHandle(s, m)
    case OtherDevice(d, r) => Stored(s, d, r).(others := s.others[r.runId := CP.StoredResult(d, r)])
    case Administer(db) =>
      s.(db := db, goneActions := s.goneActions + (s.db.actions.Keys - db.actions.Keys),
         goneDevices := s.goneDevices + (s.db.devices - db.devices))
  }

  ghost function Apply(s: System, st: Step): System
    requires Enabled(s, st)
  {
    match st
    case Scheduling(k) => SchedulerDoes(s, k)
    case Networking(k) => NetworkDoes(s, k)
    case World(k) => WorldDoes(s, k)
  }

  /** A malformed snapshot changes nothing. */
  ghost function ApplyReconcile(s: System, p: Policy): System {
    if !WellFormed(p) then s else WithWork(s, Reconcile(s.t.work, Desired(p), s.clock))
  }

  ghost function WithWork(s: System, work: Work): System {
    s.(t := s.t.(work := work), anchor := Restrict(s.anchor, UntouchedRows(s.t.work, work)))
  }

  ghost function ApplyDelete(s: System): System
    requires NetworkCan(s, DeleteEntry)
  {
    var head := s.up.queue[0];
    s.(t := s.t.(outbox := s.t.outbox - {head.sequence}), up := Sending(s.up.queue[1..]),
       place := s.place[head.result.runId := Settled(s.up.verdict)])
  }

  ghost function ApplyHandle(s: System, m: string): System
    requires m in s.requests
  {
    var r := s.requests[m];
    var v := CP.StoreVerdict(s.db, s.me, r);
    Stored(s, s.me, r).(replies := s.replies + {Reply(m, v)},
                        rejected := if v == CP.Rejected then s.rejected + {r.runId} else s.rejected)
  }

  ghost function ApplyBegin(s: System, run: string, replyLost: bool): System
    requires SchedulerCan(s, BeginRun(run, replyLost))
  {
    var k := s.sched;
    var row := s.t.work[k.id];
    s.(t := s.t.(work := s.t.work[k.id := Begun(row, run, k.started, s.clock)]),
       sched := if replyLost then Looping(k.due, k.dueAt) else Executing(k.due, k.dueAt, k.id, run, row.action),
       place := s.place[run := Running(k.id)], definition := s.definition[run := row.action],
       anchor := s.anchor[k.id := Anchor(k.started, Interval(row.action.intervalHours))])
  }

  ghost function ApplyRecord(s: System): System
    requires CanRecord(s)
  {
    var k := s.sched;
    var r := Stamped(k.obs, k.run);
    var t := Finish(s.t, r.actionId, r);
    s.(t := t, sched := Looping(k.due, k.dueAt),
       place := s.place[k.run := Queued(s.t.nextSeq)], produced := s.produced[k.run := r],
       observed := s.observed[k.run := k.obs], anchor := Restrict(s.anchor, t.work.Keys))
  }

  ghost predicate HasResult(outbox: Outbox, run: string) {
    exists q :: q in outbox && outbox[q].runId == run
  }

  ghost function SequenceOf(outbox: Outbox, run: string): (q: nat)
    requires HasResult(outbox, run)
    ensures q in outbox && outbox[q].runId == run
  {
    var q :| q in outbox && outbox[q].runId == run; q
  }

  /** Places after a recovery: every running run moves to its entry in the outbox. */
  ghost function Requeued(place: Places, outbox: Outbox): (p: Places)
    ensures p.Keys == place.Keys
    ensures forall r :: r in place && !place[r].Running? ==> p[r] == place[r]
    ensures forall r :: r in place && place[r].Running? ==> !p[r].Settled?
  {
    map r | r in place :: if place[r].Running? && HasResult(outbox, r) then Queued(SequenceOf(outbox, r)) else place[r]
  }

  /** Results after a recovery: the old ones, and the interruption of every run that was running. */
  ghost function WithInterruptions(place: Places, produced: Results, outbox: Outbox): Results {
    map r | r in place && (r in produced || (place[r].Running? && HasResult(outbox, r))) ::
      if r in produced then produced[r] else outbox[SequenceOf(outbox, r)]
  }

  /** A failed recovery transaction leaves everything as it was; the scheduler returns to waiting. */
  ghost function ApplyRecover(s: System, order: seq<string>): System
    requires SchedulerCan(s, Recover(order))
  {
    match RecoverAll(s.t, order, s.clock)
    case None => s
    case Some(t) =>
      s.(t := t, sched := Recovered,
         place := Requeued(s.place, t.outbox),
         produced := WithInterruptions(s.place, s.produced, t.outbox),
         anchor := Restrict(s.anchor, t.work.Keys))
  }

  // ---------------------------------------------------------------- invariant
  // Each conjunct names only the parts of the state it depends on.

  ghost predicate RunsIn(work: Work, id: string, run: string) {
    id in work && work[id].running && work[id].runId == Some(run)
  }

  ghost predicate WaitsIn(outbox: Outbox, q: nat, run: string) {
    q in outbox && outbox[q].runId == run
  }

  ghost predicate At(place: Places, run: string, p: Place) {
    run in place && place[run] == p
  }

  /** A run is in the work table exactly while it is `Running`, in the outbox exactly while `Queued`. */
  ghost predicate Placed(t: Tables, place: Places) {
    && (forall id, r :: RunsIn(t.work, id, r) <==> At(place, r, Running(id)))
    && (forall q, r :: WaitsIn(t.outbox, q, r) <==> At(place, r, Queued(q)))
  }

  /** Every run that left the work table has one recorded result, bound to the definition it began with. */
  ghost predicate Bound(t: Tables, place: Places, definition: Definitions, produced: Results) {
    && definition.Keys == place.Keys
    && (forall r :: r in produced <==> r in place && !place[r].Running?)
    && (forall q :: q in t.outbox ==> t.outbox[q].runId in produced && produced[t.outbox[q].runId] == t.outbox[q])
    && (forall r :: r in produced ==> ResultOf(produced[r], r, definition[r]))
    && (forall id, r :: RunsIn(t.work, id, r) ==>
          r in definition && definition[r].id == id && t.work[id].runDigest == Some(ActionDigest(definition[r])))
  }

  predicate ResultOf(x: ActionResult, run: string, definition: Action) {
    x.runId == run && Recordable(x) && x.digest == ActionDigest(definition) && x.actionId == definition.id
  }

  /** A result is either the record of an interruption or exactly what executing that definition produced. */
  ghost predicate Witnessed(definition: Definitions, produced: Results, observed: Observations) {
    forall r :: r in produced && produced[r].status != Indeterminate ==>
      && r in observed && r in definition && observed[r].action == definition[r]
      && produced[r] == Stamped(observed[r], r)
  }

  ghost predicate SchedulerOk(sched: Scheduler, place: Places, definition: Definitions) {
    match sched
    case Executing(_, _, id, run, action) =>
      run in place && place[run] == Running(id) && run in definition && action == definition[run]
    case Recording(_, _, id, run, obs) =>
      run in place && place[run] == Running(id) && run in definition && obs.action == definition[run]
    case _ => true
  }

  /** The upload queue is an initial part of the outbox, oldest first. */
  ghost predicate QueueOk(outbox: Outbox, queue: seq<Pending>) {
    && (forall i, j :: 0 <= i < j < |queue| ==> queue[i].sequence < queue[j].sequence)
    && (forall i :: 0 <= i < |queue| ==> queue[i].sequence in outbox && outbox[queue[i].sequence] == queue[i].result)
    && (forall q, i :: q in outbox && 0 <= i < |queue| && q < queue[i].sequence ==> Pending(q, outbox[q]) in queue)
  }

  ghost predicate VerdictKnown(me: string, r: ActionResult, v: CP.Verdict, accepted: StoredResults,
                               rejected: set<string>) {
    && (v == CP.Accepted ==> r.runId in accepted && accepted[r.runId] == CP.StoredResult(me, r))
    && (v == CP.Rejected ==> r.runId in rejected)
  }

  ghost predicate UploaderOk(me: string, up: Uploader, outbox: Outbox, requests: Results,
                             accepted: StoredResults, rejected: set<string>) {
    match up
    case Sending(queue) => QueueOk(outbox, queue)
    case Awaiting(queue, m) => QueueOk(outbox, queue) && queue != [] && m in requests && requests[m] == queue[0].result
    case Deleting(queue, v) =>
      && QueueOk(outbox, queue) && queue != [] && v != CP.Failure
      && VerdictKnown(me, queue[0].result, v, accepted, rejected)
    case _ => true
  }

  /** Requests carry recorded results only; a reply, and a settled run, tell the truth about the server. */
  ghost predicate NetworkOk(me: string, requests: Results, replies: set<Reply>,
                            produced: Results, accepted: StoredResults, rejected: set<string>) {
    && (forall m :: m in requests ==> requests[m].runId in produced && produced[requests[m].runId] == requests[m])
    && (forall p :: p in replies ==>
          p.message in requests && VerdictKnown(me, requests[p.message], p.verdict, accepted, rejected))
  }

  ghost predicate SettledOk(me: string, place: Places, produced: Results,
                            accepted: StoredResults, rejected: set<string>) {
    forall r :: r in place && place[r].Settled? ==>
      && r in produced && place[r].verdict != CP.Failure
      && VerdictKnown(me, produced[r], place[r].verdict, accepted, rejected)
  }

  /** The row of an accepted run is there, unchanged, unless its action or device was deleted. */
  ghost predicate ServerOk(db: CP.Database, goneActions: set<string>, goneDevices: set<string>,
                           accepted: StoredResults) {
    && CP.Consistent(db)
    && db.actions.Keys !! goneActions && db.devices !! goneDevices
    && (forall r :: r in db.results ==> r in accepted && accepted[r] == db.results[r])
    && (forall r :: r in accepted && r !in db.results ==>
          accepted[r].result.actionId in goneActions || accepted[r].device in goneDevices)
  }

  /** What is accepted under a run identifier is what its device recorded. */
  ghost predicate AcceptedOk(me: string, place: Places, produced: Results,
                             others: StoredResults, accepted: StoredResults) {
    && (forall r :: r in accepted && r in place ==> r in produced && accepted[r] == CP.StoredResult(me, produced[r]))
    && (forall r :: r in accepted && r !in place ==> r in others && accepted[r] == others[r])
    && place.Keys !! others.Keys
    && (forall r :: r in others ==> others[r].device != me)
  }

  /** Exactly one audit event per accepted run. */
  ghost predicate AuditsOk(audits: seq<CP.AuditEvent>, accepted: StoredResults) {
    && (forall i, j :: 0 <= i < j < |audits| ==> audits[i].run != audits[j].run)
    && (forall i :: 0 <= i < |audits| ==> audits[i].run in accepted)
    && (forall r :: r in accepted ==> CP.AuditEvent(accepted[r].result.actionId, accepted[r].device, r) in audits)
  }

  /** The next time of an anchored row is exactly one interval after its latest start. */
  ghost predicate Anchored(work: Work, anchor: Anchors) {
    forall id :: id in anchor ==>
      && id in work && anchor[id].interval == Interval(work[id].action.intervalHours)
      && work[id].nextAt == anchor[id].start + anchor[id].interval
  }

  ghost predicate DueOk(clock: Time, due: seq<string>, dueAt: Time, work: Work, anchor: Anchors) {
    && (forall i, j :: 0 <= i < j < |due| ==> due[i] != due[j])
    && dueAt <= clock
    && (forall id :: id in due && id in anchor && id in work ==> work[id].nextAt <= dueAt)
  }

  ghost predicate Spaced(clock: Time, sched: Scheduler, work: Work, anchor: Anchors) {
    match sched
    case Looping(due, dueAt) => DueOk(clock, due, dueAt, work, anchor)
    case Starting(due, dueAt, id, started) =>
      && DueOk(clock, due, dueAt, work, anchor) && id !in due && dueAt <= started <= clock
      && (id in anchor && id in work ==> work[id].nextAt <= dueAt)
    case Executing(due, dueAt, id, _, _) => DueOk(clock, due, dueAt, work, anchor) && id !in due
    case Recording(due, dueAt, id, _, _) => DueOk(clock, due, dueAt, work, anchor) && id !in due
    case _ => true
  }

  ghost predicate Inv(s: System) {
    && Sound(s.t.work) && SequencesBelow(s.t)
    && Placed(s.t, s.place) && Bound(s.t, s.place, s.definition, s.produced)
    && Witnessed(s.definition, s.produced, s.observed) && SchedulerOk(s.sched, s.place, s.definition)
    && UploaderOk(s.me, s.up, s.t.outbox, s.requests, s.accepted, s.rejected)
    && NetworkOk(s.me, s.requests, s.replies, s.produced, s.accepted, s.rejected)
    && SettledOk(s.me, s.place, s.produced, s.accepted, s.rejected)
    && ServerOk(s.db, s.goneActions, s.goneDevices, s.accepted)
    && AcceptedOk(s.me, s.place, s.produced, s.others, s.accepted)
    && AuditsOk(s.db.audits, s.accepted)
    && Anchored(s.t.work, s.anchor) && Spaced(s.clock, s.sched, s.t.work, s.anchor)
  }

  ghost predicate Init(s: System) {
    && s.t == Tables(map[], map[], 1) && s.sched == Down && s.up == Offline
    && s.requests == map[] && s.replies == {} && s.place == map[] && s.definition == map[]
    && s.produced == map[] && s.observed == map[] && s.others == map[] && s.accepted == map[] && s.rejected == {}
    && s.goneActions == {} && s.goneDevices == {} && s.anchor == map[]
    && CP.Consistent(s.db) && s.db.results == map[] && s.db.audits == []
  }

  // ---------------------------------------------------------------- preservation, step by step

  lemma InitOk(s: System)
    requires Init(s)
    ensures Inv(s)
  {
  }

  lemma LocalSteps(s: System, st: SchedulerStep)
    requires Inv(s) && SchedulerCan(s, st)
    requires st.Boot? || st.Crash? || st.EndRound? || st.BeginFails? || st.ExecutorReturns? || st.Abandon?
    ensures Inv(SchedulerDoes(s, st))
  {
  }

  lemma TickStep(s: System, now: Time)
    requires Inv(s) && WorldCan(s, Tick(now))
    ensures Inv(WorldDoes(s, Tick(now)))
  {
    assert Spaced(now, s.sched, s.t.work, s.anchor);
  }

  lemma LoadDueStep(s: System, due: seq<string>)
    requires Inv(s) && SchedulerCan(s, LoadDue(due))
    ensures Inv(SchedulerDoes(s, LoadDue(due)))
  {
    forall id | id in due ensures id in s.t.work && s.t.work[id].nextAt <= s.clock {
      assert id in set x | x in s.t.work && Runnable(s.t.work, x, s.clock);
    }
    assert DueOk(s.clock, due, s.clock, s.t.work, s.anchor);
  }

  lemma NextItemStep(s: System)
    requires Inv(s) && SchedulerCan(s, NextItem)
    ensures Inv(SchedulerDoes(s, NextItem))
  {
    hide Sound, SequencesBelow, Placed, Bound, Witnessed, UploaderOk, NetworkOk, SettledOk, ServerOk, AcceptedOk;
    hide AuditsOk, Anchored, Spaced;
    NextItemSpaced(s.clock, s.sched, s.t.work, s.anchor);
  }

  lemma NextItemSpaced(clock: Time, k: Scheduler, work: Work, anchor: Anchors)
    requires k.Looping? && k.due != [] && Spaced(clock, k, work, anchor)
    ensures Spaced(clock, Starting(k.due[1..], k.dueAt, k.due[0], clock), work, anchor)
  {
    var due, rest := k.due, k.due[1..];
    assert forall id :: id in rest ==> id in due;
    assert due[0] !in rest && due[0] in due;
  }

  lemma BeginStep(s: System, run: string, replyLost: bool)
    requires Inv(s) && SchedulerCan(s, BeginRun(run, replyLost))
    ensures Inv(SchedulerDoes(s, BeginRun(run, replyLost)))
  {
    hide Sound, Placed, Bound, Witnessed, UploaderOk, NetworkOk, SettledOk, ServerOk, AcceptedOk, AuditsOk, Anchored;
    var k := s.sched;
    BeginPlaced(s.t, s.place, k.id, run, k.started, s.clock);
    BeginBound(s.t, s.place, s.definition, s.produced, k.id, run, k.started, s.clock);
    BeginHistory(s.me, s.t, s.place, s.definition, s.produced, s.observed, s.others, s.accepted, s.rejected, k.id,
                 run, s.t.work[k.id].action);
    BeginSpaced(s.clock, k, s.t.work, s.anchor, run);
  }

  lemma BeginPlaced(t: Tables, place: Places, id: string, run: string, started: Time, now: Time)
    requires Sound(t.work) && Placed(t, place) && Runnable(t.work, id, now) && run != "" && run !in place
    ensures var t' := t.(work := t.work[id := Begun(t.work[id], run, started, now)]);
      Sound(t'.work) && Placed(t', place[run := Running(id)])
  {
    var t' := t.(work := t.work[id := Begun(t.work[id], run, started, now)]);
    var p' := place[run := Running(id)];
    forall x, r ensures RunsIn(t'.work, x, r) <==> At(p', r, Running(x)) {
      assert RunsIn(t.work, x, r) <==> At(place, r, Running(x));
      assert RunsIn(t.work, x, run) <==> At(place, run, Running(x));
    }
    forall q, r ensures WaitsIn(t.outbox, q, r) <==> At(p', r, Queued(q)) {
      assert WaitsIn(t.outbox, q, r) <==> At(place, r, Queued(q));
    }
  }

  lemma BeginBound(t: Tables, place: Places, definition: Definitions, produced: Results,
                   id: string, run: string, started: Time, now: Time)
    requires Sound(t.work) && Placed(t, place) && Bound(t, place, definition, produced)
    requires Runnable(t.work, id, now) && run !in place
    ensures var t' := t.(work := t.work[id := Begun(t.work[id], run, started, now)]);
      Bound(t', place[run := Running(id)], definition[run := t.work[id].action], produced)
  {
    var t' := t.(work := t.work[id := Begun(t.work[id], run, started, now)]);
    var d' := definition[run := t.work[id].action];
    forall x, r | RunsIn(t'.work, x, r)
      ensures r in d' && d'[r].id == x && t'.work[x].runDigest == Some(ActionDigest(d'[r]))
    {
      if x != id {
        assert RunsIn(t.work, x, r);
        assert At(place, r, Running(x));
      }
    }
  }

  /** A new run identifier cannot collide with anything recorded before. */
  lemma BeginHistory(me: string, t: Tables, place: Places, definition: Definitions, produced: Results,
                     observed: Observations, others: StoredResults,
                     accepted: StoredResults, rejected: set<string>, id: string, run: string, a: Action)
    requires Bound(t, place, definition, produced) && Witnessed(definition, produced, observed)
    requires SettledOk(me, place, produced, accepted, rejected) && AcceptedOk(me, place, produced, others, accepted)
    requires run !in place && run !in others
    ensures Witnessed(definition[run := a], produced, observed)
    ensures SettledOk(me, place[run := Running(id)], produced, accepted, rejected)
    ensures AcceptedOk(me, place[run := Running(id)], produced, others, accepted)
  {
    hide Bound, Witnessed, SettledOk, AcceptedOk;
    BeginWitnessed(t, place, definition, produced, observed, run, a);
    BeginSettled(me, place, produced, accepted, rejected, id, run);
    BeginAccepted(me, place, produced, others, accepted, id, run);
  }

  lemma BeginWitnessed(t: Tables, place: Places, definition: Definitions, produced: Results,
                       observed: Observations, run: string, a: Action)
    requires Bound(t, place, definition, produced) && Witnessed(definition, produced, observed) && run !in place
    ensures Witnessed(definition[run := a], produced, observed)
  {
    assert run !in produced;
  }

  lemma BeginSettled(me: string, place: Places, produced: Results,
                     accepted: StoredResults, rejected: set<string>, id: string, run: string)
    requires SettledOk(me, place, produced, accepted, rejected)
    ensures SettledOk(me, place[run := Running(id)], produced, accepted, rejected)
  {
  }

  lemma BeginAccepted(me: string, place: Places, produced: Results,
                      others: StoredResults, accepted: StoredResults, id: string, run: string)
    requires AcceptedOk(me, place, produced, others, accepted) && run !in place && run !in others
    ensures AcceptedOk(me, place[run := Running(id)], produced, others, accepted)
  {
    assert run !in accepted;
  }

  lemma BeginSpaced(clock: Time, k: Scheduler, work: Work, anchor: Anchors, run: string)
    requires k.Starting? && Anchored(work, anchor) && Spaced(clock, k, work, anchor) && k.id in work
    ensures var w' := work[k.id := Begun(work[k.id], run, k.started, clock)];
      var a' := anchor[k.id := Anchor(k.started, Interval(work[k.id].action.intervalHours))];
      Anchored(w', a') && DueOk(clock, k.due, k.dueAt, w', a')
  {
    NextExecuteBounds(work[k.id].action.intervalHours, k.started, clock);
  }

  lemma StampedIsResult(o: Observation, run: string)
    requires o.action.id != "" && run != ""
    ensures ResultOf(Stamped(o, run), run, o.action)
    ensures Stamped(o, run).status != Indeterminate && Stamped(o, run).completedAt == Some(o.at)
  {
  }

  /** Releasing a running row and appending the result of its run. */
  lemma FinishPlaced(t: Tables, place: Places, id: string, run: string, r: ActionResult)
    requires Sound(t.work) && SequencesBelow(t) && Placed(t, place) && At(place, run, Running(id)) && r.runId == run
    ensures id in t.work
    ensures var t' := Finish(t, id, r);
      Sound(t'.work) && SequencesBelow(t') && Placed(t', place[run := Queued(t.nextSeq)])
  {
    assert RunsIn(t.work, id, run);
    var t', p' := Finish(t, id, r), place[run := Queued(t.nextSeq)];
    forall x, y ensures RunsIn(t'.work, x, y) <==> At(p', y, Running(x)) {
      assert RunsIn(t.work, x, y) <==> At(place, y, Running(x));
    }
    forall q, y ensures WaitsIn(t'.outbox, q, y) <==> At(p', y, Queued(q)) {
      assert WaitsIn(t.outbox, q, y) <==> At(place, y, Queued(q));
      assert WaitsIn(t.outbox, t.nextSeq, y) <==> At(place, y, Queued(t.nextSeq));
    }
  }

  lemma FinishBound(t: Tables, place: Places, definition: Definitions, produced: Results,
                    id: string, run: string, r: ActionResult)
    requires Placed(t, place) && Bound(t, place, definition, produced) && SequencesBelow(t)
    requires At(place, run, Running(id)) && run in definition && ResultOf(r, run, definition[run])
    ensures id in t.work
    ensures Bound(Finish(t, id, r), place[run := Queued(t.nextSeq)], definition, produced[run := r])
  {
    assert RunsIn(t.work, id, run);
    var t' := Finish(t, id, r);
    forall x, y | RunsIn(t'.work, x, y)
      ensures y in definition && definition[y].id == x && t'.work[x].runDigest == Some(ActionDigest(definition[y]))
    {
      assert RunsIn(t.work, x, y);
    }
    forall q | q in t'.outbox
      ensures t'.outbox[q].runId in produced[run := r] && produced[run := r][t'.outbox[q].runId] == t'.outbox[q]
    {
      if q != t.nextSeq { assert t.outbox[q].runId != run; }
    }
  }

  /** A run in progress has its row, its identifier and the digest of the definition it began with. */
  lemma RunningFacts(t: Tables, place: Places, definition: Definitions, produced: Results,
                     id: string, run: string)
    requires Sound(t.work) && Placed(t, place) && Bound(t, place, definition, produced) && At(place, run, Running(id))
    ensures RunsIn(t.work, id, run) && run != "" && id != "" && run !in produced
    ensures run in definition && definition[run].id == id && t.work[id].runDigest == Some(ActionDigest(definition[run]))
  {
    assert RunsIn(t.work, id, run);
  }

  lemma RecordStep(s: System)
    requires Inv(s) && SchedulerCan(s, Record)
    ensures Inv(SchedulerDoes(s, Record))
  {
    hide Sound, SequencesBelow, Placed, Bound, Witnessed, UploaderOk, NetworkOk, SettledOk, ServerOk, AcceptedOk;
    hide AuditsOk, Anchored, Spaced;
    var k := s.sched;
    assert At(s.place, k.run, Running(k.id));
    RunningFacts(s.t, s.place, s.definition, s.produced, k.id, k.run);
    StampedIsResult(k.obs, k.run);
    var r := Stamped(k.obs, k.run);
    FinishPlaced(s.t, s.place, k.id, k.run, r);
    FinishBound(s.t, s.place, s.definition, s.produced, k.id, k.run, r);
    RecordHistory(s.definition, s.produced, s.observed, k.run, k.obs);
    RecordVerdicts(s.me, s.place, s.produced, s.requests, s.replies, s.others, s.accepted, s.rejected, k.run,
                   s.t.nextSeq, r);
    FinishQueue(s.me, s.up, s.t, k.id, r, s.requests, s.accepted, s.rejected);
    FinishSpaced(s.clock, k, s.t, k.id, r, s.anchor);
  }

  lemma RecordHistory(definition: Definitions, produced: Results, observed: Observations,
                      run: string, obs: Observation)
    requires Witnessed(definition, produced, observed) && run in definition && obs.action == definition[run]
    ensures Witnessed(definition, produced[run := Stamped(obs, run)], observed[run := obs])
  {
  }

  /** Recording the first and only result of a run disturbs nothing recorded before. */
  lemma RecordVerdicts(me: string, place: Places, produced: Results, requests: Results,
                       replies: set<Reply>, others: StoredResults, accepted: StoredResults,
                       rejected: set<string>, run: string, q: nat, r: ActionResult)
    requires NetworkOk(me, requests, replies, produced, accepted, rejected)
    requires SettledOk(me, place, produced, accepted, rejected) && AcceptedOk(me, place, produced, others, accepted)
    requires run !in produced && run in place
    ensures NetworkOk(me, requests, replies, produced[run := r], accepted, rejected)
    ensures SettledOk(me, place[run := Queued(q)], produced[run := r], accepted, rejected)
    ensures AcceptedOk(me, place[run := Queued(q)], produced[run := r], others, accepted)
  {
    assert run !in accepted;
  }

  lemma FinishQueue(me: string, up: Uploader, t: Tables, id: string, r: ActionResult, requests: Results,
                    accepted: StoredResults, rejected: set<string>)
    requires UploaderOk(me, up, t.outbox, requests, accepted, rejected) && SequencesBelow(t) && id in t.work
    ensures UploaderOk(me, up, Finish(t, id, r).outbox, requests, accepted, rejected)
  {
    QueueSurvivesAppend(me, up, t, Finish(t, id, r).outbox, requests, accepted, rejected);
  }

  lemma FinishSpaced(clock: Time, k: Scheduler, t: Tables, id: string, r: ActionResult, anchor: Anchors)
    requires k.Recording? && Anchored(t.work, anchor) && Spaced(clock, k, t.work, anchor) && id in t.work
    ensures var w' := Finish(t, id, r).work; var a' := Restrict(anchor, w'.Keys);
      Anchored(w', a') && Spaced(clock, Looping(k.due, k.dueAt), w', a')
  {
  }

  /** Appending to the outbox keeps the upload queue an initial part of it. */
  lemma QueueSurvivesAppend(me: string, up: Uploader, t: Tables, outbox: Outbox, requests: Results,
                            accepted: StoredResults, rejected: set<string>)
    requires UploaderOk(me, up, t.outbox, requests, accepted, rejected) && SequencesBelow(t)
    requires forall q :: q in t.outbox ==> q in outbox && outbox[q] == t.outbox[q]
    requires forall q :: q in outbox && q !in t.outbox ==> q >= t.nextSeq
    ensures UploaderOk(me, up, outbox, requests, accepted, rejected)
  {
    if up.Sending? || up.Awaiting? || up.Deleting? {
      var queue := up.queue;
      forall q, i | q in outbox && 0 <= i < |queue| && q < queue[i].sequence ensures Pending(q, outbox[q]) in queue {
        assert queue[i].sequence < t.nextSeq;
        assert q in t.outbox;
      }
    }
  }

  // ---------------------------------------------------------------- recovery

  lemma RecoverStep(s: System, order: seq<string>)
    requires Inv(s) && SchedulerCan(s, Recover(order))
    ensures Inv(SchedulerDoes(s, Recover(order)))
    ensures SchedulerDoes(s, Recover(order)).sched == Recovered
  {
    hide Sound, SequencesBelow, Placed, Bound, Witnessed, UploaderOk, NetworkOk, SettledOk, ServerOk, AcceptedOk;
    hide AuditsOk, Anchored, RecoveredFrom;
    hide Requeued, WithInterruptions, RecoverAll, Enumerates, Resolved, Restrict;
    RecoveryNeverFails(s.t, order, s.clock);
    var t := RecoverAll(s.t, order, s.clock).value;
    var s' := ApplyRecover(s, order);
    RecoverPlaced(s.t, s.place, order, s.clock, t, s'.place);
    RecoverBound(s.t, s.place, s.definition, s.produced, order, s.clock, t, s'.place, s'.produced);
    RecoverResolves(s.t, s.place, s.definition, s.produced, order, s.clock, t);
    RecoverHistory(s, s');
    RecoverRest(s.me, s.up, s.t, s.requests, s.accepted, s.rejected, order, s.clock, t, s.anchor);
  }

  lemma RecoverRest(me: string, up: Uploader, t: Tables, requests: Results, accepted: StoredResults,
                    rejected: set<string>, order: seq<string>, now: Time, t': Tables, anchor: Anchors)
    requires UploaderOk(me, up, t.outbox, requests, accepted, rejected) && SequencesBelow(t)
    requires RecoveredFrom(t, order, now, t')
    requires Anchored(t.work, anchor)
    ensures UploaderOk(me, up, t'.outbox, requests, accepted, rejected)
    ensures Anchored(t'.work, Restrict(anchor, t'.work.Keys))
  {
    QueueSurvivesAppend(me, up, t, t'.outbox, requests, accepted, rejected);
  }

  /** After recovery every interrupted run has its one result at the sequence its row was given. */
  lemma RecoverSequences(t: Tables, place: Places, order: seq<string>, now: Time, t': Tables)
    requires Sound(t.work) && SequencesBelow(t) && Placed(t, place)
    requires Enumerates(order, RunningIds(t.work)) && RecoveredFrom(t, order, now, t')
    ensures SequencesBelow(t')
    ensures forall id, r :: RunsIn(t.work, id, r) ==>
      && HasResult(t'.outbox, r) && SequenceOf(t'.outbox, r) >= t.nextSeq
      && t'.outbox[SequenceOf(t'.outbox, r)] == Interrupted(id, t.work[id], now)
      && forall q :: WaitsIn(t'.outbox, q, r) ==> q == SequenceOf(t'.outbox, r)
    ensures forall q: nat, r :: WaitsIn(t'.outbox, q, r) ==>
      WaitsIn(t.outbox, q, r) || (q >= t.nextSeq && exists id :: RunsIn(t.work, id, r))
  {
    forall q: nat, r | WaitsIn(t'.outbox, q, r)
      ensures WaitsIn(t.outbox, q, r) || (q >= t.nextSeq && exists id :: RunsIn(t.work, id, r))
    {
      if q !in t.outbox {
        var id := order[q - t.nextSeq];
        assert t'.outbox[t.nextSeq + (q - t.nextSeq)] == Interrupted(id, t.work[id], now);
        assert id in RunningIds(t.work);
        assert RunsIn(t.work, id, r);
      }
    }
    forall id, r | RunsIn(t.work, id, r)
      ensures HasResult(t'.outbox, r) && SequenceOf(t'.outbox, r) >= t.nextSeq
        && t'.outbox[SequenceOf(t'.outbox, r)] == Interrupted(id, t.work[id], now)
        && forall q :: WaitsIn(t'.outbox, q, r) ==> q == SequenceOf(t'.outbox, r)
    {
      RecoverSequence(t, place, order, now, t', id, r);
    }
  }

  lemma RecoverSequence(t: Tables, place: Places, order: seq<string>, now: Time, t': Tables, id: string, r: string)
    requires Sound(t.work) && SequencesBelow(t) && Placed(t, place)
    requires Enumerates(order, RunningIds(t.work)) && RecoveredFrom(t, order, now, t')
    requires RunsIn(t.work, id, r)
    ensures HasResult(t'.outbox, r) && SequenceOf(t'.outbox, r) >= t.nextSeq
    ensures t'.outbox[SequenceOf(t'.outbox, r)] == Interrupted(id, t.work[id], now)
    ensures forall q :: WaitsIn(t'.outbox, q, r) ==> q == SequenceOf(t'.outbox, r)
  {
    assert id in RunningIds(t.work);
    var i :| 0 <= i < |order| && order[i] == id;
    assert t'.outbox[t.nextSeq + i] == Interrupted(id, t.work[id], now);
    assert WaitsIn(t'.outbox, t.nextSeq + i, r);
    assert At(place, r, Running(id));
    forall q: nat | WaitsIn(t'.outbox, q, r) ensures q == t.nextSeq + i {
      assert WaitsIn(t.outbox, q, r) ==> At(place, r, Queued(q));
      if q !in t.outbox {
        var j := q - t.nextSeq;
        assert t'.outbox[t.nextSeq + j] == Interrupted(order[j], t.work[order[j]], now);
        assert order[j] in RunningIds(t.work);
        assert RunsIn(t.work, order[j], r);
        assert At(place, r, Running(order[j]));
      }
    }
    var q0 := SequenceOf(t'.outbox, r);
    assert WaitsIn(t'.outbox, q0, r);
  }

  lemma RecoverPlaced(t: Tables, place: Places, order: seq<string>, now: Time, t': Tables, p': Places)
    requires Sound(t.work) && SequencesBelow(t) && Placed(t, place)
    requires Enumerates(order, RunningIds(t.work)) && RecoveredFrom(t, order, now, t')
    requires p' == Requeued(place, t'.outbox)
    ensures Placed(t', p') && SequencesBelow(t')
  {
    RecoverSequences(t, place, order, now, t');
    forall id, r ensures RunsIn(t'.work, id, r) <==> At(p', r, Running(id)) {
      assert At(place, r, Running(id)) ==> RunsIn(t.work, id, r);
    }
    forall q, r ensures WaitsIn(t'.outbox, q, r) <==> At(p', r, Queued(q)) {
      if WaitsIn(t'.outbox, q, r) {
        if WaitsIn(t.outbox, q, r) {
          assert At(place, r, Queued(q));
        } else {
          var id :| RunsIn(t.work, id, r);
          assert At(place, r, Running(id));
        }
      }
      if At(p', r, Queued(q)) {
        if At(place, r, Queued(q)) {
          assert WaitsIn(t.outbox, q, r);
        } else {
          assert WaitsIn(t'.outbox, SequenceOf(t'.outbox, r), r);
        }
      }
    }
  }

  lemma RecoverProduced(t: Tables, place: Places, definition: Definitions, produced: Results,
                        order: seq<string>, now: Time, t': Tables, produced': Results)
    requires Sound(t.work) && SequencesBelow(t) && Placed(t, place) && Bound(t, place, definition, produced)
    requires Enumerates(order, RunningIds(t.work)) && RecoveredFrom(t, order, now, t')
    requires produced' == WithInterruptions(place, produced, t'.outbox)
    ensures produced'.Keys == place.Keys
    ensures forall r :: r in produced ==> r in produced' && produced'[r] == produced[r]
    ensures forall r :: r in produced' ==> ResultOf(produced'[r], r, definition[r])
    ensures forall r :: r in produced' && r !in produced ==>
      && HasResult(t'.outbox, r) && produced'[r] == t'.outbox[SequenceOf(t'.outbox, r)]
      && produced'[r].status == Indeterminate
  {
    hide SequencesBelow, Enumerates, RecoveredFrom, SequenceOf, HasResult, Sound, Placed;
    RecoverSequences(t, place, order, now, t');
    forall r | r in place && r !in produced
      ensures r in produced' && ResultOf(produced'[r], r, definition[r]) && produced'[r].status == Indeterminate
    {
      assert At(place, r, Running(place[r].work));
      RunningFacts(t, place, definition, produced, place[r].work, r);
    }
  }

  lemma RecoverBound(t: Tables, place: Places, definition: Definitions, produced: Results,
                     order: seq<string>, now: Time, t': Tables, place': Places, produced': Results)
    requires Sound(t.work) && SequencesBelow(t) && Placed(t, place) && Bound(t, place, definition, produced)
    requires Enumerates(order, RunningIds(t.work)) && RecoveredFrom(t, order, now, t')
    requires place' == Requeued(place, t'.outbox)
    requires produced' == WithInterruptions(place, produced, t'.outbox)
    ensures Bound(t', place', definition, produced')
  {
    hide Sound, Placed, Enumerates, SequenceOf, Requeued, WithInterruptions;
    RecoverProduced(t, place, definition, produced, order, now, t', produced');
    forall q | q in t'.outbox ensures t'.outbox[q].runId in produced' && produced'[t'.outbox[q].runId] == t'.outbox[q] {
      RecoverOutbox(t, place, definition, produced, order, now, t', produced', q);
    }
    RecoverKeys(place, produced, t'.outbox);
    forall id, r ensures !RunsIn(t'.work, id, r) {}
  }

  lemma RecoverKeys(place: Places, produced: Results, outbox: Outbox)
    requires WithInterruptions(place, produced, outbox).Keys == place.Keys
    requires forall r :: r in produced <==> r in place && !place[r].Running?
    ensures forall r :: r in place ==> !Requeued(place, outbox)[r].Running?
  {
    forall r | r in place ensures !Requeued(place, outbox)[r].Running? {
      assert r in WithInterruptions(place, produced, outbox);
    }
  }

  lemma RecoverOutbox(t: Tables, place: Places, definition: Definitions, produced: Results,
                      order: seq<string>, now: Time, t': Tables, produced': Results, q: nat)
    requires Sound(t.work) && SequencesBelow(t) && Placed(t, place) && Bound(t, place, definition, produced)
    requires Enumerates(order, RunningIds(t.work)) && RecoveredFrom(t, order, now, t')
    requires produced' == WithInterruptions(place, produced, t'.outbox) && q in t'.outbox
    ensures t'.outbox[q].runId in produced' && produced'[t'.outbox[q].runId] == t'.outbox[q]
  {
    RecoverSequences(t, place, order, now, t');
    var r := t'.outbox[q].runId;
    assert WaitsIn(t'.outbox, q, r);
    if WaitsIn(t.outbox, q, r) {
      assert At(place, r, Queued(q));
    } else {
      var id :| RunsIn(t.work, id, r);
      assert At(place, r, Running(id));
    }
  }

  /** Every running entry got an indeterminate result; everything else is as it was. */
  ghost predicate Resolved(place: Places, produced: Results,
                           place': Places, produced': Results) {
    && place'.Keys == place.Keys == produced'.Keys
    && (forall r :: r in place && !place[r].Running? ==> place'[r] == place[r])
    && (forall r :: r in place && place[r].Running? ==> !place'[r].Settled?)
    && (forall r :: r in produced' && r !in produced ==> produced'[r].status == Indeterminate)
    && (forall r :: r in produced ==> r in produced' && produced'[r] == produced[r])
  }

  lemma RecoverResolves(t: Tables, place: Places, definition: Definitions, produced: Results,
                        order: seq<string>, now: Time, t': Tables)
    requires Sound(t.work) && SequencesBelow(t) && Placed(t, place) && Bound(t, place, definition, produced)
    requires Enumerates(order, RunningIds(t.work)) && RecoveredFrom(t, order, now, t')
    ensures Resolved(place, produced, Requeued(place, t'.outbox), WithInterruptions(place, produced, t'.outbox))
  {
    hide Sound, SequencesBelow, Placed, Enumerates, RecoveredFrom, WithInterruptions, HasResult, SequenceOf, ResultOf;
    RecoverProduced(t, place, definition, produced, order, now, t', WithInterruptions(place, produced, t'.outbox));
  }

  /** Recovery adds results only for runs that had none. */
  lemma RecoverHistory(s: System, s': System)
    requires Witnessed(s.definition, s.produced, s.observed)
    requires NetworkOk(s.me, s.requests, s.replies, s.produced, s.accepted, s.rejected)
    requires SettledOk(s.me, s.place, s.produced, s.accepted, s.rejected)
    requires AcceptedOk(s.me, s.place, s.produced, s.others, s.accepted)
    requires Resolved(s.place, s.produced, s'.place, s'.produced)
    ensures Witnessed(s.definition, s'.produced, s.observed)
    ensures NetworkOk(s.me, s.requests, s.replies, s'.produced, s.accepted, s.rejected)
    ensures SettledOk(s.me, s'.place, s'.produced, s.accepted, s.rejected)
    ensures AcceptedOk(s.me, s'.place, s'.produced, s.others, s.accepted)
  {
  }

  // ---------------------------------------------------------------- reconciliation

  lemma ReconcileStep(s: System, p: Policy)
    requires Inv(s) && NetworkCan(s, ReconcilePolicy(p))
    ensures Inv(NetworkDoes(s, ReconcilePolicy(p)))
  {
    hide Sound, SequencesBelow, Placed, Bound, Witnessed, UploaderOk, NetworkOk, SettledOk, ServerOk, AcceptedOk;
    hide AuditsOk, Anchored, Spaced;
    hide WellFormed, Reconcile, Desired, Restrict, UntouchedRows, SchedulerOk;
    if WellFormed(p) {
      ReconcileRuns(s.t, s.place, s.definition, s.produced, p, s.clock);
      ReconcileSpacing(s.clock, s.sched, s.t, p, s.anchor);
    }
  }

  lemma ReconcileRuns(t: Tables, place: Places, definition: Definitions, produced: Results, p: Policy, now: Time)
    requires Sound(t.work) && SequencesBelow(t) && Placed(t, place) && Bound(t, place, definition, produced)
    requires WellFormed(p)
    ensures var t' := t.(work := Reconcile(t.work, Desired(p), now));
      Sound(t'.work) && SequencesBelow(t') && Placed(t', place) && Bound(t', place, definition, produced)
  {
    hide WellFormed, Reconcile, Desired;
    var work := Reconcile(t.work, Desired(p), now);
    ReconcileKeepsRuns(t.work, p, now);
    forall id, r | RunsIn(work, id, r)
      ensures r in definition && definition[r].id == id && work[id].runDigest == Some(ActionDigest(definition[r]))
    {
      assert RunsIn(t.work, id, r);
    }
  }

  lemma ReconcileSpacing(clock: Time, sched: Scheduler, t: Tables, p: Policy, anchor: Anchors)
    requires Anchored(t.work, anchor) && Spaced(clock, sched, t.work, anchor) && WellFormed(p) && Sound(t.work)
    ensures var work := Reconcile(t.work, Desired(p), clock);
      var kept := Restrict(anchor, UntouchedRows(t.work, work));
      Anchored(work, kept) && Spaced(clock, sched, work, kept)
  {
    hide WellFormed, Desired, Reconcile;
  }

  /** Reconciliation neither starts, ends nor alters any run, and keeps the store sound. */
  lemma ReconcileKeepsRuns(work: Work, p: Policy, now: Time)
    requires Sound(work) && WellFormed(p)
    ensures var w := Reconcile(work, Desired(p), now);
      && Sound(w)
      && (forall id, r :: RunsIn(w, id, r) <==> RunsIn(work, id, r))
      && (forall id, r :: RunsIn(work, id, r) ==> w[id].runDigest == work[id].runDigest)
  {
    var d := Desired(p);
    var w := Reconcile(work, d, now);
    ReconcileMeaning(work, d, now);
    forall id | id in w
      ensures id != "" && w[id].action.id == id && (w[id].running <==> w[id].runId.Some?)
      ensures (w[id].running <==> w[id].runDigest.Some?)
    {
      DesiredLookup(p, id);
      assert w[id] == Target(Get(work, id), Get(d, id), now).value;
    }
  }

  // ---------------------------------------------------------------- upload

  lemma UploadSteps(s: System, st: NetworkStep)
    requires Inv(s) && NetworkCan(s, st) && !st.ReconcilePolicy? && !st.DeleteEntry?
    ensures Inv(NetworkDoes(s, st))
  {
    hide Sound, SequencesBelow, Placed, Bound, Witnessed, SchedulerOk, SettledOk, ServerOk, AcceptedOk, AuditsOk;
    hide Anchored, Spaced;
    match st
    case Send(m) => hide NetworkOk; SendIsRecorded(s, m);
    case LoadPending(queue) => hide NetworkOk; SnapshotIsQueue(queue, s.t.outbox);
    case ReplyArrives(v) => hide QueueOk;
    case _ => hide NetworkOk, QueueOk;
  }

  lemma SendIsRecorded(s: System, m: string)
    requires Bound(s.t, s.place, s.definition, s.produced) && s.up.Sending? && QueueOk(s.t.outbox, s.up.queue)
    requires s.up.queue != []
    requires NetworkOk(s.me, s.requests, s.replies, s.produced, s.accepted, s.rejected) && m !in s.requests
    ensures NetworkOk(s.me, s.requests[m := s.up.queue[0].result], s.replies, s.produced, s.accepted, s.rejected)
  {
    var head := s.up.queue[0];
    assert head.sequence in s.t.outbox && s.t.outbox[head.sequence] == head.result;
  }

  lemma SnapshotIsQueue(queue: seq<Pending>, outbox: Outbox)
    requires Snapshot(queue, outbox)
    ensures QueueOk(outbox, queue)
  {
  }

  lemma DeleteStep(s: System)
    requires Inv(s) && NetworkCan(s, DeleteEntry)
    ensures Inv(NetworkDoes(s, DeleteEntry))
  {
    hide Sound, SequencesBelow, Placed, Bound, Witnessed, NetworkOk, SettledOk, ServerOk, AcceptedOk, AuditsOk;
    hide Anchored, Spaced;
    var head := s.up.queue[0];
    var run := head.result.runId;
    assert WaitsIn(s.t.outbox, head.sequence, run);
    DeletePlaced(s.t, s.place, head.sequence, run, s.up.verdict);
    DeleteBound(s.t, s.place, s.definition, s.produced, head.sequence, run, s.up.verdict);
    DeleteQueue(s.t.outbox, s.up.queue);
    DeleteSettles(s.me, s.place, s.produced, s.others, s.accepted, s.rejected, head.result, s.up.verdict);
  }

  lemma DeleteQueue(outbox: Outbox, queue: seq<Pending>)
    requires QueueOk(outbox, queue) && queue != []
    ensures QueueOk(outbox - {queue[0].sequence}, queue[1..])
  {
    var rest, left := queue[1..], outbox - {queue[0].sequence};
    forall q, i | q in left && 0 <= i < |rest| && q < rest[i].sequence ensures Pending(q, left[q]) in rest {
      assert q < queue[i + 1].sequence;
      assert Pending(q, outbox[q]) in queue;
    }
  }

  lemma DeleteSettles(me: string, place: Places, produced: Results, others: StoredResults,
                      accepted: StoredResults, rejected: set<string>, r: ActionResult, v: CP.Verdict)
    requires SettledOk(me, place, produced, accepted, rejected) && AcceptedOk(me, place, produced, others, accepted)
    requires r.runId in place && r.runId in produced && produced[r.runId] == r
    requires v != CP.Failure && VerdictKnown(me, r, v, accepted, rejected)
    ensures SettledOk(me, place[r.runId := Settled(v)], produced, accepted, rejected)
    ensures AcceptedOk(me, place[r.runId := Settled(v)], produced, others, accepted)
  {
  }

  lemma DeletePlaced(t: Tables, place: Places, q0: nat, run: string, v: CP.Verdict)
    requires Placed(t, place) && WaitsIn(t.outbox, q0, run) && SequencesBelow(t)
    ensures At(place, run, Queued(q0)) && SequencesBelow(t.(outbox := t.outbox - {q0}))
    ensures Placed(t.(outbox := t.outbox - {q0}), place[run := Settled(v)])
  {
    var t', p' := t.(outbox := t.outbox - {q0}), place[run := Settled(v)];
    assert At(place, run, Queued(q0));
    forall id, r ensures RunsIn(t'.work, id, r) <==> At(p', r, Running(id)) {
      assert RunsIn(t.work, id, r) <==> At(place, r, Running(id));
    }
    forall q, r ensures WaitsIn(t'.outbox, q, r) <==> At(p', r, Queued(q)) {
      assert WaitsIn(t.outbox, q, r) <==> At(place, r, Queued(q));
    }
  }

  lemma DeleteBound(t: Tables, place: Places, definition: Definitions, produced: Results,
                    q0: nat, run: string, v: CP.Verdict)
    requires Placed(t, place) && Bound(t, place, definition, produced) && WaitsIn(t.outbox, q0, run)
    ensures run in produced && produced[run] == t.outbox[q0]
    ensures Bound(t.(outbox := t.outbox - {q0}), place[run := Settled(v)], definition, produced)
  {
    assert At(place, run, Queued(q0));
  }

  // ---------------------------------------------------------------- server

  /** A device or action that was deleted is assigned nothing, ever again. */
  lemma GoneIsUnassigned(db: CP.Database, goneActions: set<string>, goneDevices: set<string>, device: string,
                         id: string)
    requires CP.Consistent(db) && db.actions.Keys !! goneActions && db.devices !! goneDevices
    requires id in goneActions || device in goneDevices
    ensures id !in CP.ListActionsForDevice(db, device)
  {
    CP.QueriesAgree(db, device);
  }

  /** A consistent server never answers a well-formed report with an internal error, and stores a run
      at most once. `known` fixes what is reported under this run identifier. */
  lemma StoreStep(db: CP.Database, goneActions: set<string>, goneDevices: set<string>, accepted: StoredResults,
                  device: string, r: ActionResult)
    requires ServerOk(db, goneActions, goneDevices, accepted) && AuditsOk(db.audits, accepted)
    requires r.runId in accepted ==> accepted[r.runId] == CP.StoredResult(device, r)
    ensures var db' := CP.StoreResult(db, device, r); var v := CP.StoreVerdict(db, device, r);
      var isNew := v == CP.Accepted && r.runId !in accepted;
      var a' := if isNew then accepted[r.runId := CP.StoredResult(device, r)] else accepted;
      && ServerOk(db', goneActions, goneDevices, a') && AuditsOk(db'.audits, a')
      && (v == CP.Accepted ==> r.runId in a' && a'[r.runId] == CP.StoredResult(device, r))
      && (forall x :: x in accepted ==> x in a' && a'[x] == accepted[x])
  {
    hide ServerOk, AuditsOk, CP.StoreVerdict;
    var v := CP.StoreVerdict(db, device, r);
    if v == CP.Accepted && r.runId !in db.results {
      NewResult(db, goneActions, goneDevices, accepted, device, r);
    } else if v == CP.Accepted {
      OldResult(db, goneActions, goneDevices, accepted, device, r);
    }
  }

  /** A result accepted for the first time: its run was never accepted before, and its row and its one audit
      event are added together. */
  lemma NewResult(db: CP.Database, goneActions: set<string>, goneDevices: set<string>, accepted: StoredResults,
                  device: string, r: ActionResult)
    requires ServerOk(db, goneActions, goneDevices, accepted) && AuditsOk(db.audits, accepted)
    requires r.runId in accepted ==> accepted[r.runId] == CP.StoredResult(device, r)
    requires CP.StoreVerdict(db, device, r) == CP.Accepted && r.runId !in db.results
    ensures r.runId !in accepted
    ensures var db' := CP.StoreResult(db, device, r); var a' := accepted[r.runId := CP.StoredResult(device, r)];
      ServerOk(db', goneActions, goneDevices, a') && AuditsOk(db'.audits, a')
  {
    hide AuditsOk;
    if r.runId in accepted { GoneIsUnassigned(db, goneActions, goneDevices, device, r.actionId); }
    AssignedDeviceExists(db, device, r.actionId);
    NewAudit(db.audits, accepted, r, device);
  }

  lemma NewAudit(audits: seq<CP.AuditEvent>, accepted: StoredResults, r: ActionResult, device: string)
    requires AuditsOk(audits, accepted) && r.runId !in accepted
    ensures var a' := accepted[r.runId := CP.StoredResult(device, r)];
      AuditsOk(audits + [CP.AuditEvent(r.actionId, device, r.runId)], a')
  {
    var e := CP.AuditEvent(r.actionId, device, r.runId);
    var longer, a' := audits + [e], accepted[r.runId := CP.StoredResult(device, r)];
    assert longer[|audits|] == e;
    forall x | x in a' ensures CP.AuditEvent(a'[x].result.actionId, a'[x].device, x) in longer {
      if x != r.runId { assert CP.AuditEvent(accepted[x].result.actionId, accepted[x].device, x) in audits; }
    }
  }

  lemma OldResult(db: CP.Database, goneActions: set<string>, goneDevices: set<string>, accepted: StoredResults,
                  device: string, r: ActionResult)
    requires ServerOk(db, goneActions, goneDevices, accepted)
    requires CP.StoreVerdict(db, device, r) == CP.Accepted && r.runId in db.results
    ensures r.runId in accepted && accepted[r.runId] == CP.StoredResult(device, r)
  {
  }

  lemma AssignedDeviceExists(db: CP.Database, device: string, id: string)
    requires CP.Consistent(db) && id in CP.ListActionsForDevice(db, device)
    ensures device in db.devices && id in db.actions
  {
    CP.QueriesAgree(db, device);
    var s :| s in db.assignments && db.assignments[s].actionId == id && CP.Targets(db, db.assignments[s], device);
  }

  lemma ServerStep(s: System, m: string)
    requires Inv(s) && WorldCan(s, ServerHandles(m))
    ensures Inv(WorldDoes(s, ServerHandles(m)))
  {
    hide Sound, SequencesBelow, Placed, Bound, Witnessed, SchedulerOk, UploaderOk, NetworkOk, SettledOk, ServerOk;
    hide AcceptedOk, AuditsOk, Anchored, Spaced;
    hide CP.StoreVerdict, CP.StoreResult;
    var r := s.requests[m];
    RequestIsRecorded(s.me, s.t, s.place, s.definition, s.produced, s.requests, s.replies, s.others, s.accepted,
                      s.rejected, m);
    StoreStep(s.db, s.goneActions, s.goneDevices, s.accepted, s.me, r);
    HandledVerdict(s, m);
    hide VerdictKnown;
    var s' := ApplyHandle(s, m);
    OneMoreReply(s, m, CP.StoreVerdict(s.db, s.me, r), s'.accepted, s'.rejected);
  }

  lemma HandledVerdict(s: System, m: string)
    requires ServerOk(s.db, s.goneActions, s.goneDevices, s.accepted) && AuditsOk(s.db.audits, s.accepted)
    requires m in s.requests
    requires var r := s.requests[m]; r.runId in s.accepted ==> s.accepted[r.runId] == CP.StoredResult(s.me, r)
    ensures var s' := ApplyHandle(s, m); var r := s.requests[m];
      && VerdictKnown(s.me, r, CP.StoreVerdict(s.db, s.me, r), s'.accepted, s'.rejected)
      && s.rejected <= s'.rejected
      && (forall x :: x in s.accepted ==> x in s'.accepted && s'.accepted[x] == s.accepted[x])
  {
    hide ServerOk, AuditsOk, CP.StoreVerdict, CP.StoreResult;
    StoreStep(s.db, s.goneActions, s.goneDevices, s.accepted, s.me, s.requests[m]);
  }

  /** Whatever is in flight is the recorded result of one of this device's runs. */
  lemma RequestIsRecorded(me: string, t: Tables, place: Places, definition: Definitions, produced: Results,
                          requests: Results, replies: set<Reply>, others: StoredResults,
                          accepted: StoredResults, rejected: set<string>, m: string)
    requires Bound(t, place, definition, produced) && NetworkOk(me, requests, replies, produced, accepted, rejected)
    requires AcceptedOk(me, place, produced, others, accepted) && m in requests
    ensures var r := requests[m];
      && (r.runId in accepted ==> accepted[r.runId] == CP.StoredResult(me, r))
      && AcceptedOk(me, place, produced, others, accepted[r.runId := CP.StoredResult(me, r)])
  {
  }

  /** Answering one request truthfully keeps every verdict known so far. */
  lemma OneMoreReply(s: System, m: string, v: CP.Verdict, accepted: StoredResults, rejected: set<string>)
    requires UploaderOk(s.me, s.up, s.t.outbox, s.requests, s.accepted, s.rejected)
    requires NetworkOk(s.me, s.requests, s.replies, s.produced, s.accepted, s.rejected)
    requires SettledOk(s.me, s.place, s.produced, s.accepted, s.rejected) && s.rejected <= rejected
    requires forall r :: r in s.accepted ==> r in accepted && accepted[r] == s.accepted[r]
    requires m in s.requests && VerdictKnown(s.me, s.requests[m], v, accepted, rejected)
    ensures UploaderOk(s.me, s.up, s.t.outbox, s.requests, accepted, rejected)
    ensures NetworkOk(s.me, s.requests, s.replies + {Reply(m, v)}, s.produced, accepted, rejected)
    ensures SettledOk(s.me, s.place, s.produced, accepted, rejected)
  {
    hide UploaderOk, NetworkOk, SettledOk, VerdictKnown;
    VerdictsSurvive(s, s.replies + {Reply(m, v)}, accepted, rejected);
  }

  /** What is known about verdicts stays known while acceptances and rejections only accumulate. */
  lemma VerdictsSurvive(s: System, replies: set<Reply>, accepted: StoredResults, rejected: set<string>)
    requires UploaderOk(s.me, s.up, s.t.outbox, s.requests, s.accepted, s.rejected)
    requires NetworkOk(s.me, s.requests, s.replies, s.produced, s.accepted, s.rejected)
    requires SettledOk(s.me, s.place, s.produced, s.accepted, s.rejected) && s.rejected <= rejected
    requires forall r :: r in s.accepted ==> r in accepted && accepted[r] == s.accepted[r]
    requires forall p :: p in replies && p !in s.replies ==>
      p.message in s.requests && VerdictKnown(s.me, s.requests[p.message], p.verdict, accepted, rejected)
    ensures UploaderOk(s.me, s.up, s.t.outbox, s.requests, accepted, rejected)
    ensures NetworkOk(s.me, s.requests, replies, s.produced, accepted, rejected)
    ensures SettledOk(s.me, s.place, s.produced, accepted, rejected)
  {
  }

  lemma OtherDeviceStep(s: System, d: string, r: ActionResult)
    requires Inv(s) && WorldCan(s, OtherDevice(d, r))
    ensures Inv(WorldDoes(s, OtherDevice(d, r)))
  {
    hide Sound, SequencesBelow, Placed, Bound, Witnessed, SchedulerOk, UploaderOk, NetworkOk, SettledOk, ServerOk;
    hide AcceptedOk, AuditsOk, Anchored, Spaced;
    hide CP.StoreVerdict, CP.StoreResult;
    OtherIsRecorded(s.me, s.place, s.produced, s.others, s.accepted, d, r);
    StoreStep(s.db, s.goneActions, s.goneDevices, s.accepted, d, r);
    VerdictsSurvive(s, s.replies, Stored(s, d, r).accepted, s.rejected);
  }

  lemma OtherIsRecorded(me: string, place: Places, produced: Results, others: StoredResults,
                        accepted: StoredResults, d: string, r: ActionResult)
    requires AcceptedOk(me, place, produced, others, accepted) && r.runId !in place && d != me
    requires r.runId in others ==> others[r.runId] == CP.StoredResult(d, r)
    ensures r.runId in accepted ==> accepted[r.runId] == CP.StoredResult(d, r)
    ensures var others' := others[r.runId := CP.StoredResult(d, r)];
      && AcceptedOk(me, place, produced, others', accepted)
      && AcceptedOk(me, place, produced, others', accepted[r.runId := CP.StoredResult(d, r)])
  {
  }

  lemma AdministerStep(s: System, db: CP.Database)
    requires Inv(s) && WorldCan(s, Administer(db))
    ensures Inv(WorldDoes(s, Administer(db)))
  {
    hide Sound, SequencesBelow, Placed, Bound, Witnessed, SchedulerOk, UploaderOk, NetworkOk, SettledOk, AcceptedOk;
    hide Anchored, Spaced;
    var s' := WorldDoes(s, Administer(db));
    forall r | r in s.accepted && r !in db.results
      ensures s.accepted[r].result.actionId in s'.goneActions || s.accepted[r].device in s'.goneDevices
    {
      if r in s.db.results {
        assert s.db.results[r].result.actionId in s.db.actions && s.db.results[r].device in s.db.devices;
      }
    }
  }

  lemma SchedulerStepOk(s: System, st: SchedulerStep)
    requires Inv(s) && SchedulerCan(s, st)
    ensures Inv(SchedulerDoes(s, st))
  {
    hide *;
    match st
    case Recover(order) => RecoverStep(s, order);
    case LoadDue(due) => LoadDueStep(s, due);
    case NextItem => NextItemStep(s);
    case BeginRun(run, replyLost) => BeginStep(s, run, replyLost);
    case Record => RecordStep(s);
    case _ => LocalSteps(s, st);
  }

  lemma NetworkStepOk(s: System, st: NetworkStep)
    requires Inv(s) && NetworkCan(s, st)
    ensures Inv(NetworkDoes(s, st))
  {
    hide *;
    match st
    case ReconcilePolicy(p) => ReconcileStep(s, p);
    case DeleteEntry => DeleteStep(s);
    case _ => UploadSteps(s, st);
  }

  lemma WorldStepOk(s: System, st: WorldStep)
    requires Inv(s) && WorldCan(s, st)
    ensures Inv(WorldDoes(s, st))
  {
    hide *;
    match st
    case Tick(now) => TickStep(s, now);
    case ServerHandles(m) => ServerStep(s, m);
    case OtherDevice(d, r) => OtherDeviceStep(s, d, r);
    case Administer(db) => AdministerStep(s, db);
  }

  /** Every step of every interleaving keeps the invariant. */
  lemma StepOk(s: System, st: Step)
    requires Inv(s) && Enabled(s, st)
    ensures Inv(Apply(s, st))
  {
    hide Inv, SchedulerCan, NetworkCan, WorldCan, SchedulerDoes, NetworkDoes, WorldDoes;
    match st
    case Scheduling(k) => SchedulerStepOk(s, k);
    case Networking(k) => NetworkStepOk(s, k);
    case World(k) => WorldStepOk(s, k);
  }

  // ---------------------------------------------------------------- whole runs

  ghost predicate ValidRun(s: System, steps: seq<Step>)
    decreases |steps|
  {
    steps == [] || (Enabled(s, steps[0]) && ValidRun(Apply(s, steps[0]), steps[1..]))
  }

  ghost function After(s: System, steps: seq<Step>): System
    requires ValidRun(s, steps)
    decreases |steps|
  {
    if steps == [] then s else After(Apply(s, steps[0]), steps[1..])
  }

  /** The invariant holds after any number of steps of any interleaving. */
  lemma {:induction false} RunOk(s: System, steps: seq<Step>)
    requires Inv(s) && ValidRun(s, steps)
    ensures Inv(After(s, steps))
    decreases |steps|
  {
    hide Inv, Enabled, Apply;
    if steps != [] {
      StepOk(s, steps[0]);
      RunOk(Apply(s, steps[0]), steps[1..]);
    }
  }

  /** What later states never take back: runs, results, acceptances, settlements and audit events. */
  ghost predicate Grows(s: System, s': System) {
    && s'.me == s.me && s.place.Keys <= s'.place.Keys && s.db.audits <= s'.db.audits
    && (forall r :: r in s.definition ==> r in s'.definition && s'.definition[r] == s.definition[r])
    && (forall r :: r in s.produced ==> r in s'.produced && s'.produced[r] == s.produced[r])
    && (forall r :: r in s.accepted ==> r in s'.accepted && s'.accepted[r] == s.accepted[r])
    && (forall r :: r in s.place && s.place[r].Settled? ==> r in s'.place && s'.place[r] == s.place[r])
  }

  lemma StepGrows(s: System, st: Step)
    requires Inv(s) && Enabled(s, st)
    ensures Grows(s, Apply(s, st))
  {
    hide Inv, SchedulerCan, NetworkCan, WorldCan, SchedulerDoes, NetworkDoes, WorldDoes, Grows;
    match st
    case Scheduling(k) => SchedulerGrows(s, k);
    case Networking(k) => NetworkGrows(s, k);
    case World(k) => WorldGrows(s, k);
  }

  lemma SchedulerGrows(s: System, k: SchedulerStep)
    requires Inv(s) && SchedulerCan(s, k)
    ensures Grows(s, SchedulerDoes(s, k))
  {
    hide Sound, SequencesBelow, Placed, Bound, Witnessed, UploaderOk, NetworkOk, SettledOk, ServerOk, AcceptedOk;
    hide AuditsOk, Anchored, Spaced;
    hide RecoverAll, Stamped, Enumerates, Requeued, WithInterruptions;
    match k
    case Recover(order) => hide Grows; RecoverGrows(s, order);
    case Record => RecordIsFirst(s.t, s.place, s.definition, s.produced, s.sched.run, s.sched.id);
    case BeginRun(run, _) => RecordIsFresh(s.t, s.place, s.definition, s.produced, run);
    case _ => hide Grows; NothingGrows(s, SchedulerDoes(s, k));
  }

  lemma RecoverGrows(s: System, order: seq<string>)
    requires Inv(s) && SchedulerCan(s, Recover(order))
    ensures Grows(s, SchedulerDoes(s, Recover(order)))
  {
    hide Sound, SequencesBelow, Placed, Bound, Witnessed, UploaderOk, NetworkOk, SettledOk, ServerOk, AcceptedOk;
    hide AuditsOk, Anchored, Spaced;
    hide RecoverAll, Enumerates, WithInterruptions;
    var t := RecoverAll(s.t, order, s.clock);
    if t.Some? { InterruptionsGrow(s.t, s.place, s.definition, s.produced, t.value.outbox); }
  }

  lemma InterruptionsGrow(t: Tables, place: Places, definition: Definitions, produced: Results, outbox: Outbox)
    requires Bound(t, place, definition, produced)
    ensures var p := WithInterruptions(place, produced, outbox);
      forall r :: r in produced ==> r in p && p[r] == produced[r]
  {
  }

  lemma RecordIsFirst(t: Tables, place: Places, definition: Definitions, produced: Results, run: string, id: string)
    requires Bound(t, place, definition, produced) && At(place, run, Running(id))
    ensures run !in produced && !place[run].Settled?
  {
  }

  lemma RecordIsFresh(t: Tables, place: Places, definition: Definitions, produced: Results, run: string)
    requires Bound(t, place, definition, produced) && run !in place
    ensures run !in definition
  {
  }

  lemma NetworkGrows(s: System, k: NetworkStep)
    requires Inv(s) && NetworkCan(s, k)
    ensures Grows(s, NetworkDoes(s, k))
  {
    hide Inv, Grows, NetworkCan, NetworkDoes;
    if k.DeleteEntry? {
      DeleteGrows(s);
    } else {
      NetworkKeeps(s, k);
      NothingGrows(s, NetworkDoes(s, k));
    }
  }

  lemma NetworkKeeps(s: System, k: NetworkStep)
    requires NetworkCan(s, k) && !k.DeleteEntry?
    ensures var s' := NetworkDoes(s, k);
      && s'.me == s.me && s'.place == s.place && s'.db == s.db && s'.definition == s.definition
      && s'.produced == s.produced && s'.accepted == s.accepted
  {
    hide NetworkCan, ApplyReconcile, ApplyDelete;
    match k
    case ReconcilePolicy(p) => ReconcileKeeps(s, p);
    case _ =>
  }

  lemma ReconcileKeeps(s: System, p: Policy)
    ensures var s' := ApplyReconcile(s, p);
      && s'.me == s.me && s'.place == s.place && s'.db == s.db && s'.definition == s.definition
      && s'.produced == s.produced && s'.accepted == s.accepted
  {
    hide Reconcile, Desired, WellFormed, WithWork;
    if WellFormed(p) { WithWorkKeeps(s, Reconcile(s.t.work, Desired(p), s.clock)); }
  }

  lemma WithWorkKeeps(s: System, work: Work)
    ensures var s' := WithWork(s, work);
      && s'.me == s.me && s'.place == s.place && s'.db == s.db && s'.definition == s.definition
      && s'.produced == s.produced && s'.accepted == s.accepted
  {
    hide Restrict, UntouchedRows;
  }

  lemma NothingGrows(s: System, s': System)
    requires s'.me == s.me && s'.place == s.place && s'.db == s.db && s'.definition == s.definition
    requires s'.produced == s.produced && s'.accepted == s.accepted
    ensures Grows(s, s')
  {
  }

  lemma WorldGrows(s: System, k: WorldStep)
    requires Inv(s) && WorldCan(s, k)
    ensures Grows(s, WorldDoes(s, k))
  {
    hide Sound, SequencesBelow, Placed, Bound, Witnessed, UploaderOk, NetworkOk, SettledOk, ServerOk, AcceptedOk;
    hide AuditsOk, Anchored, Spaced;
    hide CP.Consistent, CP.StoreVerdict;
  }

  lemma DeleteGrows(s: System)
    requires Inv(s) && NetworkCan(s, DeleteEntry)
    ensures Grows(s, NetworkDoes(s, DeleteEntry))
  {
    hide Sound, SequencesBelow, Placed, Bound, Witnessed, NetworkOk, SettledOk, ServerOk, AcceptedOk, AuditsOk;
    hide Anchored, Spaced;
    var head := s.up.queue[0];
    assert WaitsIn(s.t.outbox, head.sequence, head.result.runId);
    DeletePlaced(s.t, s.place, head.sequence, head.result.runId, s.up.verdict);
  }

  lemma {:induction false} RunGrows(s: System, steps: seq<Step>)
    requires Inv(s) && ValidRun(s, steps)
    ensures Grows(s, After(s, steps))
    decreases |steps|
  {
    hide Inv, Enabled, Apply;
    if steps != [] {
      var s1 := Apply(s, steps[0]);
      StepGrows(s, steps[0]);
      StepOk(s, steps[0]);
      RunGrows(s1, steps[1..]);
    }
  }

  /** The running rows and the outbox entries that belong to one run. */
  ghost function RowsOf(w: Work, run: string): set<string> {
    set id | id in w && w[id].running && w[id].runId == Some(run)
  }

  ghost function EntriesOf(outbox: Outbox, run: string): set<nat> {
    set q | q in outbox && outbox[q].runId == run
  }

  /** Run conservation: at every moment of every run of the system, each run ever begun is in exactly
      one place: one running row, one outbox entry, or settled by a server verdict. */
  lemma RunConservation(s: System, steps: seq<Step>, run: string)
    requires Init(s) && ValidRun(s, steps) && run in After(s, steps).place
    ensures var z := After(s, steps);
      |RowsOf(z.t.work, run)| + |EntriesOf(z.t.outbox, run)| + (if z.place[run].Settled? then 1 else 0) == 1
  {
    InitOk(s);
    RunOk(s, steps);
    OnePlace(After(s, steps).t, After(s, steps).place, run);
  }

  lemma OnePlace(t: Tables, place: Places, run: string)
    requires Placed(t, place) && run in place
    ensures |RowsOf(t.work, run)| + |EntriesOf(t.outbox, run)| + (if place[run].Settled? then 1 else 0) == 1
  {
    forall id ensures id in RowsOf(t.work, run) <==> place[run] == Running(id) {
      assert RunsIn(t.work, id, run) <==> At(place, run, Running(id));
    }
    forall q: nat ensures q in EntriesOf(t.outbox, run) <==> place[run] == Queued(q) {
      assert WaitsIn(t.outbox, q, run) <==> At(place, run, Queued(q));
    }
    assert RowsOf(t.work, run) == if place[run].Running? then {place[run].work} else {};
    assert EntriesOf(t.outbox, run) == if place[run].Queued? then {place[run].sequence} else {};
  }

  /** No run is lost, none gets a second result, and no verdict is revised, however the run goes on. */
  lemma NothingIsLost(s: System, steps: seq<Step>, more: seq<Step>)
    requires Init(s) && ValidRun(s, steps) && ValidRun(After(s, steps), more)
    ensures Grows(After(s, steps), After(After(s, steps), more))
  {
    InitOk(s);
    RunOk(s, steps);
    RunGrows(After(s, steps), more);
  }

  /** A live run survives anything the network side and the world do: its row keeps running under its
      identifier and the digest it began with, so its result can always be recorded. */
  lemma LiveRunSurvives(s: System, steps: seq<Step>, more: seq<Step>)
    requires Init(s) && ValidRun(s, steps) && ValidRun(After(s, steps), more)
    requires forall i :: 0 <= i < |more| ==> !more[i].Scheduling?
    requires After(s, steps).sched.Executing? || After(s, steps).sched.Recording?
    ensures var k := After(s, steps).sched; var z := After(After(s, steps), more);
      && z.sched == k && RunsIn(z.t.work, k.id, k.run)
      && k.run in z.definition && z.t.work[k.id].runDigest == Some(ActionDigest(z.definition[k.run]))
      && z.definition[k.run] == (if k.Executing? then k.action else k.obs.action)
      && (k.Recording? ==> CanRecord(z))
  {
    InitOk(s);
    RunOk(s, steps);
    var y := After(s, steps);
    SchedulerUntouched(y, more);
    RunOk(y, more);
    var z, k := After(y, more), y.sched;
    assert At(z.place, k.run, Running(k.id));
    RunningFacts(z.t, z.place, z.definition, z.produced, k.id, k.run);
    if k.Recording? { StampedIsResult(k.obs, k.run); }
  }

  lemma {:induction false} SchedulerUntouched(s: System, steps: seq<Step>)
    requires ValidRun(s, steps) && forall i :: 0 <= i < |steps| ==> !steps[i].Scheduling?
    ensures After(s, steps).sched == s.sched
    decreases |steps|
  {
    if steps != [] {
      assert !steps[0].Scheduling?;
      OthersKeepScheduler(s, steps[0]);
      SchedulerUntouched(Apply(s, steps[0]), steps[1..]);
    }
  }

  lemma OthersKeepScheduler(s: System, st: Step)
    requires Enabled(s, st) && !st.Scheduling?
    ensures Apply(s, st).sched == s.sched
  {
    hide NetworkCan, WorldCan, NetworkDoes, WorldDoes;
    match st
    case Networking(k) => NetworkKeepsScheduler(s, k);
    case World(k) => WorldKeepsScheduler(s, k);
  }

  lemma NetworkKeepsScheduler(s: System, k: NetworkStep)
    requires NetworkCan(s, k)
    ensures NetworkDoes(s, k).sched == s.sched
  {
    hide NetworkCan, Reconcile, Desired, WellFormed, Snapshot;
  }

  lemma WorldKeepsScheduler(s: System, k: WorldStep)
    requires WorldCan(s, k)
    ensures WorldDoes(s, k).sched == s.sched && WorldDoes(s, k).t == s.t
  {
    hide WorldCan, CP.Consistent, CP.StoreVerdict, CP.StoreResult, AdminChange;
  }

  /** Recovery never fails in a reachable store, whatever order the rows are listed in. */
  lemma RecoveryAlwaysSucceeds(s: System, steps: seq<Step>, order: seq<string>)
    requires Init(s) && ValidRun(s, steps) && Enumerates(order, RunningIds(After(s, steps).t.work))
    ensures var z := After(s, steps); var r := RecoverAll(z.t, order, z.clock);
      r.Some? && RecoveredFrom(z.t, order, z.clock, r.value)
  {
    InitOk(s);
    RunOk(s, steps);
    RecoveryNeverFails(After(s, steps).t, order, After(s, steps).clock);
  }

  // ---------------------------------------------------------------- end to end

  /** An entry leaves the outbox only in sequence order, and only after the server stored exactly this
      payload or rejected it. */
  lemma EntriesLeaveInOrder(s: System, steps: seq<Step>, st: Step, q: nat)
    requires Init(s) && ValidRun(s, steps) && Enabled(After(s, steps), st)
    requires q in After(s, steps).t.outbox && q !in Apply(After(s, steps), st).t.outbox
    ensures var z := After(s, steps); var r := z.t.outbox[q];
      && st == Networking(DeleteEntry)
      && (forall x :: x in z.t.outbox ==> q <= x)
      && ((r.runId in z.accepted && z.accepted[r.runId] == CP.StoredResult(z.me, r)) || r.runId in z.rejected)
      && Apply(z, st).t.outbox == z.t.outbox - {q}
  {
    hide Inv, After, ValidRun, Enabled, Apply;
    InitOk(s);
    RunOk(s, steps);
    EntryLeaves(After(s, steps), st, q);
  }

  lemma EntryLeaves(z: System, st: Step, q: nat)
    requires Inv(z) && Enabled(z, st) && q in z.t.outbox && q !in Apply(z, st).t.outbox
    ensures var r := z.t.outbox[q];
      && st == Networking(DeleteEntry)
      && (forall x :: x in z.t.outbox ==> q <= x)
      && ((r.runId in z.accepted && z.accepted[r.runId] == CP.StoredResult(z.me, r)) || r.runId in z.rejected)
      && Apply(z, st).t.outbox == z.t.outbox - {q}
  {
    hide Inv, SchedulerCan, NetworkCan, WorldCan, SchedulerDoes, NetworkDoes, WorldDoes;
    match st
    case Scheduling(k) => SchedulerKeepsEntries(z, k, q);
    case Networking(k) => NetworkKeepsEntries(z, k, q);
    case World(k) => WorldKeepsScheduler(z, k);
  }

  lemma SchedulerKeepsEntries(s: System, k: SchedulerStep, q: nat)
    requires Inv(s) && SchedulerCan(s, k) && q in s.t.outbox
    ensures q in SchedulerDoes(s, k).t.outbox
  {
    hide Placed, Bound, Witnessed, SchedulerOk, UploaderOk, NetworkOk, SettledOk, ServerOk, AcceptedOk, AuditsOk;
    hide Anchored, Spaced;
    if k.Recover? { RecoveryNeverFails(s.t, k.order, s.clock); }
  }

  lemma NetworkKeepsEntries(s: System, k: NetworkStep, q: nat)
    requires Inv(s) && NetworkCan(s, k) && q in s.t.outbox && q !in NetworkDoes(s, k).t.outbox
    ensures k == DeleteEntry && NetworkDoes(s, k).t.outbox == s.t.outbox - {q}
    ensures forall x :: x in s.t.outbox ==> q <= x
    ensures var r := s.t.outbox[q];
      (r.runId in s.accepted && s.accepted[r.runId] == CP.StoredResult(s.me, r)) || r.runId in s.rejected
  {
    hide Inv, NetworkCan, NetworkDoes;
    if k.DeleteEntry? {
      DeletedEntry(s, q);
    } else {
      OutboxKept(s, k);
    }
  }

  lemma OutboxKept(s: System, k: NetworkStep)
    requires NetworkCan(s, k) && !k.DeleteEntry?
    ensures NetworkDoes(s, k).t.outbox == s.t.outbox
  {
    hide NetworkCan, ApplyReconcile, ApplyDelete;
    match k
    case ReconcilePolicy(p) => ReconcileKeepsOutbox(s, p);
    case _ =>
  }

  lemma ReconcileKeepsOutbox(s: System, p: Policy)
    ensures ApplyReconcile(s, p).t.outbox == s.t.outbox
  {
    hide Reconcile, Desired, WellFormed, Restrict, UntouchedRows;
  }

  /** The entry a sync deletes is the oldest one, after the server's verdict on it. */
  lemma DeletedEntry(s: System, q: nat)
    requires Inv(s) && NetworkCan(s, DeleteEntry) && q in s.t.outbox
    requires q !in NetworkDoes(s, DeleteEntry).t.outbox
    ensures NetworkDoes(s, DeleteEntry).t.outbox == s.t.outbox - {q}
    ensures forall x :: x in s.t.outbox ==> q <= x
    ensures var r := s.t.outbox[q];
      (r.runId in s.accepted && s.accepted[r.runId] == CP.StoredResult(s.me, r)) || r.runId in s.rejected
  {
    hide Sound, SequencesBelow, Placed, Bound, Witnessed, NetworkOk, SettledOk, ServerOk, AcceptedOk, AuditsOk;
    hide Anchored, Spaced, SchedulerOk;
    HeadIsOldest(s.t.outbox, s.up.queue);
  }

  lemma HeadIsOldest(outbox: Outbox, queue: seq<Pending>)
    requires QueueOk(outbox, queue) && queue != []
    ensures forall x :: x in outbox ==> queue[0].sequence <= x
  {
    assert forall j :: 0 <= j < |queue| ==> queue[0].sequence <= queue[j].sequence;
  }

  /** What is sent is always the oldest entry: none is skipped. */
  lemma SendsOldestFirst(s: System, steps: seq<Step>, m: string)
    requires Init(s) && ValidRun(s, steps) && NetworkCan(After(s, steps), Send(m))
    ensures var z := After(s, steps); var head := z.up.queue[0];
      && head.sequence in z.t.outbox && NetworkDoes(z, Send(m)).requests[m] == z.t.outbox[head.sequence]
      && forall x :: x in z.t.outbox ==> head.sequence <= x
  {
    InitOk(s);
    RunOk(s, steps);
    HeadIsOldest(After(s, steps).t.outbox, After(s, steps).up.queue);
  }

  /** No two audit events belong to the same run. */
  ghost predicate OnePerRun(audits: seq<CP.AuditEvent>) {
    forall i, j :: 0 <= i < |audits| && 0 <= j < |audits| && audits[i].run == audits[j].run ==> i == j
  }

  /** Exactly once on the server: one audit event per accepted run, and its row is there with the
      accepted payload unless the action or the device was deleted. */
  lemma AcceptedExactlyOnce(s: System, steps: seq<Step>, run: string)
    requires Init(s) && ValidRun(s, steps)
    ensures var z := After(s, steps);
      && (run in z.accepted <==> exists i :: 0 <= i < |z.db.audits| && z.db.audits[i].run == run)
      && OnePerRun(z.db.audits)
      && (run in z.db.results ==> run in z.accepted && z.db.results[run] == z.accepted[run])
      && (run in z.accepted && run !in z.db.results ==>
            z.accepted[run].result.actionId in z.goneActions || z.accepted[run].device in z.goneDevices)
      && (run in z.accepted && run in z.place ==>
            run in z.produced && z.accepted[run] == CP.StoredResult(z.me, z.produced[run]))
  {
    hide Inv, After, ValidRun;
    InitOk(s);
    RunOk(s, steps);
    AcceptedState(After(s, steps), run);
  }

  lemma AcceptedState(z: System, run: string)
    requires Inv(z)
    ensures run in z.accepted <==> exists i :: 0 <= i < |z.db.audits| && z.db.audits[i].run == run
    ensures OnePerRun(z.db.audits)
    ensures run in z.db.results ==> run in z.accepted && z.db.results[run] == z.accepted[run]
    ensures run in z.accepted && run !in z.db.results ==>
      z.accepted[run].result.actionId in z.goneActions || z.accepted[run].device in z.goneDevices
    ensures run in z.accepted && run in z.place ==>
      run in z.produced && z.accepted[run] == CP.StoredResult(z.me, z.produced[run])
  {
    hide Sound, SequencesBelow, Placed, Bound, Witnessed, SchedulerOk, UploaderOk, NetworkOk, SettledOk, Anchored;
    hide Spaced, CP.Consistent;
    if run in z.accepted {
      var e := CP.AuditEvent(z.accepted[run].result.actionId, z.accepted[run].device, run);
      var i :| 0 <= i < |z.db.audits| && z.db.audits[i] == e;
      assert z.db.audits[i].run == run;
    }
  }

  /** Compliance soundness across agent and server: a check of this device is COMPLIANT only if one of
      its runs executed exactly the definition the server has now, running nothing but its detection
      script, which exited 0. */
  lemma CompliantMeansDetected(s: System, steps: seq<Step>, id: string, x: ActionResult)
    requires Init(s) && ValidRun(s, steps)
    requires var z := After(s, steps);
      && id in z.db.actions && CP.IsLatest(z.db, z.me, id, Some(x))
      && CP.ComplianceStatus(z.db.actions[id], Some(x)) == CP.Compliant
    ensures var z := After(s, steps);
      && x.runId in z.observed && x.runId in z.definition && z.definition[x.runId] == z.db.actions[id]
      && var o := z.observed[x.runId];
         && o.action == z.db.actions[id] && x == Stamped(o, x.runId)
         && o.world(0).Ran? && o.world(0).out.exitCode == 0
         && Executor.Perform(o.action, o.world).ran == [Executor.Detect]
  {
    hide Inv, After, ValidRun, CP.IsLatest, CP.ComplianceStatus, Stamped, Executor.Perform;
    InitOk(s);
    RunOk(s, steps);
    CompliantState(After(s, steps), id, x);
  }

  lemma CompliantState(z: System, id: string, x: ActionResult)
    requires Inv(z) && id in z.db.actions
    requires CP.IsLatest(z.db, z.me, id, Some(x)) && CP.ComplianceStatus(z.db.actions[id], Some(x)) == CP.Compliant
    ensures x.runId in z.observed && x.runId in z.definition && z.definition[x.runId] == z.db.actions[id]
    ensures var o := z.observed[x.runId];
      && o.action == z.db.actions[id] && x == Stamped(o, x.runId)
      && o.world(0).Ran? && o.world(0).out.exitCode == 0
      && Executor.Perform(o.action, o.world).ran == [Executor.Detect]
  {
    hide Sound, SequencesBelow, Placed, Bound, Witnessed, SchedulerOk, UploaderOk, NetworkOk, SettledOk, AcceptedOk;
    hide AuditsOk, Anchored, Spaced;
    assert x.runId in z.accepted && z.accepted[x.runId] == CP.StoredResult(z.me, x);
    OwnResult(z.me, z.t, z.place, z.definition, z.produced, z.observed, z.others, z.accepted, x);
    var o := z.observed[x.runId];
    assert z.db.actions[id].id == id;
    Executor.CleanDetectionIff(o.action, o.world, o.expired, o.at);
  }

  /** A stored, determinate result of this device is exactly what one of its executions produced. */
  lemma OwnResult(me: string, t: Tables, place: Places, definition: Definitions, produced: Results,
                  observed: Observations, others: StoredResults, accepted: StoredResults, x: ActionResult)
    requires Bound(t, place, definition, produced) && Witnessed(definition, produced, observed)
    requires AcceptedOk(me, place, produced, others, accepted)
    requires x.runId in accepted && accepted[x.runId] == CP.StoredResult(me, x) && x.status != Indeterminate
    ensures x.runId in observed && x.runId in definition && observed[x.runId].action == definition[x.runId]
    ensures x == Stamped(observed[x.runId], x.runId) && x.digest == ActionDigest(definition[x.runId])
  {
    assert x.runId in place;
    assert ResultOf(produced[x.runId], x.runId, definition[x.runId]);
  }

  /** The observation behind a compliant check: this device executed exactly the definition the server has
      now, running nothing but its detection script, which exited 0. */
  ghost predicate DetectedNow(z: System, id: string, x: ActionResult) {
    && id in z.db.actions && CP.IsLatest(z.db, z.me, id, Some(x)) && x.runId in z.observed
    && var o := z.observed[x.runId];
       && o.action == z.db.actions[id] && x == Stamped(o, x.runId)
       && o.world(0).Ran? && o.world(0).out.exitCode == 0
       && Executor.Perform(o.action, o.world).ran == [Executor.Detect]
  }

  /** The whole device: its status, computed over the rows of the compliance query, is COMPLIANT only if it
      has a check, and every compliance action assigned to it was last detected clean in its current
      definition; and `passing` then counts them all. */
  lemma CompliantDeviceMeansDetected(s: System, steps: seq<Step>, ids: seq<string>, rows: seq<CP.CheckRow>,
                                     summary: CP.Summary)
    requires Init(s) && ValidRun(s, steps) && CP.ComplianceRows(After(s, steps).db, After(s, steps).me, ids, rows)
    requires CP.Summarises(summary, rows) && summary.status == CP.Compliant
    ensures var z := After(s, steps);
      && (exists id :: CP.AssignedCheck(z.db, z.me, id))
      && (forall id :: CP.AssignedCheck(z.db, z.me, id) ==> exists x :: DetectedNow(z, id, x))
      && summary.passing == |summary.checks|
  {
    hide After, ValidRun, CP.ComplianceRows, CP.Summarises, DetectedNow, CP.AssignedCheck;
    var z := After(s, steps);
    CP.CompliantSummary(z.db, z.me, ids, rows, summary);
    forall id | CP.AssignedCheck(z.db, z.me, id) ensures exists x :: DetectedNow(z, id, x) {
      var x := CP.CompliantCheck(z.db, z.me, ids, rows, summary, id);
      CompliantMeansDetected(s, steps, id, x);
      Detected(z, id, x);
    }
  }

  lemma Detected(z: System, id: string, x: ActionResult)
    requires id in z.db.actions && CP.IsLatest(z.db, z.me, id, Some(x)) && x.runId in z.observed
    requires var o := z.observed[x.runId];
      && o.action == z.db.actions[id] && x == Stamped(o, x.runId)
      && o.world(0).Ran? && o.world(0).out.exitCode == 0
      && Executor.Perform(o.action, o.world).ran == [Executor.Detect]
    ensures DetectedNow(z, id, x)
  {
  }

  // ---------------------------------------------------------------- schedule spacing

  /** No reconciliation in the run changes this row. */
  ghost predicate RowLeftAlone(s: System, steps: seq<Step>, id: string)
    requires ValidRun(s, steps)
    decreases |steps|
  {
    steps == [] ||
    (var s' := Apply(s, steps[0]);
     && (IsReconcile(steps[0]) ==> id in UntouchedRows(s.t.work, s'.t.work))
     && RowLeftAlone(s', steps[1..], id))
  }

  predicate IsReconcile(st: Step) {
    st.Networking? && st.n.ReconcilePolicy?
  }

  /** The row is live, runs at this interval, and last started no earlier than `from`. */
  ghost predicate Tracks(s: System, id: string, from: Time, every: Time) {
    && id in s.t.work && !s.t.work[id].retired && Interval(s.t.work[id].action.intervalHours) == every
    && id in s.anchor && s.anchor[id].start >= from
  }

  /** Schedule spacing: under any interleaving and a clock that does not go back, any two starts of a row
      that no reconciliation changed in between are at least its interval apart. */
  lemma StartsAreSpaced(s: System, steps: seq<Step>, run: string, lost: bool, between: seq<Step>, run': string,
                        lost': bool)
    requires Init(s) && ValidRun(s, steps) && SchedulerCan(After(s, steps), BeginRun(run, lost))
    requires ValidRun(SchedulerDoes(After(s, steps), BeginRun(run, lost)), between)
    requires var z1 := SchedulerDoes(After(s, steps), BeginRun(run, lost)); var id := After(s, steps).sched.id;
      && RowLeftAlone(z1, between, id)
      && SchedulerCan(After(z1, between), BeginRun(run', lost')) && After(z1, between).sched.id == id
    ensures var z := After(s, steps); var z1 := SchedulerDoes(z, BeginRun(run, lost)); var y := After(z1, between);
      var hours := z.t.work[z.sched.id].action.intervalHours;
      var every := (if hours > 0 then hours else 8) * 3_600_000_000_000;
      && y.sched.started >= z.sched.started + every
      && z1.t.work[z.sched.id].lastAt == Some(z.sched.started)
      && SchedulerDoes(y, BeginRun(run', lost')).t.work[z.sched.id].lastAt == Some(y.sched.started)
  {
    hide Inv, After, ValidRun, RowLeftAlone, SchedulerCan, SchedulerDoes;
    InitOk(s);
    RunOk(s, steps);
    var z := After(s, steps);
    StartsAnchored(z, run, lost);
    var id, from := z.sched.id, z.sched.started;
    var z1 := SchedulerDoes(z, BeginRun(run, lost));
    SchedulerStepOk(z, BeginRun(run, lost));
    var every := Interval(z.t.work[id].action.intervalHours);
    TracksRun(z1, between, id, from, every);
    RunOk(z1, between);
    StartsAnchored(After(z1, between), run', lost');
  }

  /** A start comes no earlier than one interval after the anchored one, and becomes the new anchor. */
  lemma StartsAnchored(z: System, run: string, lost: bool)
    requires Inv(z) && SchedulerCan(z, BeginRun(run, lost))
    ensures z.sched.Starting? && z.sched.id in z.t.work
    ensures var id := z.sched.id; var every := Interval(z.t.work[id].action.intervalHours);
      && every > 0 && (id in z.anchor ==> z.sched.started >= z.anchor[id].start + every)
      && Tracks(SchedulerDoes(z, BeginRun(run, lost)), id, z.sched.started, every)
      && SchedulerDoes(z, BeginRun(run, lost)).t.work[id].lastAt == Some(z.sched.started)
  {
    hide Sound, SequencesBelow, Placed, Bound, Witnessed, SchedulerOk, UploaderOk, NetworkOk, SettledOk, ServerOk;
    hide AcceptedOk, AuditsOk;
    NextExecuteBounds(z.t.work[z.sched.id].action.intervalHours, z.sched.started, z.clock);
  }

  lemma {:induction false} TracksRun(s: System, steps: seq<Step>, id: string, from: Time, every: Time)
    requires Inv(s) && ValidRun(s, steps) && RowLeftAlone(s, steps, id) && Tracks(s, id, from, every)
    ensures Tracks(After(s, steps), id, from, every)
    decreases |steps|
  {
    hide Inv, Enabled, Apply, Tracks, UntouchedRows;
    if steps != [] {
      TracksStep(s, steps[0], id, from, every);
      StepOk(s, steps[0]);
      TracksRun(Apply(s, steps[0]), steps[1..], id, from, every);
    }
  }

  lemma TracksStep(s: System, st: Step, id: string, from: Time, every: Time)
    requires Inv(s) && Enabled(s, st) && Tracks(s, id, from, every)
    requires IsReconcile(st) ==> id in UntouchedRows(s.t.work, Apply(s, st).t.work)
    ensures Tracks(Apply(s, st), id, from, every)
  {
    hide Inv, SchedulerCan, NetworkCan, WorldCan, SchedulerDoes, NetworkDoes, WorldDoes, Tracks, UntouchedRows;
    match st
    case Scheduling(k) => TracksScheduling(s, k, id, from, every);
    case Networking(k) => TracksNetworking(s, k, id, from, every);
    case World(k) => TracksWorld(s, k, id, from, every);
  }

  lemma TracksScheduling(s: System, k: SchedulerStep, id: string, from: Time, every: Time)
    requires Inv(s) && SchedulerCan(s, k) && Tracks(s, id, from, every)
    ensures Tracks(SchedulerDoes(s, k), id, from, every)
  {
    match k
    case Recover(order) => hide SchedulerDoes; TracksRecover(s, order, id, from, every);
    case BeginRun(run, lost) => hide Inv, SchedulerCan; TracksBegin(s, run, lost, id, from, every);
    case Record => hide Inv; TracksRecord(s, id, from, every);
    case _ => hide Inv;
  }

  lemma TracksBegin(s: System, run: string, lost: bool, id: string, from: Time, every: Time)
    requires Inv(s) && SchedulerCan(s, BeginRun(run, lost)) && Tracks(s, id, from, every)
    ensures Tracks(SchedulerDoes(s, BeginRun(run, lost)), id, from, every)
  {
    hide Inv;
    StartsAnchored(s, run, lost);
  }

  lemma TracksRecord(s: System, id: string, from: Time, every: Time)
    requires CanRecord(s) && Tracks(s, id, from, every)
    ensures Tracks(ApplyRecord(s), id, from, every)
  {
    hide Stamped;
  }

  lemma TracksRecover(s: System, order: seq<string>, id: string, from: Time, every: Time)
    requires Inv(s) && SchedulerCan(s, Recover(order)) && Tracks(s, id, from, every)
    ensures Tracks(SchedulerDoes(s, Recover(order)), id, from, every)
  {
    hide Sound, SequencesBelow, Placed, Bound, Witnessed, UploaderOk, NetworkOk, SettledOk, ServerOk, AcceptedOk;
    hide AuditsOk;
    hide Anchored, Spaced, RecoverAll, Enumerates, WithInterruptions, Requeued, RecoveredOutbox;
    RecoveryNeverFails(s.t, order, s.clock);
  }

  lemma TracksNetworking(s: System, k: NetworkStep, id: string, from: Time, every: Time)
    requires NetworkCan(s, k) && Tracks(s, id, from, every)
    requires k.ReconcilePolicy? ==> id in UntouchedRows(s.t.work, NetworkDoes(s, k).t.work)
    ensures Tracks(NetworkDoes(s, k), id, from, every)
  {
    hide Reconcile, Desired, WellFormed, Snapshot;
  }

  lemma TracksWorld(s: System, k: WorldStep, id: string, from: Time, every: Time)
    requires WorldCan(s, k) && Tracks(s, id, from, every)
    ensures Tracks(WorldDoes(s, k), id, from, every)
  {
    hide WorldCan, CP.Consistent, CP.StoreVerdict, CP.StoreResult, AdminChange;
  }

  // ---------------------------------------------------------------- why a result is rejected

  /** The server handles a report of this run that it must refuse: its completion time is outside the years
      1 to 9999, or its action is not assigned to the device at that moment. */
  ghost predicate Refuses(s: System, st: Step, run: string) {
    && st.World? && st.w.ServerHandles? && st.w.message in s.requests
    && var r := s.requests[st.w.message];
       && r.runId == run
       && (!CP.WellFormedReport(r) || !CP.Assigned(s.db, s.me, r.actionId))
  }

  ghost predicate RefusedIn(s: System, steps: seq<Step>, run: string)
    requires ValidRun(s, steps)
    decreases |steps|
  {
    steps != [] && (Refuses(s, steps[0], run) || RefusedIn(Apply(s, steps[0]), steps[1..], run))
  }

  /** A run of this device is settled as rejected only if some report of it was handled while malformed or
      unassigned: no result that the server could take in is ever thrown away, whatever its status. */
  lemma RejectedOnlyForCause(s: System, steps: seq<Step>, run: string)
    requires Init(s) && ValidRun(s, steps) && At(After(s, steps).place, run, Settled(CP.Rejected))
    ensures RefusedIn(s, steps, run)
  {
    hide Inv, After, ValidRun, RefusedIn;
    InitOk(s);
    RunOk(s, steps);
    SettledRejected(After(s, steps), run);
    RejectionArose(s, steps, run);
  }

  lemma SettledRejected(z: System, run: string)
    requires Inv(z) && At(z.place, run, Settled(CP.Rejected))
    ensures run in z.rejected
  {
    hide Sound, SequencesBelow, Placed, Witnessed, SchedulerOk, UploaderOk, NetworkOk, ServerOk, AcceptedOk;
    hide AuditsOk, Anchored, Spaced;
    assert z.produced[run].runId == run;
  }

  lemma {:induction false} RejectionArose(s: System, steps: seq<Step>, run: string)
    requires Inv(s) && ValidRun(s, steps) && run !in s.rejected && run in After(s, steps).rejected
    ensures RefusedIn(s, steps, run)
    decreases |steps|
  {
    hide Inv, Enabled, Apply, Refuses;
    if steps != [] {
      var s1 := Apply(s, steps[0]);
      if run in s1.rejected {
        RejectingStep(s, steps[0], run);
      } else {
        StepOk(s, steps[0]);
        RejectionArose(s1, steps[1..], run);
      }
    }
  }

  lemma RejectingStep(s: System, st: Step, run: string)
    requires Inv(s) && Enabled(s, st) && run !in s.rejected && run in Apply(s, st).rejected
    ensures Refuses(s, st, run)
  {
    hide Inv, SchedulerCan, NetworkCan, WorldCan, SchedulerDoes, NetworkDoes, WorldDoes, Refuses;
    match st
    case Scheduling(k) => SchedulerKeepsRejected(s, k);
    case Networking(k) => NetworkKeepsRejected(s, k);
    case World(k) => WorldRejects(s, k, run);
  }

  lemma SchedulerKeepsRejected(s: System, k: SchedulerStep)
    requires SchedulerCan(s, k)
    ensures SchedulerDoes(s, k).rejected == s.rejected
  {
    hide RecoverAll, Enumerates, Stamped, WithInterruptions, Requeued, Restrict, Runnable, Begun;
  }

  lemma NetworkKeepsRejected(s: System, k: NetworkStep)
    requires NetworkCan(s, k)
    ensures NetworkDoes(s, k).rejected == s.rejected
  {
    hide NetworkCan, Reconcile, Desired, WellFormed, Snapshot, Restrict, UntouchedRows;
  }

  lemma WorldRejects(s: System, k: WorldStep, run: string)
    requires Inv(s) && WorldCan(s, k) && run !in s.rejected && run in WorldDoes(s, k).rejected
    ensures Refuses(s, World(k), run)
  {
    hide Inv, CP.StoreResult, CP.StoreVerdict, AdminChange, CP.WellFormedReport, CP.Assigned;
    if k.ServerHandles? { RejectedReport(s, k.message); }
  }

  /** A report of one of this device's runs is rejected only when malformed or unassigned: what is stored
      under its run is always the same payload. */
  lemma RejectedReport(s: System, m: string)
    requires Inv(s) && m in s.requests
    ensures var r := s.requests[m]; CP.StoreVerdict(s.db, s.me, r) == CP.Rejected ==>
      !CP.WellFormedReport(r) || !CP.Assigned(s.db, s.me, r.actionId)
  {
    hide Sound, SequencesBelow, Placed, Bound, Witnessed, SchedulerOk, UploaderOk, NetworkOk, SettledOk, AcceptedOk;
    hide AuditsOk, Anchored, Spaced, CP.StoreVerdict, CP.WellFormedReport, CP.Assigned, CP.Consistent;
    RequestIsRecorded(s.me, s.t, s.place, s.definition, s.produced, s.requests, s.replies, s.others, s.accepted,
                      s.rejected, m);
    CP.VerdictIff(s.db, s.me, s.requests[m]);
  }

  /** What the scheduler loads is exactly the live, idle rows whose time has come. */
  lemma DueListIsExact(z: System, due: seq<string>, id: string)
    requires SchedulerCan(z, LoadDue(due))
    ensures id in due <==>
      id in z.t.work && !z.t.work[id].retired && !z.t.work[id].running && z.t.work[id].nextAt <= z.clock
    ensures SchedulerDoes(z, LoadDue(due)).sched == Looping(due, z.clock) && SchedulerDoes(z, LoadDue(due)).t == z.t
  {
  }

  // ---------------------------------------------------------------- one run and one upload, start to end

  /** One run: from any reachable state in which the scheduler holds a due row, beginning, executing and
      recording it leave exactly the executor's result of the definition stored at that moment, under the
      run's identifier and digest, as the newest outbox entry, and the row idle again. */
  lemma OneRun(s: System, steps: seq<Step>, run: string, world: int -> Executor.Outcome, expired: bool)
    requires Init(s) && ValidRun(s, steps) && After(s, steps).sched.Starting?
    requires var z := After(s, steps);
      && z.sched.id in z.t.work && !z.t.work[z.sched.id].retired && !z.t.work[z.sched.id].running
      && z.t.work[z.sched.id].nextAt <= z.clock && run != "" && run !in z.place && run !in z.others
    ensures var z := After(s, steps); var id := z.sched.id; var a := z.t.work[id].action;
      && SchedulerCan(z, BeginRun(run, false))
      && var z1 := SchedulerDoes(z, BeginRun(run, false));
         && SchedulerCan(z1, ExecutorReturns(world, expired))
         && var z2 := SchedulerDoes(z1, ExecutorReturns(world, expired));
            && SchedulerCan(z2, Record)
            && var z3 := SchedulerDoes(z2, Record);
               && z3.t.outbox == z.t.outbox[z.t.nextSeq :=
                    Executor.ExecuteAction(a, world, expired, z.clock).(runId := run, digest := Sha256(a))]
               && id in z3.t.work && !z3.t.work[id].running && z3.t.work[id].action == a
               && z3.t.work[id].lastAt == Some(z.sched.started) && z3.sched == Looping(z.sched.due, z.sched.dueAt)
  {
    hide After, ValidRun, Inv;
    InitOk(s);
    RunOk(s, steps);
    OneRunState(After(s, steps), run, world, expired);
  }

  lemma OneRunState(z: System, run: string, world: int -> Executor.Outcome, expired: bool)
    requires Inv(z) && z.sched.Starting?
    requires z.sched.id in z.t.work && !z.t.work[z.sched.id].retired && !z.t.work[z.sched.id].running
    requires z.t.work[z.sched.id].nextAt <= z.clock && run != "" && run !in z.place && run !in z.others
    ensures var id := z.sched.id; var a := z.t.work[id].action;
      && SchedulerCan(z, BeginRun(run, false))
      && var z1 := SchedulerDoes(z, BeginRun(run, false));
         && SchedulerCan(z1, ExecutorReturns(world, expired))
         && var z2 := SchedulerDoes(z1, ExecutorReturns(world, expired));
            && SchedulerCan(z2, Record)
            && var z3 := SchedulerDoes(z2, Record);
               && z3.t.outbox == z.t.outbox[z.t.nextSeq :=
                    Executor.ExecuteAction(a, world, expired, z.clock).(runId := run, digest := Sha256(a))]
               && id in z3.t.work && !z3.t.work[id].running && z3.t.work[id].action == a
               && z3.t.work[id].lastAt == Some(z.sched.started) && z3.sched == Looping(z.sched.due, z.sched.dueAt)
  {
    hide Inv, SchedulerCan, SchedulerDoes, Executor.ExecuteAction, Restrict;
    var a := z.t.work[z.sched.id].action;
    Begins(z, run);
    var z1 := SchedulerDoes(z, BeginRun(run, false));
    Returns(z1, world, expired);
    var z2 := SchedulerDoes(z1, ExecutorReturns(world, expired));
    HasIdentity(z, z.sched.id);
    Executor.StatusIff(a, world, expired, z.clock);
    Records(z2, a);
  }

  lemma HasIdentity(z: System, id: string)
    requires Inv(z) && id in z.t.work
    ensures id != "" && z.t.work[id].action.id == id
  {
    hide SequencesBelow, Placed, Bound, Witnessed, SchedulerOk, UploaderOk, NetworkOk, SettledOk, ServerOk, AcceptedOk;
    hide AuditsOk, Anchored, Spaced;
  }

  lemma Begins(z: System, run: string)
    requires z.sched.Starting?
    requires z.sched.id in z.t.work && !z.t.work[z.sched.id].retired && !z.t.work[z.sched.id].running
    requires z.t.work[z.sched.id].nextAt <= z.clock && run != "" && run !in z.place && run !in z.others
    ensures SchedulerCan(z, BeginRun(run, false))
    ensures var k := z.sched; var a := z.t.work[k.id].action; var z1 := SchedulerDoes(z, BeginRun(run, false));
      && z1.sched == Executing(k.due, k.dueAt, k.id, run, a) && z1.clock == z.clock
      && z1.t.outbox == z.t.outbox && z1.t.nextSeq == z.t.nextSeq && k.id in z1.t.work
      && var row := z1.t.work[k.id];
         && row.action == a && !row.retired && row.running && row.runId == Some(run)
         && row.runDigest == Some(Sha256(a)) && row.lastAt == Some(k.started)
  {
    hide NextExecute;
  }

  lemma Returns(z: System, world: int -> Executor.Outcome, expired: bool)
    requires z.sched.Executing?
    ensures SchedulerCan(z, ExecutorReturns(world, expired))
    ensures var k := z.sched; var z' := SchedulerDoes(z, ExecutorReturns(world, expired));
      && z'.t == z.t && z'.clock == z.clock
      && z'.sched == Recording(k.due, k.dueAt, k.id, k.run, Observation(k.action, world, expired, z.clock))
  {
  }

  lemma Records(z: System, a: Action)
    requires z.sched.Recording? && z.sched.obs.action == a
    requires a.id == z.sched.id && z.sched.id != "" && z.sched.run != ""
    requires z.sched.id in z.t.work && !z.t.work[z.sched.id].retired && z.t.work[z.sched.id].running
    requires z.t.work[z.sched.id].runId == Some(z.sched.run) && z.t.work[z.sched.id].runDigest == Some(Sha256(a))
    requires var o := z.sched.obs; var r := Executor.ExecuteAction(a, o.world, o.expired, o.at);
      r.actionId == a.id && r.completedAt == Some(o.at)
    ensures SchedulerCan(z, Record)
    ensures var k := z.sched; var o := k.obs; var z' := SchedulerDoes(z, Record);
      && z'.t.outbox == z.t.outbox[z.t.nextSeq :=
           Executor.ExecuteAction(a, o.world, o.expired, o.at).(runId := k.run, digest := Sha256(a))]
      && k.id in z'.t.work && !z'.t.work[k.id].running && z'.t.work[k.id].action == z.t.work[k.id].action
      && z'.t.work[k.id].lastAt == z.t.work[k.id].lastAt && z'.sched == Looping(k.due, k.dueAt)
  {
    hide Executor.ExecuteAction, Restrict;
  }

  /** One upload: from any reachable state in which the uploader has an entry to send, sending it, the server
      handling it, its reply and the delete remove exactly that oldest entry, settle its run with the verdict
      the server gave, and leave the server's tables as storing the entry makes them. */
  lemma OneUpload(s: System, steps: seq<Step>, m: string)
    requires Init(s) && ValidRun(s, steps) && m !in After(s, steps).requests
    requires After(s, steps).up.Sending? && After(s, steps).up.queue != []
    ensures var z := After(s, steps); var head := z.up.queue[0];
      && NetworkCan(z, Send(m))
      && var z1 := NetworkDoes(z, Send(m));
         && WorldCan(z1, ServerHandles(m))
         && var z2 := WorldDoes(z1, ServerHandles(m)); var v := CP.StoreVerdict(z.db, z.me, head.result);
            && NetworkCan(z2, ReplyArrives(v))
            && var z3 := NetworkDoes(z2, ReplyArrives(v));
               && NetworkCan(z3, DeleteEntry)
               && var z4 := NetworkDoes(z3, DeleteEntry);
                  && z4.t.outbox == z.t.outbox - {head.sequence} && z4.place == z.place[head.result.runId := Settled(v)]
                  && z4.db == CP.StoreResult(z.db, z.me, head.result) && z4.up == Sending(z.up.queue[1..])
  {
    hide After, ValidRun, Inv;
    InitOk(s);
    RunOk(s, steps);
    OneUploadState(After(s, steps), m);
  }

  lemma OneUploadState(z: System, m: string)
    requires Inv(z) && m !in z.requests && z.up.Sending? && z.up.queue != []
    ensures var head := z.up.queue[0];
      && NetworkCan(z, Send(m))
      && var z1 := NetworkDoes(z, Send(m));
         && WorldCan(z1, ServerHandles(m))
         && var z2 := WorldDoes(z1, ServerHandles(m)); var v := CP.StoreVerdict(z.db, z.me, head.result);
            && NetworkCan(z2, ReplyArrives(v))
            && var z3 := NetworkDoes(z2, ReplyArrives(v));
               && NetworkCan(z3, DeleteEntry)
               && var z4 := NetworkDoes(z3, DeleteEntry);
                  && z4.t.outbox == z.t.outbox - {head.sequence} && z4.place == z.place[head.result.runId := Settled(v)]
                  && z4.db == CP.StoreResult(z.db, z.me, head.result) && z4.up == Sending(z.up.queue[1..])
  {
    hide Inv, NetworkCan, NetworkDoes, WorldCan, WorldDoes;
    hide CP.StoreVerdict, CP.StoreResult, CP.WellFormedReport, CP.Assigned, CP.Consistent;
    ServerIsConsistent(z);
    CP.VerdictIff(z.db, z.me, z.up.queue[0].result);
    Sends(z, m);
    var z1 := NetworkDoes(z, Send(m));
    Handles(z1, m);
    var z2 := WorldDoes(z1, ServerHandles(m));
    Answers(z2, CP.StoreVerdict(z.db, z.me, z.up.queue[0].result));
  }

  lemma ServerIsConsistent(z: System)
    requires Inv(z)
    ensures CP.Consistent(z.db)
  {
    hide Sound, SequencesBelow, Placed, Bound, Witnessed, SchedulerOk, UploaderOk, NetworkOk, SettledOk, AcceptedOk;
    hide AuditsOk, Anchored, Spaced, CP.Consistent;
  }

  lemma Sends(z: System, m: string)
    requires m !in z.requests && z.up.Sending? && z.up.queue != []
    ensures NetworkCan(z, Send(m))
    ensures var z' := NetworkDoes(z, Send(m));
      && z'.up == Awaiting(z.up.queue, m) && m in z'.requests && z'.requests[m] == z.up.queue[0].result
      && z'.db == z.db && z'.me == z.me && z'.t == z.t && z'.place == z.place
  {
  }

  lemma Handles(z: System, m: string)
    requires m in z.requests
    ensures WorldCan(z, ServerHandles(m))
    ensures var z' := WorldDoes(z, ServerHandles(m)); var r := z.requests[m];
      && z'.db == CP.StoreResult(z.db, z.me, r) && Reply(m, CP.StoreVerdict(z.db, z.me, r)) in z'.replies
      && z'.up == z.up && z'.t == z.t && z'.place == z.place
  {
    hide CP.StoreVerdict, CP.StoreResult;
  }

  lemma Answers(z: System, v: CP.Verdict)
    requires z.up.Awaiting? && z.up.queue != [] && Reply(z.up.message, v) in z.replies && v != CP.Failure
    ensures NetworkCan(z, ReplyArrives(v))
    ensures var z' := NetworkDoes(z, ReplyArrives(v)); var head := z.up.queue[0];
      && NetworkCan(z', DeleteEntry)
      && var z'' := NetworkDoes(z', DeleteEntry);
         && z''.t.outbox == z.t.outbox - {head.sequence} && z''.place == z.place[head.result.runId := Settled(v)]
         && z''.db == z.db && z''.up == Sending(z.up.queue[1..])
  {
  }
}
