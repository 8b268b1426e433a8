/** Enrollment: registration tokens, device rows and the agent's resumable enrollment. Registrations read
    the device and the token before their transaction, so they work with stale snapshots. */
module Enrollment {
  import opened Actions

  datatype Token = Token(hash: string, maxUses: int, currentUses: int, expires: Time)

  type Tokens = map<string, Token>

  /** A device row: the public key it enrolled with. */
  type Devices = map<string, string>

  // ---------------------------------------------------------------- the guarded statements

  predicate Usable(t: Token, now: Time) {
    t.expires > now && (t.maxUses == 0 || t.currentUses < t.maxUses)
  }

  /** DELETE ... RETURNING of the last use. */
  function ConsumeFinal(ts: Tokens, id: string, now: Time): Option<Tokens> {
    if id in ts && Usable(ts[id], now) && ts[id].maxUses > 0 && ts[id].currentUses + 1 >= ts[id].maxUses
    then Some(ts - {id}) else None
  }

  /** UPDATE ... RETURNING of any other use; returns the new row. */
  function ConsumeOne(ts: Tokens, id: string, now: Time): Option<Token> {
    if id in ts && Usable(ts[id], now) then Some(ts[id].(currentUses := ts[id].currentUses + 1)) else None
  }

  /** Consuming a token known from a snapshot taken before the transaction. */
  function Consume(ts: Tokens, id: string, snapshot: Token, now: Time): Option<Tokens> {
    if snapshot.maxUses > 0 && snapshot.currentUses + 1 >= snapshot.maxUses then ConsumeFinal(ts, id, now)
    else
      match ConsumeOne(ts, id, now)
      case None => None
      case Some(row) =>
        if row.maxUses > 0 && row.currentUses >= row.maxUses then Some(ts - {id}) else Some(ts[id := row])
  }

  predicate Known(ds: Devices, key: string) {
    exists d :: d in ds && ds[d] == key
  }

  /** The registration transaction: consume a use and insert the device, or neither. */
  function Admit(ts: Tokens, ds: Devices, id: string, snapshot: Token, now: Time, device: string,
                 key: string): Option<(Tokens, Devices)> {
    match Consume(ts, id, snapshot, now)
    case None => None
    case Some(left) => if device in ds || Known(ds, key) then None else Some((left, ds[device := key]))
  }

  /** The two tables as an object; the transaction rolls back when any statement fails. */
  class EnrollmentStore {
    var tokens: Tokens
    var devices: Devices

    constructor ()
      ensures tokens == map[] && devices == map[]
    {
      tokens, devices := map[], map[];
    }

    method RegisterTransaction(id: string, snapshot: Token, now: Time, device: string, key: string) returns (ok: bool)
      modifies this
      ensures ok <==> Admit(old(tokens), old(devices), id, snapshot, now, device, key).Some?
      ensures ok ==> Some((tokens, devices)) == Admit(old(tokens), old(devices), id, snapshot, now, device, key)
      ensures ok <==>
        && Consume(old(tokens), id, snapshot, now).Some? && device !in old(devices)
        && (forall d :: d in old(devices) ==> old(devices)[d] != key)
      ensures ok ==> OneUseTaken(old(tokens), tokens, id, now) && devices == old(devices)[device := key]
      ensures !ok ==> tokens == old(tokens) && devices == old(devices)
    {
      var left := ConsumeRegistrationToken(tokens, id, snapshot, now);
      if left.None? { return false; }
      var taken := KeyTaken(devices, key);
      if device in devices || taken { return false; }
      tokens, devices := left.value, devices[device := key];
      return true;
    }
  }

  /** The snapshot announces the last use. */
  predicate LooksFinal(snapshot: Token) {
    snapshot.maxUses > 0 && snapshot.currentUses + 1 >= snapshot.maxUses
  }

  /** Exactly one use of a usable token was taken: its count is one higher and still below the maximum, or
      the count would have reached the maximum and the row is gone. No other token changed. */
  ghost predicate OneUseTaken(before: Tokens, after: Tokens, id: string, now: Time) {
    && id in before && before[id].expires > now
    && (before[id].maxUses == 0 || before[id].currentUses < before[id].maxUses)
    && (forall x :: x != id ==> (x in after <==> x in before) && (x in before ==> after[x] == before[x]))
    && var uses := before[id].currentUses + 1;
       if before[id].maxUses > 0 && uses >= before[id].maxUses then id !in after
       else id in after && after[id] == before[id].(currentUses := uses)
  }

  /** Takes one use or none. None is taken from a missing or unusable token, and from one whose snapshot
      announced the last use while the row has more left. */
  method ConsumeRegistrationToken(tokens: Tokens, id: string, snapshot: Token, now: Time) returns (r: Option<Tokens>)
    ensures r == Consume(tokens, id, snapshot, now)
    ensures r.Some? ==> OneUseTaken(tokens, r.value, id, now)
    ensures r.None? <==>
      || id !in tokens || tokens[id].expires <= now
      || (tokens[id].maxUses != 0 && tokens[id].currentUses >= tokens[id].maxUses)
      || (LooksFinal(snapshot) && !LooksFinal(tokens[id]))
  {
    if snapshot.maxUses > 0 && snapshot.currentUses + 1 >= snapshot.maxUses {
      r := ConsumeFinal(tokens, id, now);
    } else {
      var consumed := ConsumeOne(tokens, id, now);
      if consumed.None? { return None; }
      var left := tokens[id := consumed.value];
      if left[id].maxUses > 0 && left[id].currentUses >= left[id].maxUses {
        left := left - {id};
        assert left == tokens - {id};
      }
      r := Some(left);
    }
  }

  /** The uniqueness check on identity keys. */
  method KeyTaken(devices: Devices, key: string) returns (taken: bool)
    ensures taken <==> Known(devices, key)
  {
    taken := false;
    var todo := devices.Keys;
    while todo != {}
      invariant todo <= devices.Keys
      invariant taken <==> exists d :: d in devices && d !in todo && devices[d] == key
      decreases |todo|
    {
      var d :| d in todo;
      todo := todo - {d};
      if devices[d] == key { taken := true; }
    }
  }

  // ---------------------------------------------------------------- the system

  /** A registration being handled: received, found unknown, or holding a token snapshot. */
  datatype Handler =
    | Received(key: string, hash: string, now: Time)
    | Unknown(key: string, hash: string, now: Time)
    | Holding(key: string, hash: string, now: Time, token: string, snapshot: Token)

  /** The credential file of the enrolling agent: absent, a saved key, or enrolled. */
  datatype Disk = NoFile | KeySaved(key: string) | Enrolled(key: string, device: string)

  /** The enrolling process: not running, holding a saved key, waiting for an answer, or answered. */
  datatype Process = Off | Ready(key: string) | Asking(key: string) | Replied(key: string, device: string)

  /** History: `limit` and `secret` are every token ever created with its maximum and the hash of its value,
      `origin` the token each device used, `asked` every key this agent ever sent a registration for. */
  datatype System = System(
    tokens: Tokens, devices: Devices, handlers: map<nat, Handler>, replies: set<(string, string)>,
    disk: Disk, process: Process,
    limit: map<string, int>, secret: map<string, string>, origin: map<string, string>, asked: set<string>)

  datatype Step =
    | CreateToken(id: string, token: Token)
    | DeleteToken(id: string)
    | Receive(h: nat, key: string, hash: string, now: Time)
    | FindDevice(h: nat)
    | ReadToken(h: nat, id: string)
    | Commit(h: nat, device: string)
    | Drop(h: nat)
    | LoadKey
    | GenerateKey(key: string, applied: bool, ok: bool)
    | Ask(h: nat, hash: string, now: Time)
    | AskFails
    | ReplyArrives(device: string)
    | SaveEnrolled(applied: bool)
    | Crash

  ghost predicate Enabled(s: System, st: Step) {
    match st
    case CreateToken(id, t) => id !in s.limit && t.maxUses >= 0 && t.currentUses == 0
    case DeleteToken(_) => true
    case Receive(h, _, _, _) => h !in s.handlers
    case FindDevice(h) => h in s.handlers && s.handlers[h].Received?
    case ReadToken(h, id) =>
      && h in s.handlers && s.handlers[h].Unknown?
      && id in s.tokens && s.tokens[id].hash == s.handlers[h].hash && Usable(s.tokens[id], s.handlers[h].now)
    case Commit(h, device) => h in s.handlers && s.handlers[h].Holding?
    case Drop(_) => true
    case LoadKey => s.process.Off? && s.disk.KeySaved?
    case GenerateKey(_, applied, ok) => s.process.Off? && s.disk.NoFile? && (ok ==> applied)
    case Ask(h, _, _) => s.process.Ready? && h !in s.handlers
    case AskFails => s.process.Ready? || s.process.Asking?
    case ReplyArrives(d) => s.process.Asking? && (s.process.key, d) in s.replies
    case SaveEnrolled(_) => s.process.Replied?
    case Crash => true
  }

  ghost function DeviceOf(ds: Devices, key: string): (d: string)
    requires Known(ds, key)
    ensures d in ds && ds[d] == key
  {
    var d :| d in ds && ds[d] == key; d
  }

  ghost function Apply(s: System, st: Step): System
    requires Enabled(s, st)
  {
    match st
    case CreateToken(id, t) =>
      s.(tokens := s.tokens[id := t], limit := s.limit[id := t.maxUses], secret := s.secret[id := t.hash])
    case DeleteToken(id) => s.(tokens := s.tokens - {id})
    case Receive(h, key, hash, now) => s.(handlers := s.handlers[h := Received(key, hash, now)])
    case FindDevice(h) =>
      var r := s.handlers[h];
      if Known(s.devices, r.key) then
        s.(handlers := s.handlers - {h}, replies := s.replies + {(r.key, DeviceOf(s.devices, r.key))})
      else s.(handlers := s.handlers[h := Unknown(r.key, r.hash, r.now)])
    case ReadToken(h, id) =>
      var r := s.handlers[h];
      s.(handlers := s.handlers[h := Holding(r.key, r.hash, r.now, id, s.tokens[id])])
    case Commit(h, device) => ApplyCommit(s, h, device)
    case Drop(h) => s.(handlers := s.handlers - {h})
    case LoadKey => s.(process := Ready(s.disk.key))
    case GenerateKey(key, applied, ok) =>
      s.(disk := if applied then KeySaved(key) else s.disk, process := if ok then Ready(key) else Off)
    case Ask(h, hash, now) =>
      s.(handlers := s.handlers[h := Received(s.process.key, hash, now)], process := Asking(s.process.key),
         asked := s.asked + {s.process.key})
    case AskFails => s.(process := Off)
    case ReplyArrives(d) => s.(process := Replied(s.process.key, d))
    case SaveEnrolled(applied) =>
      s.(disk := if applied then Enrolled(s.process.key, s.process.device) else s.disk, process := Off)
    case Crash => s.(process := Off)
  }

  ghost function ApplyCommit(s: System, h: nat, device: string): System
    requires h in s.handlers && s.handlers[h].Holding?
  {
    var r := s.handlers[h];
    match Admit(s.tokens, s.devices, r.token, r.snapshot, r.now, device, r.key)
    case None => s.(handlers := s.handlers - {h})
    case Some(p) =>
      s.(tokens := p.0, devices := p.1, handlers := s.handlers - {h},
         replies := s.replies + {(r.key, device)}, origin := s.origin[device := r.token])
  }

  /** The devices a token admitted. */
  ghost function Admitted(origin: map<string, string>, token: string): set<string> {
    set d | d in origin && origin[d] == token
  }

  // ---------------------------------------------------------------- invariant

  /** A live row counts exactly the devices it admitted and has a use left; no token exceeds its maximum. */
  ghost predicate TokensOk(tokens: Tokens, limit: map<string, int>, origin: map<string, string>) {
    && tokens.Keys <= limit.Keys
    && (forall id :: id in tokens ==>
          && tokens[id].maxUses == limit[id] >= 0 && tokens[id].currentUses == |Admitted(origin, id)|
          && (limit[id] > 0 ==> tokens[id].currentUses < limit[id]))
    && (forall id :: id in limit && limit[id] > 0 ==> |Admitted(origin, id)| <= limit[id])
    && (forall d :: d in origin ==> origin[d] in limit)
  }

  ghost predicate DevicesOk(devices: Devices, origin: map<string, string>) {
    && origin.Keys == devices.Keys
    && (forall d, e :: d in devices && e in devices && devices[d] == devices[e] ==> d == e)
  }

  /** A snapshot never runs ahead of the row it was read from. */
  ghost predicate SnapshotsOk(handlers: map<nat, Handler>, limit: map<string, int>, origin: map<string, string>) {
    forall h :: h in handlers && handlers[h].Holding? ==>
      && handlers[h].token in limit && handlers[h].snapshot.maxUses == limit[handlers[h].token]
      && handlers[h].snapshot.currentUses <= |Admitted(origin, handlers[h].token)|
  }

  /** A row keeps the secret it was created with, and a registration holds a token whose secret it presented. */
  ghost predicate SecretsOk(tokens: Tokens, handlers: map<nat, Handler>, limit: map<string, int>,
                            secret: map<string, string>) {
    && secret.Keys == limit.Keys
    && (forall id :: id in tokens ==> id in secret && tokens[id].hash == secret[id])
    && (forall h :: h in handlers && handlers[h].Holding? ==>
          handlers[h].token in secret && secret[handlers[h].token] == handlers[h].hash)
  }

  ghost predicate RepliesOk(replies: set<(string, string)>, devices: Devices) {
    forall p :: p in replies ==> p.1 in devices && devices[p.1] == p.0
  }

  predicate Holds(disk: Disk, key: string) {
    (disk.KeySaved? || disk.Enrolled?) && disk.key == key
  }

  /** The agent asks only under the key it saved before, never replaces it, and saves only what a reply
      for that key said. */
  ghost predicate AgentOk(disk: Disk, process: Process, replies: set<(string, string)>, asked: set<string>) {
    && (forall k :: k in asked ==> Holds(disk, k))
    && (disk.Enrolled? ==> (disk.key, disk.device) in replies && disk.key in asked)
    && (process.Ready? || process.Asking? || process.Replied? ==> disk == KeySaved(process.key))
    && (process.Asking? || process.Replied? ==> process.key in asked)
    && (process.Replied? ==> (process.key, process.device) in replies)
  }

  ghost predicate Inv(s: System) {
    && TokensOk(s.tokens, s.limit, s.origin) && DevicesOk(s.devices, s.origin)
    && SnapshotsOk(s.handlers, s.limit, s.origin) && RepliesOk(s.replies, s.devices)
    && AgentOk(s.disk, s.process, s.replies, s.asked) && SecretsOk(s.tokens, s.handlers, s.limit, s.secret)
  }

  ghost predicate Init(s: System) {
    && s.tokens == map[] && s.devices == map[] && s.handlers == map[] && s.replies == {}
    && s.disk == NoFile && s.process == Off && s.limit == map[] && s.secret == map[]
    && s.origin == map[] && s.asked == {}
  }

  /** Adding a device to a token's account adds one. */
  lemma AdmittedGrows(origin: map<string, string>, device: string, token: string)
    requires device !in origin
    ensures |Admitted(origin[device := token], token)| == |Admitted(origin, token)| + 1
    ensures forall id :: id != token ==> Admitted(origin[device := token], id) == Admitted(origin, id)
  {
    assert Admitted(origin[device := token], token) == Admitted(origin, token) + {device};
    forall id | id != token ensures Admitted(origin[device := token], id) == Admitted(origin, id) {}
  }

  lemma CommitOk(s: System, h: nat, device: string)
    requires Inv(s) && h in s.handlers && s.handlers[h].Holding?
    ensures Inv(ApplyCommit(s, h, device))
  {
    hide TokensOk, DevicesOk, Consume, AgentOk;
    var r := s.handlers[h];
    AgentHears(s.disk, s.process, s.replies, (r.key, device), s.asked);
    if Admit(s.tokens, s.devices, r.token, r.snapshot, r.now, device, r.key).Some? {
      AdmitDevice(s.devices, s.origin, device, r.key, r.token);
      ConsumeAccounts(s.tokens, s.limit, s.origin, r.token, r.snapshot, r.now, device);
      AdmittedGrows(s.origin, device, r.token);
      ConsumeKeepsSecrets(s.tokens, r.token, r.snapshot, r.now);
    }
  }

  lemma AgentHears(disk: Disk, process: Process, replies: set<(string, string)>, reply: (string, string),
                   asked: set<string>)
    requires AgentOk(disk, process, replies, asked)
    ensures AgentOk(disk, process, replies + {reply}, asked)
  {
  }

  lemma AdmitDevice(devices: Devices, origin: map<string, string>, device: string, key: string, token: string)
    requires DevicesOk(devices, origin) && device !in devices && !Known(devices, key)
    ensures device !in origin && DevicesOk(devices[device := key], origin[device := token])
  {
    assert forall d :: d in devices ==> devices[d] != key;
  }

  /** Consuming a use and charging it to a new device keep the accounts, whatever the snapshot says. */
  lemma ConsumeAccounts(tokens: Tokens, limit: map<string, int>, origin: map<string, string>, id: string,
                        snapshot: Token, now: Time, device: string)
    requires TokensOk(tokens, limit, origin) && device !in origin && Consume(tokens, id, snapshot, now).Some?
    ensures TokensOk(Consume(tokens, id, snapshot, now).value, limit, origin[device := id])
  {
    AdmittedGrows(origin, device, id);
  }

  lemma ConsumeKeepsSecrets(tokens: Tokens, id: string, snapshot: Token, now: Time)
    requires Consume(tokens, id, snapshot, now).Some?
    ensures var left := Consume(tokens, id, snapshot, now).value;
      forall x :: x in left ==> x in tokens && left[x].hash == tokens[x].hash
  {
  }

  lemma CreateTokenOk(s: System, id: string, t: Token)
    requires Inv(s) && Enabled(s, CreateToken(id, t))
    ensures Inv(Apply(s, CreateToken(id, t)))
  {
    hide TokensOk, DevicesOk, SnapshotsOk, SecretsOk, RepliesOk, AgentOk;
    NewAccount(s.tokens, s.limit, s.origin, id, t);
    NewSecret(s, id, t);
  }

  lemma NewAccount(tokens: Tokens, limit: map<string, int>, origin: map<string, string>, id: string, t: Token)
    requires TokensOk(tokens, limit, origin) && id !in limit && t.maxUses >= 0 && t.currentUses == 0
    ensures TokensOk(tokens[id := t], limit[id := t.maxUses], origin)
  {
    assert Admitted(origin, id) == {};
  }

  lemma NewSecret(s: System, id: string, t: Token)
    requires SnapshotsOk(s.handlers, s.limit, s.origin) && SecretsOk(s.tokens, s.handlers, s.limit, s.secret)
    requires id !in s.limit
    ensures SnapshotsOk(s.handlers, s.limit[id := t.maxUses], s.origin)
    ensures SecretsOk(s.tokens[id := t], s.handlers, s.limit[id := t.maxUses], s.secret[id := t.hash])
  {
  }

  predicate OfAgent(st: Step) {
    || st.LoadKey? || st.GenerateKey? || st.AskFails? || st.ReplyArrives? || st.SaveEnrolled? || st.Crash?
  }

  lemma AgentStepOk(s: System, st: Step)
    requires Inv(s) && Enabled(s, st) && OfAgent(st)
    ensures Inv(Apply(s, st))
  {
    hide TokensOk, DevicesOk, SnapshotsOk, RepliesOk;
  }

  /** Handlers come, go and change without harm as long as none gets hold of a token. */
  lemma PlainHandler(s: System, h: nat, x: Handler)
    requires SnapshotsOk(s.handlers, s.limit, s.origin) && SecretsOk(s.tokens, s.handlers, s.limit, s.secret)
    requires !x.Holding?
    ensures SnapshotsOk(s.handlers[h := x], s.limit, s.origin) && SnapshotsOk(s.handlers - {h}, s.limit, s.origin)
    ensures SecretsOk(s.tokens, s.handlers[h := x], s.limit, s.secret)
    ensures SecretsOk(s.tokens, s.handlers - {h}, s.limit, s.secret)
  {
  }

  lemma ReadTokenOk(s: System, h: nat, id: string)
    requires Inv(s) && Enabled(s, ReadToken(h, id))
    ensures Inv(Apply(s, ReadToken(h, id)))
  {
    hide DevicesOk, RepliesOk, AgentOk;
  }

  lemma HandlerStepOk(s: System, st: Step)
    requires Inv(s) && Enabled(s, st) && (st.Receive? || st.Ask? || st.Drop?)
    ensures Inv(Apply(s, st))
  {
    hide TokensOk, DevicesOk, RepliesOk, SnapshotsOk, SecretsOk;
    var x := match st
      case Receive(_, key, hash, now) => Received(key, hash, now)
      case Ask(_, hash, now) => Received(s.process.key, hash, now)
      case _ => Received("", "", 0);
    PlainHandler(s, st.h, x);
  }

  lemma FindDeviceOk(s: System, h: nat)
    requires Inv(s) && Enabled(s, FindDevice(h))
    ensures Inv(Apply(s, FindDevice(h)))
  {
    hide TokensOk, DevicesOk, SnapshotsOk, SecretsOk;
    var r := s.handlers[h];
    PlainHandler(s, h, Unknown(r.key, r.hash, r.now));
  }

  lemma DeleteTokenOk(s: System, id: string)
    requires Inv(s)
    ensures Inv(Apply(s, DeleteToken(id)))
  {
    hide DevicesOk, SnapshotsOk, RepliesOk, AgentOk;
  }

  lemma StepOk(s: System, st: Step)
    requires Inv(s) && Enabled(s, st)
    ensures Inv(Apply(s, st))
  {
    hide Inv;
    match st
    case Commit(h, device) => CommitOk(s, h, device);
    case CreateToken(id, t) => CreateTokenOk(s, id, t);
    case DeleteToken(id) => DeleteTokenOk(s, id);
    case FindDevice(h) => FindDeviceOk(s, h);
    case Receive(_, _, _, _) => HandlerStepOk(s, st);
    case Ask(_, _, _) => HandlerStepOk(s, st);
    case ReadToken(h, id) => ReadTokenOk(s, h, id);
    case Drop(_) => HandlerStepOk(s, st);
    case _ => AgentStepOk(s, st);
  }

  // ---------------------------------------------------------------- whole runs

  ghost predicate ValidRun(s: System, steps: seq<Step>)
    decreases |steps|
  {
    steps == [] || (Enabled(s, steps[0]) && ValidRun(Apply(s, steps[0]), steps[1..]))
  }

  ghost function After(s: System, steps: seq<Step>): System
    requires ValidRun(s, steps)
    decreases |steps|
  {
    if steps == [] then s else After(Apply(s, steps[0]), steps[1..])
  }

  lemma {:induction false} RunOk(s: System, steps: seq<Step>)
    requires Inv(s) && ValidRun(s, steps)
    ensures Inv(After(s, steps))
    decreases |steps|
  {
    hide Inv, Enabled, Apply;
    if steps != [] {
      StepOk(s, steps[0]);
      RunOk(Apply(s, steps[0]), steps[1..]);
    }
  }

  /** Token accounting under any interleaving of registrations with stale snapshots: a limited token
      admits at most its maximum, a live row counts exactly what it admitted and has a use left, and
      the row is gone as soon as the maximum is reached. */
  lemma TokenAccounting(s: System, steps: seq<Step>, id: string)
    requires Init(s) && ValidRun(s, steps) && id in After(s, steps).limit
    ensures var z := After(s, steps); var used := |Admitted(z.origin, id)|;
      && (z.limit[id] > 0 ==> used <= z.limit[id])
      && (id in z.tokens ==>
            && z.tokens[id].currentUses == used && z.tokens[id].maxUses == z.limit[id]
            && (z.limit[id] > 0 ==> used < z.limit[id]))
      && (z.limit[id] > 0 && used == z.limit[id] ==> id !in z.tokens)
  {
    RunOk(s, steps);
  }

  /** Staleness never decides: in a reachable state a registration that holds a snapshot consumes the
      token exactly when the row is still there and has not expired. */
  lemma StaleSnapshotsAreHarmless(s: System, steps: seq<Step>, h: nat)
    requires Init(s) && ValidRun(s, steps)
    requires h in After(s, steps).handlers && After(s, steps).handlers[h].Holding?
    ensures var z := After(s, steps); var r := z.handlers[h];
      Consume(z.tokens, r.token, r.snapshot, r.now).Some? <==> r.token in z.tokens && z.tokens[r.token].expires > r.now
  {
    RunOk(s, steps);
  }

  /** The devices enrolled under a key. */
  ghost function EnrolledAs(devices: Devices, key: string): set<string> {
    set d | d in devices && devices[d] == key
  }

  /** The devices that exist because this agent asked, each of which cost one token use. */
  ghost function EnrolledByAgent(z: System): set<string> {
    set d | d in z.devices && z.devices[d] in z.asked
  }

  /** The uses charged to those devices, as pairs of token and device. */
  ghost function UsesOf(z: System): set<(string, string)> {
    set d | d in z.origin && d in EnrolledByAgent(z) :: (z.origin[d], d)
  }

  /** Enrollment is idempotent: however often the agent crashes, retries, loses a save or a reply, it asks
      under one key only, that key gets at most one device and costs at most one token use, every answer
      to it is that device, and an enrolled credential file names it. Until then the key is on disk, so a
      restarted agent asks again under the same key. */
  lemma EnrollmentIsIdempotent(s: System, steps: seq<Step>)
    requires Init(s) && ValidRun(s, steps)
    ensures var z := After(s, steps);
      && |z.asked| <= 1 && |EnrolledByAgent(z)| <= 1 && |UsesOf(z)| <= 1
      && (forall k :: k in z.asked ==> z.disk == KeySaved(k) || (z.disk.Enrolled? && z.disk.key == k))
      && (forall k :: k in z.asked && z.disk.KeySaved? && z.process.Off? ==>
            Enabled(z, LoadKey) && Apply(z, LoadKey).process == Ready(k))
      && (forall k, d :: k in z.asked && (k, d) in z.replies ==> EnrolledByAgent(z) == {d})
      && (z.disk.Enrolled? ==> z.asked == {z.disk.key} && EnrolledByAgent(z) == {z.disk.device})
  {
    hide ValidRun, After, Inv, Enabled, Apply, EnrolledByAgent, UsesOf;
    InitOk(s);
    RunOk(s, steps);
    IdempotentState(After(s, steps));
  }

  lemma InitOk(s: System)
    requires Init(s)
    ensures Inv(s)
  {
  }

  lemma AtMostOne<T>(s: set<T>, x: T)
    requires forall y :: y in s ==> y == x
    ensures |s| <= 1
  {
    if s != {} { assert s == {x}; }
  }

  lemma IdempotentState(z: System)
    requires Inv(z)
    ensures |z.asked| <= 1 && |EnrolledByAgent(z)| <= 1 && |UsesOf(z)| <= 1
    ensures forall k :: k in z.asked ==> z.disk == KeySaved(k) || (z.disk.Enrolled? && z.disk.key == k)
    ensures forall k :: k in z.asked && z.disk.KeySaved? && z.process.Off? ==>
      Enabled(z, LoadKey) && Apply(z, LoadKey).process == Ready(k)
    ensures forall k, d :: k in z.asked && (k, d) in z.replies ==> EnrolledByAgent(z) == {d}
    ensures z.disk.Enrolled? ==> z.asked == {z.disk.key} && EnrolledByAgent(z) == {z.disk.device}
  {
    if z.asked != {} {
      AtMostOne(z.asked, z.disk.key);
      if d :| d in EnrolledByAgent(z) {
        AtMostOne(EnrolledByAgent(z), d);
        AtMostOne(UsesOf(z), (z.origin[d], d));
      }
    }
    forall k, d | k in z.asked && (k, d) in z.replies ensures EnrolledByAgent(z) == {d} {
      assert d in z.devices && z.devices[d] == k;
    }
    if z.disk.Enrolled? {
      assert z.asked == {z.disk.key};
      assert (z.disk.key, z.disk.device) in z.replies;
    }
  }

  /** The same for any identity, whoever registers it and in however many concurrent requests: at most one
      device, and one answer. */
  lemma OneDevicePerKey(s: System, steps: seq<Step>, key: string)
    requires Init(s) && ValidRun(s, steps)
    ensures var z := After(s, steps);
      && |EnrolledAs(z.devices, key)| <= 1
      && (forall d :: (key, d) in z.replies ==> EnrolledAs(z.devices, key) == {d})
  {
    hide ValidRun, After;
    InitOk(s);
    RunOk(s, steps);
    var z := After(s, steps);
    if d :| d in EnrolledAs(z.devices, key) { AtMostOne(EnrolledAs(z.devices, key), d); }
    forall d | (key, d) in z.replies ensures EnrolledAs(z.devices, key) == {d} {
      assert d in z.devices && z.devices[d] == key;
    }
  }

  /** A retry of an enrolled identity is answered with its device whatever became of the token, and
      what the agent ends up saving is that device. */
  lemma RetryReturnsTheDevice(s: System, steps: seq<Step>, h: nat)
    requires Init(s) && ValidRun(s, steps) && Enabled(After(s, steps), FindDevice(h))
    requires Known(After(s, steps).devices, After(s, steps).handlers[h].key)
    ensures var z := After(s, steps); var key := z.handlers[h].key; var z' := Apply(z, FindDevice(h));
      && z'.tokens == z.tokens && z'.devices == z.devices
      && (exists d :: (key, d) in z'.replies && d in z.devices && z.devices[d] == key)
      && (z.disk.Enrolled? && z.disk.key == key ==>
            (key, z.disk.device) in z'.replies && z.disk.device in z.devices && z.devices[z.disk.device] == key)
  {
    RunOk(s, steps);
    var z := After(s, steps);
    var key := z.handlers[h].key;
    assert (key, DeviceOf(z.devices, key)) in Apply(z, FindDevice(h)).replies;
  }

  /** A device is admitted only by a registration that presented the secret of a token which is still there
      and unexpired; exactly that device is added, under the key of the request, and one use of that token is
      charged to it. */
  lemma AdmissionNeedsTheSecret(s: System, steps: seq<Step>, h: nat, device: string)
    requires Init(s) && ValidRun(s, steps) && Enabled(After(s, steps), Commit(h, device))
    requires var z := After(s, steps); Apply(z, Commit(h, device)).devices != z.devices
    ensures var z := After(s, steps); var z' := Apply(z, Commit(h, device)); var r := z.handlers[h];
      && r.token in z.tokens && z.tokens[r.token].hash == r.hash && z.tokens[r.token].expires > r.now
      && device !in z.devices && z'.devices == z.devices[device := r.key] && (r.key, device) in z'.replies
      && z'.origin == z.origin[device := r.token] && OneUseTaken(z.tokens, z'.tokens, r.token, r.now)
  {
    hide ValidRun, After;
    InitOk(s);
    RunOk(s, steps);
    AdmissionState(After(s, steps), h, device);
  }

  lemma AdmissionState(z: System, h: nat, device: string)
    requires Inv(z) && Enabled(z, Commit(h, device)) && Apply(z, Commit(h, device)).devices != z.devices
    ensures var z' := Apply(z, Commit(h, device)); var r := z.handlers[h];
      && r.token in z.tokens && z.tokens[r.token].hash == r.hash && z.tokens[r.token].expires > r.now
      && device !in z.devices && z'.devices == z.devices[device := r.key] && (r.key, device) in z'.replies
      && z'.origin == z.origin[device := r.token] && OneUseTaken(z.tokens, z'.tokens, r.token, r.now)
  {
    hide TokensOk, DevicesOk, SnapshotsOk, RepliesOk, AgentOk;
    var r := z.handlers[h];
    ConsumeTakesOne(z.tokens, r.token, r.snapshot, r.now);
    hide Consume, OneUseTaken;
  }

  lemma ConsumeTakesOne(tokens: Tokens, id: string, snapshot: Token, now: Time)
    requires Consume(tokens, id, snapshot, now).Some?
    ensures OneUseTaken(tokens, Consume(tokens, id, snapshot, now).value, id, now)
    ensures id in tokens && tokens[id].expires > now
  {
  }

  /** Enrollment gets through: an agent holding its saved key, given the secret of a live token and no
      interruption, ends up enrolled as a device of that key, newly admitted if the key was unknown. */
  lemma EnrollmentProceeds(s: System, steps: seq<Step>, h: nat, now: Time, id: string, device: string)
    requires Init(s) && ValidRun(s, steps)
    requires var z := After(s, steps);
      && z.process.Ready? && h !in z.handlers && id in z.tokens && z.tokens[id].expires > now
      && device !in z.devices && !Known(z.devices, z.process.key)
    ensures var z := After(s, steps); var key := z.process.key; var hash := z.tokens[id].hash;
      && Enabled(z, Ask(h, hash, now))
      && var z1 := Apply(z, Ask(h, hash, now));
         && Enabled(z1, FindDevice(h))
         && var z2 := Apply(z1, FindDevice(h));
            && Enabled(z2, ReadToken(h, id))
            && var z3 := Apply(z2, ReadToken(h, id));
               && Enabled(z3, Commit(h, device))
               && var z4 := Apply(z3, Commit(h, device));
                  && z4.devices == z.devices[device := key] && OneUseTaken(z.tokens, z4.tokens, id, now)
                  && Enabled(z4, ReplyArrives(device))
                  && var z5 := Apply(z4, ReplyArrives(device));
                     && Enabled(z5, SaveEnrolled(true))
                     && Apply(z5, SaveEnrolled(true)).disk == Enrolled(key, device)
  {
    hide ValidRun, After;
    InitOk(s);
    RunOk(s, steps);
    ProceedsState(After(s, steps), h, now, id, device);
  }

  lemma ProceedsState(z: System, h: nat, now: Time, id: string, device: string)
    requires Inv(z) && z.process.Ready? && h !in z.handlers && id in z.tokens && z.tokens[id].expires > now
    requires device !in z.devices && !Known(z.devices, z.process.key)
    ensures var key := z.process.key; var hash := z.tokens[id].hash;
      && Enabled(z, Ask(h, hash, now))
      && var z1 := Apply(z, Ask(h, hash, now));
         && Enabled(z1, FindDevice(h))
         && var z2 := Apply(z1, FindDevice(h));
            && Enabled(z2, ReadToken(h, id))
            && var z3 := Apply(z2, ReadToken(h, id));
               && Enabled(z3, Commit(h, device))
               && var z4 := Apply(z3, Commit(h, device));
                  && z4.devices == z.devices[device := key] && OneUseTaken(z.tokens, z4.tokens, id, now)
                  && Enabled(z4, ReplyArrives(device))
                  && var z5 := Apply(z4, ReplyArrives(device));
                     && Enabled(z5, SaveEnrolled(true))
                     && Apply(z5, SaveEnrolled(true)).disk == Enrolled(key, device)
  {
    hide Inv, Enabled, Apply, OneUseTaken, Known;
    LiveTokensAreUsable(z, id, now);
    ConsumeTakesOne(z.tokens, id, z.tokens[id], now);
    Asks(z, h, z.tokens[id].hash, now);
    var z1 := Apply(z, Ask(h, z.tokens[id].hash, now));
    Looks(z1, h, id);
    var z3 := Apply(Apply(z1, FindDevice(h)), ReadToken(h, id));
    Admits(z3, h, device);
    Saves(Apply(z3, Commit(h, device)), device);
  }

  lemma Asks(z: System, h: nat, hash: string, now: Time)
    requires z.process.Ready? && h !in z.handlers
    ensures Enabled(z, Ask(h, hash, now))
    ensures var z' := Apply(z, Ask(h, hash, now));
      && h in z'.handlers && z'.handlers[h] == Received(z.process.key, hash, now)
      && z'.process == Asking(z.process.key) && z'.tokens == z.tokens && z'.devices == z.devices
  {
  }

  lemma Looks(z: System, h: nat, id: string)
    requires h in z.handlers && z.handlers[h].Received? && !Known(z.devices, z.handlers[h].key)
    requires id in z.tokens && z.tokens[id].hash == z.handlers[h].hash && Usable(z.tokens[id], z.handlers[h].now)
    ensures Enabled(z, FindDevice(h)) && Enabled(Apply(z, FindDevice(h)), ReadToken(h, id))
    ensures var z' := Apply(Apply(z, FindDevice(h)), ReadToken(h, id)); var r := z.handlers[h];
      && h in z'.handlers && z'.handlers[h] == Holding(r.key, r.hash, r.now, id, z.tokens[id])
      && z'.process == z.process && z'.tokens == z.tokens && z'.devices == z.devices
  {
    hide Known, Usable;
  }

  lemma Admits(z: System, h: nat, device: string)
    requires h in z.handlers && z.handlers[h].Holding? && device !in z.devices && !Known(z.devices, z.handlers[h].key)
    requires var r := z.handlers[h]; Consume(z.tokens, r.token, r.snapshot, r.now).Some?
    ensures Enabled(z, Commit(h, device))
    ensures var z' := Apply(z, Commit(h, device)); var r := z.handlers[h];
      && z'.devices == z.devices[device := r.key] && z'.process == z.process && (r.key, device) in z'.replies
      && z'.tokens == Consume(z.tokens, r.token, r.snapshot, r.now).value
  {
    hide Known, Consume;
  }

  lemma Saves(z: System, device: string)
    requires z.process.Asking? && (z.process.key, device) in z.replies
    ensures Enabled(z, ReplyArrives(device)) && Enabled(Apply(z, ReplyArrives(device)), SaveEnrolled(true))
    ensures Apply(Apply(z, ReplyArrives(device)), SaveEnrolled(true)).disk == Enrolled(z.process.key, device)
  {
  }

  lemma LiveTokensAreUsable(z: System, id: string, now: Time)
    requires Inv(z) && id in z.tokens && z.tokens[id].expires > now
    ensures Usable(z.tokens[id], now) && Consume(z.tokens, id, z.tokens[id], now).Some?
  {
    hide DevicesOk, SnapshotsOk, RepliesOk, AgentOk, SecretsOk;
  }
}
