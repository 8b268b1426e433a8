/** Certificate rotation between one agent and its device row. The agent's disk, its memory and the
    server row change in separate steps; hellos, welcomes and renewals may be lost, delayed or handled
    repeatedly; saves may fail or take effect without being confirmed; the process may crash anywhere.
    A certificate is represented by its serial, and serials are issued in increasing order. */
module Rotation {
  import opened Actions

  datatype Certs = Certs(active: nat, pending: Option<nat>)

  // ---------------------------------------------------------------- the pure decisions

  predicate PresentPending(pending: bool, fallback: bool) {
    pending && !fallback
  }

  /** The certificate a connection attempt presents. */
  function Presented(c: Certs, fallback: bool): nat {
    if PresentPending(c.pending.Some?, fallback) then c.pending.value else c.active
  }

  predicate FallbackAfter(pending: bool, presentedPending: bool, connected: bool) {
    pending && !connected && presentedPending
  }

  // ---------------------------------------------------------------- the server row

  /** `issued` is the number of serials handed out so far. */
  datatype Server = Server(row: Certs, issued: nat)

  predicate Accepts(s: Server, serial: nat) {
    serial == s.row.active || s.row.pending == Some(serial)
  }

  /** Authentication of a hello: a pending certificate is promoted by its first use. */
  function Authenticate(s: Server, serial: nat): Server {
    if serial != s.row.active && s.row.pending == Some(serial) then s.(row := Certs(serial, None)) else s
  }

  /** Renewal for the holder of the active certificate: the pending one is returned again. */
  function Renew(s: Server, peer: nat): (Server, Option<nat>) {
    if s.row.active != peer then (s, None)
    else if s.row.pending.Some? then (s, s.row.pending)
    else (Server(Certs(s.row.active, Some(s.issued)), s.issued + 1), Some(s.issued))
  }

  /** A hello is welcome exactly with the active or the pending certificate, and afterwards the one it
      presented is active; using the pending one leaves none pending, and nothing else changes the row. */
  lemma HelloMeans(s: Server, serial: nat)
    ensures Accepts(s, serial) <==> serial == s.row.active || s.row.pending == Some(serial)
    ensures Accepts(s, serial) ==> Authenticate(s, serial).row.active == serial
    ensures s.row.pending == Some(serial) && serial != s.row.active ==>
      Authenticate(s, serial).row == Certs(serial, None)
    ensures serial == s.row.active || !Accepts(s, serial) ==> Authenticate(s, serial) == s
    ensures Authenticate(s, serial).issued == s.issued
  {
  }

  /** A renewal is granted exactly to the holder of the active certificate: the same pending certificate as
      often as it asks, or else a serial never issued before. */
  lemma RenewMeans(s: Server, peer: nat)
    ensures var (s', granted) := Renew(s, peer);
      && (granted.Some? <==> peer == s.row.active)
      && (granted.Some? ==> s'.row == Certs(peer, granted))
      && (granted.None? || s.row.pending.Some? ==> s' == s)
      && (granted.Some? && s.row.pending.None? ==> granted == Some(s.issued) && s'.issued == s.issued + 1)
      && (granted.Some? ==> Renew(s', peer) == (s', granted))
  {
  }

  // ---------------------------------------------------------------- the agent loop

  datatype Phase =
    | Down
    | Starting(first: bool)
    | Waiting(conn: nat, usingPending: bool)
    | Promoting
    | Connected
    | Renewing(req: nat)
    | Staging
    | Streaming(usingPending: bool, connected: bool)

  datatype System = System(
    disk: Certs, mem: Certs, fallback: bool, phase: Phase, server: Server,
    hellos: map<nat, nat>, welcomes: set<nat>, renewals: map<nat, nat>, grants: set<(nat, nat)>)

  datatype Step =
    | Boot
    | Crash
    | Dial(loadOk: bool, conn: nat)
    | ServerHello(conn: nat)
    | WelcomeArrives
    | GiveUp
    | SavePromoted(applied: bool)
    | SkipRenewal
    | RequestRenewal(req: nat)
    | ServerRenew(req: nat)
    | GrantArrives(serial: nat)
    | RenewalFails
    | SaveStaged(applied: bool)
    | StreamEnds

  predicate Enabled(s: System, st: Step) {
    match st
    case Boot => s.phase.Down?
    case Crash => true
    case Dial(loadOk, conn) => s.phase.Starting? && conn !in s.hellos
    case ServerHello(conn) => conn in s.hellos
    case WelcomeArrives =>
      s.phase.Waiting? && s.phase.conn in s.welcomes && (s.phase.usingPending ==> s.mem.pending.Some?)
    case GiveUp => s.phase.Waiting?
    case SavePromoted(_) => s.phase.Promoting?
    case SkipRenewal => s.phase.Connected?
    case RequestRenewal(req) => s.phase.Connected? && req !in s.renewals
    case ServerRenew(req) => req in s.renewals
    case GrantArrives(serial) => s.phase.Renewing? && (s.phase.req, serial) in s.grants
    case RenewalFails => s.phase.Renewing?
    case SaveStaged(_) => s.phase.Staging?
    case StreamEnds => s.phase.Streaming?
  }

  /** The credentials a connection attempt works with: re-read from disk except on the first attempt,
      or the copy in memory when that fails. */
  function Reloaded(s: System, loadOk: bool): Certs
    requires s.phase.Starting?
  {
    if s.phase.first || !loadOk then s.mem else s.disk
  }

  function Apply(s: System, st: Step): System
    requires Enabled(s, st)
  {
    match st
    case Boot => s.(mem := s.disk, fallback := false, phase := Starting(true))
    case Crash => s.(phase := Down)
    case Dial(loadOk, conn) =>
      var mem := Reloaded(s, loadOk);
      s.(mem := mem, phase := Waiting(conn, PresentPending(mem.pending.Some?, s.fallback)),
         hellos := s.hellos[conn := Presented(mem, s.fallback)])
    case ServerHello(conn) =>
      var serial := s.hellos[conn];
      s.(server := Authenticate(s.server, serial),
         welcomes := if Accepts(s.server, serial) then s.welcomes + {conn} else s.welcomes)
    case WelcomeArrives =>
      if s.phase.usingPending then s.(mem := Certs(s.mem.pending.value, None), phase := Promoting)
      else s.(phase := Connected)
    case GiveUp => s.(phase := Streaming(s.phase.usingPending, false))
    case SavePromoted(applied) =>
      s.(disk := if applied then s.mem else s.disk, fallback := false, phase := Streaming(true, true))
    case SkipRenewal => s.(phase := Streaming(false, true))
    case RequestRenewal(req) => s.(phase := Renewing(req), renewals := s.renewals[req := s.mem.active])
    case ServerRenew(req) =>
      var (server, granted) := Renew(s.server, s.renewals[req]);
      s.(server := server, grants := if granted.Some? then s.grants + {(req, granted.value)} else s.grants)
    case GrantArrives(serial) => s.(mem := s.mem.(pending := Some(serial)), phase := Staging)
    case RenewalFails => s.(phase := Streaming(false, true))
    case SaveStaged(applied) => s.(disk := if applied then s.mem else s.disk, phase := Streaming(false, true))
    case StreamEnds =>
      s.(fallback := FallbackAfter(s.mem.pending.Some?, s.phase.usingPending, s.phase.connected),
         phase := Starting(false))
  }

  /** The one dangerous moment: reloading fails while memory holds a renewed certificate that no save
      put on disk. Everything else a step may do is safe. */
  predicate Guarded(s: System, st: Step) {
    st.Dial? && s.phase.Starting? && !s.phase.first && !st.loadOk ==> Saved(s)
  }

  // ---------------------------------------------------------------- invariant

  /** The server's active serial is saved on the agent's disk, and a saved pending certificate is
      either the server's pending or already its active one. */
  predicate Recognised(disk: Certs, row: Certs) {
    && (row.active == disk.active || disk.pending == Some(row.active))
    && (disk.pending.Some? ==> disk.pending.value == row.active || row.pending == disk.pending)
    && disk.active <= row.active
  }

  predicate RowOk(s: Server) {
    s.row.active < s.issued && (s.row.pending.Some? ==> s.row.active < s.row.pending.value < s.issued)
  }

  /** A granted certificate is the server's pending one, or was presented from disk and promoted. */
  predicate GrantOk(s: System, serial: nat) {
    || (s.server.row.pending == Some(serial) && s.server.row.active == s.mem.active)
    || (s.server.row.active == serial && s.disk.pending == Some(serial))
  }

  ghost predicate MessagesOk(s: System) {
    && (forall c :: c in s.hellos ==>
          && s.hellos[c] < s.server.issued
          && (s.server.row.pending == Some(s.hellos[c]) ==> s.disk.pending == Some(s.hellos[c])))
    && (forall c :: c in s.welcomes ==> c in s.hellos && s.hellos[c] <= s.server.row.active)
    && (forall g :: g in s.grants ==> g.0 in s.renewals)
  }

  /** Memory holds no pending certificate that the disk lacks. */
  predicate Saved(s: System) {
    s.mem.pending.None? || s.mem.pending == s.disk.pending
  }

  predicate MemoryOk(s: System) {
    && (s.mem.active == s.disk.active || s.disk.pending == Some(s.mem.active))
    && s.mem.active <= s.server.row.active
    && (s.mem.pending.Some? ==> s.mem.pending == s.disk.pending || GrantOk(s, s.mem.pending.value))
  }

  ghost predicate PhaseOk(s: System) {
    match s.phase
    case Down => true
    case Starting(first) => MemoryOk(s) && (first ==> s.mem == s.disk) && (!Saved(s) ==> !s.fallback)
    case Waiting(conn, usingPending) =>
      && MemoryOk(s) && conn in s.hellos && Saved(s)
      && (usingPending ==> s.mem.pending == s.disk.pending == Some(s.hellos[conn]))
    case Promoting => s.disk.pending == Some(s.mem.active) && s.mem.pending.None? && s.mem.active <= s.server.row.active
    case Renewing(req) =>
      && MemoryOk(s) && req in s.renewals && s.renewals[req] == s.mem.active
      && (forall g :: g in s.grants && g.0 == req ==> GrantOk(s, g.1))
    case Staging => MemoryOk(s) && s.mem.pending.Some? && GrantOk(s, s.mem.pending.value)
    case Streaming(_, connected) => MemoryOk(s) && (!connected ==> Saved(s))
    case Connected => MemoryOk(s)
  }

  ghost predicate Inv(s: System) {
    RowOk(s.server) && Recognised(s.disk, s.server.row) && MessagesOk(s) && PhaseOk(s)
  }

  /** A freshly enrolled agent: one certificate, saved and active. */
  ghost predicate Init(s: System) {
    && s.disk == Certs(s.server.row.active, None) && s.server.row.pending.None? && s.server.row.active < s.server.issued
    && s.phase == Down && s.hellos == map[] && s.welcomes == {} && s.renewals == map[] && s.grants == {}
  }

  lemma InitOk(s: System)
    requires Init(s)
    ensures Inv(s)
  {
  }

  lemma ServerHelloOk(s: System, conn: nat)
    requires Inv(s) && conn in s.hellos
    ensures Inv(Apply(s, ServerHello(conn)))
  {
    var s' := Apply(s, ServerHello(conn));
    if s.server.row.pending == Some(s.hellos[conn]) {
      assert s.disk.pending == s.server.row.pending;
      forall x | GrantOk(s, x) ensures GrantOk(s', x) {}
    } else {
      assert s'.server == s.server;
    }
  }

  lemma ServerRenewOk(s: System, req: nat)
    requires Inv(s) && req in s.renewals
    ensures Inv(Apply(s, ServerRenew(req)))
    ensures s.server.row.pending.Some? ==> Apply(s, ServerRenew(req)).server == s.server
    ensures forall x :: (req, x) in Apply(s, ServerRenew(req)).grants && (req, x) !in s.grants ==>
      Apply(s, ServerRenew(req)).server.row == Certs(s.renewals[req], Some(x))
  {
    var s' := Apply(s, ServerRenew(req));
    forall x | GrantOk(s, x) ensures GrantOk(s', x) {}
  }

  predicate Connecting(st: Step) {
    st.Boot? || st.Crash? || st.Dial? || st.WelcomeArrives? || st.GiveUp?
  }

  lemma ConnectingOk(s: System, st: Step)
    requires Inv(s) && Enabled(s, st) && Guarded(s, st) && Connecting(st)
    ensures Inv(Apply(s, st))
  {
  }

  lemma SavingOk(s: System, st: Step)
    requires Inv(s) && Enabled(s, st) && (st.SavePromoted? || st.SaveStaged? || st.StreamEnds?)
    ensures Inv(Apply(s, st))
  {
  }

  lemma RenewingOk(s: System, st: Step)
    requires Inv(s) && Enabled(s, st)
    requires st.SkipRenewal? || st.RequestRenewal? || st.GrantArrives? || st.RenewalFails?
    ensures Inv(Apply(s, st))
  {
  }

  lemma StepOk(s: System, st: Step)
    requires Inv(s) && Enabled(s, st) && Guarded(s, st)
    ensures Inv(Apply(s, st))
  {
    hide Inv, Enabled, Apply, Guarded;
    match st {
      case ServerHello(conn) => ServerCan(s, st); ServerHelloOk(s, conn);
      case ServerRenew(req) => ServerCan(s, st); ServerRenewOk(s, req);
      case SavePromoted(_) => SavingOk(s, st);
      case SaveStaged(_) => SavingOk(s, st);
      case StreamEnds => SavingOk(s, st);
      case SkipRenewal => RenewingOk(s, st);
      case RequestRenewal(_) => RenewingOk(s, st);
      case GrantArrives(_) => RenewingOk(s, st);
      case RenewalFails => RenewingOk(s, st);
      case _ => ConnectingOk(s, st);
    }
  }

  lemma ServerCan(s: System, st: Step)
    requires Enabled(s, st)
    ensures st.ServerHello? ==> st.conn in s.hellos
    ensures st.ServerRenew? ==> st.req in s.renewals
  {
  }

  // ---------------------------------------------------------------- whole runs

  ghost predicate ValidRun(s: System, steps: seq<Step>)
    decreases |steps|
  {
    steps == [] || (Enabled(s, steps[0]) && ValidRun(Apply(s, steps[0]), steps[1..]))
  }

  ghost predicate GuardedRun(s: System, steps: seq<Step>)
    requires ValidRun(s, steps)
    decreases |steps|
  {
    steps == [] || (Guarded(s, steps[0]) && GuardedRun(Apply(s, steps[0]), steps[1..]))
  }

  ghost function After(s: System, steps: seq<Step>): System
    requires ValidRun(s, steps)
    decreases |steps|
  {
    if steps == [] then s else After(Apply(s, steps[0]), steps[1..])
  }

  lemma {:induction false} RunOk(s: System, steps: seq<Step>)
    requires Inv(s) && ValidRun(s, steps) && GuardedRun(s, steps)
    ensures Inv(After(s, steps))
    decreases |steps|
  {
    hide Inv, Enabled, Apply, Guarded;
    if steps != [] {
      StepOk(s, steps[0]);
      RunOk(Apply(s, steps[0]), steps[1..]);
    }
  }

  /** No lock-out: in every reachable state the server's active certificate is the agent's saved active
      or saved pending one. */
  lemma ServerNeverOutruns(s: System, steps: seq<Step>)
    requires Init(s) && ValidRun(s, steps) && GuardedRun(s, steps)
    ensures var z := After(s, steps);
      z.server.row.active == z.disk.active || z.disk.pending == Some(z.server.row.active)
  {
    RunOk(s, steps);
  }

  predicate ServerOnly(st: Step) {
    st.ServerHello? || st.ServerRenew?
  }

  ghost predicate OnlyServer(steps: seq<Step>) {
    forall i :: 0 <= i < |steps| ==> ServerOnly(steps[i])
  }

  /** One turn of the connection loop that ends without a welcome: dial, wait while the server handles
      whatever messages it has, give up, and end the stream. */
  ghost predicate FailedAttempt(s: System, conn: nat, meanwhile: seq<Step>, s': System) {
    && Enabled(s, Dial(true, conn)) && OnlyServer(meanwhile)
    && var dialled := Apply(s, Dial(true, conn));
       && ValidRun(dialled, meanwhile)
       && var waited := After(dialled, meanwhile);
          && Enabled(waited, GiveUp) && s' == Apply(Apply(waited, GiveUp), StreamEnds)
  }

  /** Two turns of the loop suffice: from any reachable state, if the certificate of the first turn is
      refused at any point where the server may see it, the one the next turn presents is accepted
      wherever the server sees that. Delayed and repeated messages are handled in between at will. */
  lemma TwoAttemptsSuffice(s: System, steps: seq<Step>, c1: nat, m1: seq<Step>, seen: nat, z1: System,
                           m2: seq<Step>, c2: nat, m3: seq<Step>)
    requires Init(s) && ValidRun(s, steps) && GuardedRun(s, steps)
    requires FailedAttempt(After(s, steps), c1, m1, z1) && seen <= |m1|
    requires OnlyServer(m2) && ValidRun(z1, m2) && Enabled(After(z1, m2), Dial(true, c2))
    requires OnlyServer(m3) && ValidRun(Apply(After(z1, m2), Dial(true, c2)), m3)
    ensures ValidRun(Apply(After(s, steps), Dial(true, c1)), m1[..seen])
    ensures var first := After(Apply(After(s, steps), Dial(true, c1)), m1[..seen]);
      var second := After(Apply(After(z1, m2), Dial(true, c2)), m3);
      && c1 in first.hellos && c2 in second.hellos
      && (Accepts(first.server, first.hellos[c1]) || Accepts(second.server, second.hellos[c2]))
  {
    hide After, ValidRun, GuardedRun, Inv, Enabled;
    InitOk(s);
    RunOk(s, steps);
    var z := After(s, steps);
    var d1 := Dialled(z, c1);
    PrefixValid(d1, m1, seen);
    var first := ServerMeanwhile(d1, m1[..seen]);
    var waited := ServerMeanwhile(d1, m1);
    var ended := Ended(waited);
    var again := ServerMeanwhile(ended, m2);
    var d2 := Dialled(again, c2);
    var second := ServerMeanwhile(d2, m3);
    Recognises(first);
    Recognises(second);
  }

  /** What a dial with a successful reload leaves: the saved credentials in memory, and a hello with the
      certificate they and the fallback flag select. */
  lemma Dialled(s: System, conn: nat) returns (s': System)
    requires Inv(s) && Enabled(s, Dial(true, conn))
    ensures s' == Apply(s, Dial(true, conn)) && Inv(s') && s'.disk == s.disk && s'.mem == s.disk && conn in s'.hellos
    ensures s'.phase == Waiting(conn, PresentPending(s.disk.pending.Some?, s.fallback))
    ensures s'.hellos[conn] == Presented(s.disk, s.fallback)
  {
    s' := Apply(s, Dial(true, conn));
    StepOk(s, Dial(true, conn));
  }

  lemma Ended(s: System) returns (s': System)
    requires Inv(s) && s.phase.Waiting?
    ensures Enabled(s, GiveUp) && Enabled(Apply(s, GiveUp), StreamEnds)
    ensures s' == Apply(Apply(s, GiveUp), StreamEnds) && Inv(s') && s'.disk == s.disk
    ensures s'.fallback == FallbackAfter(s.mem.pending.Some?, s.phase.usingPending, false)
  {
    StepOk(s, GiveUp);
    StepOk(Apply(s, GiveUp), StreamEnds);
    s' := Apply(Apply(s, GiveUp), StreamEnds);
  }

  lemma ServerMeanwhile(s: System, steps: seq<Step>) returns (s': System)
    requires Inv(s) && ValidRun(s, steps) && OnlyServer(steps)
    ensures s' == After(s, steps) && Inv(s')
    ensures s'.disk == s.disk && s'.mem == s.mem && s'.fallback == s.fallback && s'.phase == s.phase
    ensures s'.hellos == s.hellos
  {
    hide Inv, Enabled, Apply;
    ServerStepsOnly(s, steps);
    RunOk(s, steps);
    s' := After(s, steps);
  }

  lemma Recognises(s: System)
    requires Inv(s)
    ensures Recognised(s.disk, s.server.row)
  {
  }

  lemma {:induction false} PrefixValid(s: System, steps: seq<Step>, n: nat)
    requires ValidRun(s, steps) && n <= |steps| && OnlyServer(steps)
    ensures ValidRun(s, steps[..n]) && OnlyServer(steps[..n])
    decreases n
  {
    if n > 0 {
      assert ServerOnly(steps[0]);
      PrefixValid(Apply(s, steps[0]), steps[1..], n - 1);
      assert steps[..n][1..] == steps[1..][..n - 1];
    }
  }

  /** The server alone touches nothing of the agent's. */
  lemma {:induction false} ServerStepsOnly(s: System, steps: seq<Step>)
    requires ValidRun(s, steps) && OnlyServer(steps)
    ensures GuardedRun(s, steps)
    ensures var z := After(s, steps);
      z.disk == s.disk && z.mem == s.mem && z.fallback == s.fallback && z.phase == s.phase && z.hellos == s.hellos
    decreases |steps|
  {
    if steps != [] {
      assert ServerOnly(steps[0]);
      ServerStepsOnly(Apply(s, steps[0]), steps[1..]);
    }
  }

  /** The guard is exact: whenever a reload fails outside it, the dialled hello alone makes the server
      forget everything on the agent's disk, and after a crash both saved certificates are refused. */
  lemma UnguardedReloadLocksOut(s: System, conn: nat)
    requires Inv(s) && s.phase == Starting(false) && conn !in s.hellos
    requires !Guarded(s, Dial(false, conn))
    ensures var steps := [Dial(false, conn), ServerHello(conn), Crash];
      && ValidRun(s, steps)
      && var z := After(s, steps);
         && z.phase == Down && z.disk == s.disk
         && !Accepts(z.server, z.disk.active)
         && (z.disk.pending.Some? ==> !Accepts(z.server, z.disk.pending.value))
  {
    var steps := [Dial(false, conn), ServerHello(conn), Crash];
    assert GrantOk(s, s.mem.pending.value);
    var s1 := Apply(s, steps[0]);
    var s2 := Apply(s1, steps[1]);
    var s3 := Apply(s2, steps[2]);
    assert steps[1..] == [ServerHello(conn), Crash];
    assert steps[1..][1..] == [Crash];
    assert steps[1..][1..][1..] == [];
    assert ValidRun(s3, []);
    assert ValidRun(s2, [Crash]) && After(s2, [Crash]) == s3;
    assert ValidRun(s1, [ServerHello(conn), Crash]) && After(s1, [ServerHello(conn), Crash]) == s3;
  }

  /** Such a state is reachable: renew, fail to save the renewed certificate, lose the connection. */
  lemma UnguardedReloadIsReachable() returns (s: System, steps: seq<Step>)
    ensures Init(s) && ValidRun(s, steps) && GuardedRun(s, steps)
    ensures var z := After(s, steps); z.phase == Starting(false) && 1 !in z.hellos && !Guarded(z, Dial(false, 1))
  {
    hide ValidRun, GuardedRun, After;
    var z;
    s, steps, z := FirstRenewal();
    steps, z := Extend(s, steps, GrantArrives(1), z);
    steps, z := Extend(s, steps, SaveStaged(false), z);
    steps, z := Extend(s, steps, StreamEnds, z);
  }

  lemma FirstRenewal() returns (s: System, steps: seq<Step>, z: System)
    ensures Init(s) && ValidRun(s, steps) && GuardedRun(s, steps) && z == After(s, steps)
    ensures (0, 1) in z.grants && z.phase == Renewing(0) && z.disk == z.mem == Certs(0, None) && !z.fallback
    ensures 1 !in z.hellos
  {
    hide ValidRun, GuardedRun, After;
    s, steps, z := FirstConnection();
    steps, z := Extend(s, steps, RequestRenewal(0), z);
    steps, z := Extend(s, steps, ServerRenew(0), z);
    assert (0, 1) in z.grants;
  }

  lemma FirstConnection() returns (s: System, steps: seq<Step>, z: System)
    ensures Init(s) && ValidRun(s, steps) && GuardedRun(s, steps) && z == After(s, steps)
    ensures z == System(Certs(0, None), Certs(0, None), false, Connected, Server(Certs(0, None), 1),
                        map[0 := 0], {0}, map[], {})
  {
    hide ValidRun, GuardedRun, After;
    s := System(Certs(0, None), Certs(0, None), false, Down, Server(Certs(0, None), 1), map[], {}, map[], {});
    NoSteps(s);
    steps, z := Extend(s, [], Boot, s);
    steps, z := Extend(s, steps, Dial(true, 0), z);
    steps, z := Extend(s, steps, ServerHello(0), z);
    steps, z := Extend(s, steps, WelcomeArrives, z);
  }

  lemma NoSteps(s: System)
    ensures ValidRun(s, []) && GuardedRun(s, []) && After(s, []) == s
  {
  }

  /** A guarded run can be continued by any guarded enabled step. */
  lemma {:induction false} Extend(s: System, steps: seq<Step>, st: Step, z: System)
    returns (longer: seq<Step>, y: System)
    requires ValidRun(s, steps) && GuardedRun(s, steps) && z == After(s, steps)
    requires Enabled(z, st) && Guarded(z, st)
    ensures longer == steps + [st] && y == Apply(z, st)
    ensures ValidRun(s, longer) && GuardedRun(s, longer) && After(s, longer) == y
    decreases |steps|
  {
    longer, y := steps + [st], Apply(z, st);
    if steps == [] {
      assert longer[1..] == [];
    } else {
      var rest, _ := Extend(Apply(s, steps[0]), steps[1..], st, z);
      assert longer[1..] == rest && longer[0] == steps[0];
    }
  }

  /** While a certificate is staged, two consecutive failed turns present both certificates: the staged one
      and the active one, in either order; without one, both present the active certificate. */
  lemma FailedAttemptsAlternate(s: System, steps: seq<Step>, c1: nat, m1: seq<Step>, z1: System, m2: seq<Step>, c2: nat)
    requires Init(s) && ValidRun(s, steps) && GuardedRun(s, steps)
    requires FailedAttempt(After(s, steps), c1, m1, z1)
    requires OnlyServer(m2) && ValidRun(z1, m2) && Enabled(After(z1, m2), Dial(true, c2))
    ensures var z := After(s, steps); var y := Apply(After(z1, m2), Dial(true, c2));
      && c1 in y.hellos && c2 in y.hellos
      && ({y.hellos[c1], y.hellos[c2]} ==
          (if z.disk.pending.Some? then {z.disk.active, z.disk.pending.value} else {z.disk.active}))
      && (z.disk.pending.Some? && !z.fallback ==>
            y.hellos[c1] == z.disk.pending.value && y.hellos[c2] == z.disk.active)
  {
    hide After, ValidRun, GuardedRun, Inv, Enabled;
    InitOk(s);
    RunOk(s, steps);
    var z := After(s, steps);
    var d1 := Dialled(z, c1);
    var waited := ServerMeanwhile(d1, m1);
    var ended := Ended(waited);
    assert ended.hellos == waited.hellos;
    var again := ServerMeanwhile(ended, m2);
    NewConnection(again, c2);
    var d2 := Dialled(again, c2);
  }

  lemma NewConnection(s: System, conn: nat)
    requires Enabled(s, Dial(true, conn))
    ensures conn !in s.hellos
    ensures forall c :: c in s.hellos ==>
      c in Apply(s, Dial(true, conn)).hellos && Apply(s, Dial(true, conn)).hellos[c] == s.hellos[c]
  {
  }

  /** A rotation can always be completed: from any reachable state connected under a saved certificate with
      none staged, there is a continuation after which agent disk, agent memory and server agree on another
      certificate, with nothing pending. */
  lemma RotationCompletes(s: System, steps: seq<Step>, req: nat, conn: nat) returns (more: seq<Step>)
    requires Init(s) && ValidRun(s, steps) && GuardedRun(s, steps)
    requires var z := After(s, steps);
      z.phase == Connected && z.mem == z.disk && z.disk.pending.None? && req !in z.renewals && conn !in z.hellos
    ensures ValidRun(After(s, steps), more) && GuardedRun(After(s, steps), more)
    ensures var z := After(s, steps); var y := After(z, more);
      && y.disk == y.mem == y.server.row && y.disk.pending.None? && y.disk.active != z.disk.active
      && y.phase == Streaming(true, true)
  {
    hide After, ValidRun, GuardedRun, Inv;
    InitOk(s);
    RunOk(s, steps);
    var z := After(s, steps);
    var staged;
    more, staged := Staged(z, req);
    more := Promoted(z, more, staged, conn);
  }

  lemma Staged(z: System, req: nat) returns (more: seq<Step>, y: System)
    requires Inv(z) && z.phase == Connected && z.mem == z.disk && z.disk.pending.None? && req !in z.renewals
    ensures ValidRun(z, more) && GuardedRun(z, more) && y == After(z, more)
    ensures y.phase == Starting(false) && !y.fallback && y.disk == y.mem == y.server.row && y.hellos == z.hellos
    ensures y.disk.active == z.disk.active && y.disk.pending.Some? && y.disk.pending.value != z.disk.active
  {
    hide After, ValidRun, GuardedRun;
    NoSteps(z);
    more, y := Extend(z, [], RequestRenewal(req), z);
    more, y := Extend(z, more, ServerRenew(req), y);
    var serial := y.server.row.pending.value;
    more, y := Extend(z, more, GrantArrives(serial), y);
    more, y := Extend(z, more, SaveStaged(true), y);
    more, y := Extend(z, more, StreamEnds, y);
  }

  lemma Promoted(z: System, before: seq<Step>, y: System, conn: nat) returns (more: seq<Step>)
    requires ValidRun(z, before) && GuardedRun(z, before) && y == After(z, before)
    requires y.phase == Starting(false) && !y.fallback && y.disk == y.mem == y.server.row && conn !in y.hellos
    requires y.disk.pending.Some? && y.disk.pending.value != y.disk.active
    ensures ValidRun(z, more) && GuardedRun(z, more)
    ensures var x := After(z, more);
      && x.disk == x.mem == x.server.row == Certs(y.disk.pending.value, None) && x.phase == Streaming(true, true)
  {
    hide After, ValidRun, GuardedRun;
    var x;
    more, x := Extend(z, before, Dial(true, conn), y);
    more, x := Extend(z, more, ServerHello(conn), x);
    more, x := Extend(z, more, WelcomeArrives, x);
    more, x := Extend(z, more, SavePromoted(true), x);
  }
}
