/** Session versions and role edits of the control plane: a counter per user that refresh tokens must
    match, raised in the same transaction as every change of what the user may do. */
module Sessions {
  import opened Actions

  type Membership = (string, string)
  type Grant = (string, nat)

  const ADMINISTRATORS := "01J00000000000000000000001"
  const USERS := "01J00000000000000000000002"
  const LAST_PERMISSION := 46

  /** `users` holds session versions, `roles` role names, `members` and `grants` the two join tables. */
  datatype Tables = Tables(
    users: map<string, int>, roles: map<string, string>, members: set<Membership>, grants: set<Grant>,
    providers: set<string>, links: map<(string, string), string>)

  ghost predicate WellFormed(db: Tables) {
    && (forall m :: m in db.members ==> m.0 in db.users && m.1 in db.roles)
    && (forall g :: g in db.grants ==> g.0 in db.roles)
    && (forall k :: k in db.links ==> db.links[k] in db.users)
  }

  /** What a user may do: the permissions of all roles the user holds. */
  function Effective(db: Tables, user: string): set<nat> {
    set g | g in db.grants && (user, g.0) in db.members :: g.1
  }

  function Holders(db: Tables, role: string): set<string> {
    set u | u in db.users && (u, role) in db.members
  }

  function Bump(users: map<string, int>, who: set<string>): map<string, int> {
    map u | u in users :: if u in who then users[u] + 1 else users[u]
  }

  function MembersWithout(members: set<Membership>, role: string): set<Membership> {
    set m | m in members && m.1 != role
  }

  function GrantsWithout(grants: set<Grant>, role: string): set<Grant> {
    set g | g in grants && g.0 != role
  }

  // ---------------------------------------------------------------- administrative transactions

  datatype Edit =
    | CreateRole(role: string, name: string, permissions: seq<nat>)
    | RenameRole(role: string, name: string)
    | DescribeRole(role: string)
    | GrantPermission(role: string, permission: nat)
    | RevokePermission(role: string, permission: nat)
    | DeleteRole(role: string)
    | AssignRole(user: string, role: string)
    | RevokeRole(user: string, role: string)
    | RevokeSessions(user: string)
    | AddProvider(provider: string)
    | DeleteProvider(provider: string)

  predicate NameTaken(db: Tables, role: string, name: string) {
    exists r :: r in db.roles && r != role && db.roles[r] == name
  }

  predicate Grantable(permission: nat) {
    1 <= permission <= LAST_PERMISSION
  }

  predicate Distinct(s: seq<nat>) {
    forall i, j :: 0 <= i < j < |s| ==> s[i] != s[j]
  }

  function GrantsOf(role: string, permissions: seq<nat>): set<Grant> {
    set p | p in permissions :: (role, p)
  }

  /** Whether the transaction commits. */
  predicate Commits(db: Tables, e: Edit) {
    match e
    case CreateRole(role, name, permissions) =>
      && role !in db.roles && !NameTaken(db, role, name) && Distinct(permissions)
      && forall p :: p in permissions ==> Grantable(p)
    case RenameRole(role, name) => role in db.roles && !NameTaken(db, role, name)
    case DescribeRole(role) => role in db.roles
    case GrantPermission(role, p) => role in db.roles && (role, p) !in db.grants && Grantable(p)
    case RevokePermission(role, p) => role in db.roles && (role, p) in db.grants
    case DeleteRole(role) => role in db.roles
    case AssignRole(user, role) => user in db.users && role in db.roles && (user, role) !in db.members
    case RevokeRole(user, role) => user in db.users && (user, role) in db.members
    case RevokeSessions(user) => user in db.users
    case AddProvider(provider) => provider !in db.providers
    case DeleteProvider(provider) => provider in db.providers && |db.providers| > 1
  }

  /** The tables after a committed transaction. */
  function Edited(db: Tables, e: Edit): Tables
    requires Commits(db, e)
  {
    match e
    case CreateRole(role, name, permissions) =>
      db.(roles := db.roles[role := name], grants := db.grants + GrantsOf(role, permissions))
    case RenameRole(role, name) => db.(roles := db.roles[role := name], users := Bump(db.users, Holders(db, role)))
    case DescribeRole(role) => db.(users := Bump(db.users, Holders(db, role)))
    case GrantPermission(role, p) =>
      db.(grants := db.grants + {(role, p)}, users := Bump(db.users, Holders(db, role)))
    case RevokePermission(role, p) =>
      db.(grants := db.grants - {(role, p)}, users := Bump(db.users, Holders(db, role)))
    case DeleteRole(role) =>
      db.(roles := db.roles - {role}, members := MembersWithout(db.members, role),
          grants := GrantsWithout(db.grants, role), users := Bump(db.users, Holders(db, role)))
    case AssignRole(user, role) =>
      db.(members := db.members + {(user, role)}, users := db.users[user := db.users[user] + 1])
    case RevokeRole(user, role) =>
      db.(members := db.members - {(user, role)}, users := db.users[user := db.users[user] + 1])
    case RevokeSessions(user) => db.(users := db.users[user := db.users[user] + 1])
    case AddProvider(provider) => db.(providers := db.providers + {provider})
    case DeleteProvider(provider) =>
      db.(providers := db.providers - {provider}, links := map k | k in db.links && k.0 != provider :: db.links[k])
  }

  /** The users whose permissions an edit may change: exactly those it gives a new version. */
  function Affected(db: Tables, e: Edit): set<string> {
    match e
    case CreateRole(_, _, _) => {}
    case RenameRole(role, _) => Holders(db, role)
    case DescribeRole(role) => Holders(db, role)
    case GrantPermission(role, _) => Holders(db, role)
    case RevokePermission(role, _) => Holders(db, role)
    case DeleteRole(role) => Holders(db, role)
    case AssignRole(user, _) => {user}
    case RevokeRole(user, _) => {user}
    case RevokeSessions(user) => {user}
    case AddProvider(_) => {}
    case DeleteProvider(_) => {}
  }

  /** An edit raises the version of the affected users by exactly one and leaves every other user's
      version and permissions alone. */
  lemma EditIsTight(db: Tables, e: Edit, user: string)
    requires WellFormed(db) && Commits(db, e) && user in db.users
    ensures user in Edited(db, e).users
    ensures Edited(db, e).users[user] == db.users[user] + (if user in Affected(db, e) then 1 else 0)
    ensures user !in Affected(db, e) ==> Effective(Edited(db, e), user) == Effective(db, user)
  {
    var db' := Edited(db, e);
    if user !in Affected(db, e) {
      match e
      case CreateRole(role, _, permissions) =>
        assert (user, role) !in db.members;
        forall g | g in db'.grants && (user, g.0) in db'.members ensures g in db.grants {}
        assert Effective(db', user) == Effective(db, user);
      case GrantPermission(role, p) =>
        assert (user, role) !in db.members;
        assert Effective(db', user) == Effective(db, user);
      case RevokePermission(role, p) =>
        assert (user, role) !in db.members;
        assert Effective(db', user) == Effective(db, user);
      case DeleteRole(role) =>
        assert (user, role) !in db.members;
        assert Effective(db', user) == Effective(db, user);
      case AssignRole(_, _) => assert Effective(db', user) == Effective(db, user);
      case RevokeRole(_, _) => assert Effective(db', user) == Effective(db, user);
      case _ =>
    }
  }

  /** Whose version an edit raises, by one: every holder's for a change of a role, its name and description
      included, the named user's for a membership or a revocation of sessions, and nobody's otherwise. */
  lemma VersionsRaised(db: Tables, e: Edit, user: string)
    requires WellFormed(db) && Commits(db, e) && user in db.users
    ensures var raised := match e
        case CreateRole(_, _, _) => false
        case AddProvider(_) => false
        case DeleteProvider(_) => false
        case AssignRole(u, _) => u == user
        case RevokeRole(u, _) => u == user
        case RevokeSessions(u) => u == user
        case RenameRole(role, _) => (user, role) in db.members
        case DescribeRole(role) => (user, role) in db.members
        case GrantPermission(role, _) => (user, role) in db.members
        case RevokePermission(role, _) => (user, role) in db.members
        case DeleteRole(role) => (user, role) in db.members;
      Edited(db, e).users[user] == db.users[user] + (if raised then 1 else 0)
  {
  }

  // ---------------------------------------------------------------- what edits do to permissions

  /** A user may do something if one of the user's roles grants it. */
  ghost predicate May(db: Tables, user: string, p: nat) {
    exists r :: (user, r) in db.members && (r, p) in db.grants
  }

  lemma EffectiveIsMay(db: Tables, user: string, p: nat)
    ensures p in Effective(db, user) <==> May(db, user, p)
  {
    if p in Effective(db, user) {
      var g :| g in db.grants && (user, g.0) in db.members && g.1 == p;
      assert (user, g.0) in db.members && (g.0, p) in db.grants;
    }
    if r :| (user, r) in db.members && (r, p) in db.grants {
      assert (r, p).1 == p;
    }
  }

  /** The permissions of every user after a committed edit, permission by permission. */
  lemma EditChangesPermissions(db: Tables, e: Edit, user: string, q: nat)
    requires WellFormed(db) && Commits(db, e) && user in db.users
    ensures var after := q in Effective(Edited(db, e), user); var before := q in Effective(db, user);
      match e
      case GrantPermission(role, p) => after <==> before || ((user, role) in db.members && q == p)
      case RevokePermission(role, p) =>
        after <==> exists r :: (user, r) in db.members && (r, q) in db.grants && !(r == role && q == p)
      case DeleteRole(role) => after <==> exists r :: (user, r) in db.members && (r, q) in db.grants && r != role
      case AssignRole(u, role) => after <==> before || (user == u && (role, q) in db.grants)
      case RevokeRole(u, role) =>
        after <==> exists r :: (user, r) in db.members && (r, q) in db.grants && !(user == u && r == role)
      case _ => after <==> before
  {
    hide Effective;
    var db' := Edited(db, e);
    EffectiveIsMay(db, user, q);
    EffectiveIsMay(db', user, q);
    if r :| (user, r) in db.members && (r, q) in db.grants {
      assert (user, r) in db'.members && (r, q) in db'.grants <==> StaysGranted(e, user, r, q);
    }
  }

  /** The edit leaves this user's way to this permission open. */
  predicate StaysGranted(e: Edit, user: string, r: string, q: nat) {
    match e
    case RevokePermission(role, p) => !(r == role && q == p)
    case DeleteRole(role) => r != role
    case RevokeRole(u, role) => !(user == u && r == role)
    case _ => true
  }

  /** What an edit does to the role it names: a created role has exactly the listed permissions, its name and
      no holders; a granted permission is there and a revoked one is gone; a renamed role has its new name; a
      deleted one has nothing left. */
  lemma EditChangesItsRole(db: Tables, e: Edit)
    requires WellFormed(db) && Commits(db, e)
    ensures var db' := Edited(db, e);
      match e
      case CreateRole(role, name, permissions) =>
        && role in db'.roles && db'.roles[role] == name && (forall u :: (u, role) !in db'.members)
        && (forall q :: (role, q) in db'.grants <==> q in permissions)
      case RenameRole(role, name) => db'.roles == db.roles[role := name]
      case GrantPermission(role, p) => (role, p) in db'.grants
      case RevokePermission(role, p) => (role, p) !in db'.grants
      case DeleteRole(role) =>
        role !in db'.roles && (forall u :: (u, role) !in db'.members) && (forall q :: (role, q) !in db'.grants)
      case AssignRole(user, role) => (user, role) in db'.members
      case RevokeRole(user, role) => (user, role) !in db'.members
      case AddProvider(provider) => provider in db'.providers
      case DeleteProvider(provider) =>
        provider !in db'.providers && (forall k :: k in db'.links <==> k in db.links && k.0 != provider)
      case _ => true
  {
  }

  predicate Names(e: Edit, role: string) {
    match e
    case RevokeSessions(_) => false
    case AddProvider(_) => false
    case DeleteProvider(_) => false
    case _ => e.role == role
  }

  /** No edit touches another role's name, permissions or holders, and apart from the named one no
      membership or permission of the named role changes. */
  lemma EditLeavesOthersAlone(db: Tables, e: Edit, role: string)
    requires Commits(db, e) && !Names(e, role)
    ensures var db' := Edited(db, e);
      && (role in db'.roles <==> role in db.roles) && (role in db.roles ==> db'.roles[role] == db.roles[role])
      && (forall u :: (u, role) in db'.members <==> (u, role) in db.members)
      && (forall q :: (role, q) in db'.grants <==> (role, q) in db.grants)
  {
  }

  /** Of the named role, only what the edit is about changes. */
  lemma EditIsFocused(db: Tables, e: Edit, user: string, q: nat)
    requires || e.RenameRole? || e.DescribeRole? || e.GrantPermission? || e.RevokePermission?
             || e.AssignRole? || e.RevokeRole?
    requires Commits(db, e)
    ensures var db' := Edited(db, e);
      && ((user, e.role) in db'.members <==>
          if e.AssignRole? && user == e.user then true
          else if e.RevokeRole? && user == e.user then false else (user, e.role) in db.members)
      && ((e.role, q) in db'.grants <==>
          if e.GrantPermission? && q == e.permission then true
          else if e.RevokePermission? && q == e.permission then false else (e.role, q) in db.grants)
      && db'.roles.Keys == db.roles.Keys
  {
  }

  lemma EditWellFormed(db: Tables, e: Edit)
    requires WellFormed(db) && Commits(db, e)
    ensures WellFormed(Edited(db, e)) && Edited(db, e).users.Keys == db.users.Keys
  {
  }

  // ---------------------------------------------------------------- logging in

  /** The role a new user starts with: the first user administers, the others are plain users; a role that
      was deleted is not assigned. */
  function InitialMembers(db: Tables, user: string): set<Membership> {
    var role := if |db.users| == 1 then ADMINISTRATORS else USERS;
    if role in db.roles then {(user, role)} else {}
  }

  function NewUser(db: Tables, key: (string, string), newId: string): Tables
    requires newId !in db.users
  {
    var db1 := db.(users := db.users[newId := 1], links := db.links[key := newId]);
    db1.(members := db1.members + InitialMembers(db1, newId))
  }

  /** Signing in through a provider: a known identity gets a new version, an unknown one a new user; a
      provider deleted meanwhile makes the transaction fail. */
  function LinkIdentity(db: Tables, key: (string, string), newId: string): Option<(Tables, string)>
    requires newId !in db.users
    requires forall k :: k in db.links ==> db.links[k] in db.users
  {
    if key in db.links then
      var user := db.links[key];
      Some((db.(users := db.users[user := db.users[user] + 1]), user))
    else if key.0 !in db.providers then None
    else Some((NewUser(db, key, newId), newId))
  }

  lemma LoginIsTight(db: Tables, key: (string, string), newId: string, user: string)
    requires WellFormed(db) && newId !in db.users && user in db.users && LinkIdentity(db, key, newId).Some?
    ensures var (db', who) := LinkIdentity(db, key, newId).value;
      && WellFormed(db') && who in db'.users && user in db'.users
      && db'.users[user] == db.users[user] + (if who == user then 1 else 0)
      && Effective(db', user) == Effective(db, user)
      && db.users.Keys <= db'.users.Keys <= db.users.Keys + {who}
      && (who in db.users || db'.users[who] == 1)
      && (key in db.links ==> who == db.links[key]) && (key !in db.links ==> who == newId)
      && db'.links == db.links[key := who] && db'.roles == db.roles && db'.grants == db.grants
      && (forall m :: m in db'.members && m.0 != newId ==> m in db.members) && db.members <= db'.members
  {
    var (db', who) := LinkIdentity(db, key, newId).value;
    assert Effective(db', user) == Effective(db, user);
  }

  /** Signing in fails exactly for an unknown identity of a provider that is gone. */
  lemma LoginIff(db: Tables, key: (string, string), newId: string)
    requires WellFormed(db) && newId !in db.users
    ensures LinkIdentity(db, key, newId).None? <==> key !in db.links && key.0 !in db.providers
  {
  }

  /** The very first user may do what administrators may, every later one what plain users may; where that
      role was deleted, nothing. */
  lemma NewUserPermissions(db: Tables, key: (string, string), newId: string, p: nat)
    requires WellFormed(db) && newId !in db.users && key !in db.links && key.0 in db.providers
    ensures var role := if db.users == map[] then "01J00000000000000000000001" else "01J00000000000000000000002";
      p in Effective(LinkIdentity(db, key, newId).value.0, newId) <==> role in db.roles && (role, p) in db.grants
  {
    var role := if db.users == map[] then "01J00000000000000000000001" else "01J00000000000000000000002";
    var users := db.users[newId := 1];
    assert |users| == 1 <==> db.users == map[] by {
      assert users.Keys == db.users.Keys + {newId};
      assert |users.Keys| == |db.users.Keys| + 1;
    }
    var db' := LinkIdentity(db, key, newId).value.0;
    assert db' == NewUser(db, key, newId);
    EffectiveIsMay(db', newId, p);
    hide Effective;
    forall r | (newId, r) in db'.members ensures r == role && role in db.roles {}
    if role in db.roles { assert (newId, role) in db'.members; }
  }

  // ---------------------------------------------------------------- the stored tables

  datatype Failure = NotFound | Conflict | Internal

  /** The database file; each method is one transaction, run statement by statement on a private copy
      that is kept only if every statement succeeded. */
  class DirectoryStore {
    var db: Tables

    constructor (initial: Tables)
      ensures db == initial
    {
      db := initial;
    }

    /** The compare-and-swap behind refresh and logout. */
    method RotateUserSession(user: string, version: int) returns (rotated: Option<int>)
      modifies this
      ensures rotated == if user in old(db).users && old(db).users[user] == version then Some(version + 1) else None
      ensures db == if rotated.Some? then old(db).(users := old(db).users[user := version + 1]) else old(db)
    {
      if user in db.users && db.users[user] == version {
        db := db.(users := db.users[user := version + 1]);
        rotated := Some(version + 1);
      } else {
        rotated := None;
      }
    }

    method CreateRole(role: string, name: string, permissions: seq<nat>) returns (ok: bool)
      requires WellFormed(db)
      modifies this
      ensures ok <==> Commits(old(db), Edit.CreateRole(role, name, permissions))
      ensures ok <==>
        && role !in old(db).roles && (forall r :: r in old(db).roles ==> old(db).roles[r] != name)
        && (forall i, j :: 0 <= i < j < |permissions| ==> permissions[i] != permissions[j])
        && (forall i :: 0 <= i < |permissions| ==> 1 <= permissions[i] <= 46)
      ensures db == if ok then Edited(old(db), Edit.CreateRole(role, name, permissions)) else old(db)
    {
      if role in db.roles || NameTaken(db, role, name) { return false; }
      var tx := db.(roles := db.roles[role := name]);
      var i := 0;
      while i < |permissions|
        invariant 0 <= i <= |permissions|
        invariant Distinct(permissions[..i]) && forall p :: p in permissions[..i] ==> Grantable(p)
        invariant tx == db.(roles := db.roles[role := name], grants := db.grants + GrantsOf(role, permissions[..i]))
      {
        var p := permissions[i];
        if (role, p) in tx.grants {
          assert p in permissions[..i];
          return false;
        }
        if !Grantable(p) { return false; }
        tx := tx.(grants := tx.grants + {(role, p)});
        assert permissions[..i + 1] == permissions[..i] + [p];
        assert GrantsOf(role, permissions[..i + 1]) == GrantsOf(role, permissions[..i]) + {(role, p)};
        i := i + 1;
      }
      assert permissions[..i] == permissions;
      forall k | 0 <= k < |permissions| ensures Grantable(permissions[k]) { assert permissions[k] in permissions; }
      db := tx;
      return true;
    }

    /** The shared shape of the role mutations: change the role, raise the holders' versions. */
    method RoleMutation(e: Edit) returns (r: Option<Failure>)
      requires e.RenameRole? || e.DescribeRole? || e.GrantPermission? || e.RevokePermission?
      modifies this
      ensures r.None? <==> Commits(old(db), e)
      ensures db == if r.None? then Edited(old(db), e) else old(db)
      ensures r == Some(NotFound) <==>
        e.role !in old(db).roles || (e.RevokePermission? && (e.role, e.permission) !in old(db).grants)
      ensures r == Some(Internal) <==>
        e.role in old(db).roles && e.GrantPermission? && !(1 <= e.permission <= 46)
      ensures r == Some(Conflict) <==>
        && e.role in old(db).roles
        && (|| (e.GrantPermission? && 1 <= e.permission <= 46 && (e.role, e.permission) in old(db).grants)
            || (e.RenameRole? && exists x :: x in old(db).roles && x != e.role && old(db).roles[x] == e.name))
    {
      if e.role !in db.roles { return Some(NotFound); }
      var tx := db;
      match e {
        case RenameRole(role, name) =>
          if NameTaken(tx, role, name) { return Some(Conflict); }
          tx := tx.(roles := tx.roles[role := name]);
        case DescribeRole(_) =>
        case GrantPermission(role, p) =>
          if !Grantable(p) { return Some(Internal); }
          if (role, p) in tx.grants { return Some(Conflict); }
          tx := tx.(grants := tx.grants + {(role, p)});
        case RevokePermission(role, p) =>
          if (role, p) !in tx.grants { return Some(NotFound); }
          tx := tx.(grants := tx.grants - {(role, p)});
      }
      tx := tx.(users := Bump(tx.users, Holders(tx, e.role)));
      db := tx;
      return None;
    }

    /** The holders must be found before the cascade removes their memberships. */
    method DeleteRole(role: string) returns (ok: bool)
      modifies this
      ensures ok <==> Commits(old(db), Edit.DeleteRole(role))
      ensures ok <==> role in old(db).roles
      ensures db == if ok then Edited(old(db), Edit.DeleteRole(role)) else old(db)
    {
      var tx := db.(users := Bump(db.users, Holders(db, role)));
      if role !in tx.roles { return false; }
      tx := tx.(roles := tx.roles - {role}, members := MembersWithout(tx.members, role),
                grants := GrantsWithout(tx.grants, role));
      db := tx;
      return true;
    }

    /** Signing in: the update of a known identity is tried first, and only its absence creates a user. */
    method LinkIdentityTransaction(key: (string, string), newId: string) returns (user: Option<string>)
      requires WellFormed(db) && newId !in db.users
      modifies this
      ensures user.Some? <==> LinkIdentity(old(db), key, newId).Some?
      ensures user.Some? ==> LinkIdentity(old(db), key, newId).value == (db, user.value)
      ensures user.None? ==> db == old(db)
    {
      hide InitialMembers;
      var tx := db;
      if key in tx.links {
        var known := tx.links[key];
        tx := tx.(users := tx.users[known := tx.users[known] + 1]);
        db := tx;
        return Some(known);
      }
      tx := tx.(users := tx.users[newId := 1]);
      if key.0 !in tx.providers { return None; }
      tx := tx.(links := tx.links[key := newId]);
      tx := tx.(members := tx.members + InitialMembers(tx, newId));
      db := tx;
      return Some(newId);
    }

    method AssignRoleToUser(user: string, role: string) returns (r: Option<Failure>)
      modifies this
      ensures r.None? <==> Commits(old(db), AssignRole(user, role))
      ensures db == if r.None? then Edited(old(db), AssignRole(user, role)) else old(db)
      ensures r == Some(NotFound) <==> user !in old(db).users || role !in old(db).roles
      ensures r == Some(Conflict) <==>
        user in old(db).users && role in old(db).roles && (user, role) in old(db).members
    {
      if user !in db.users || role !in db.roles { return Some(NotFound); }
      if (user, role) in db.members { return Some(Conflict); }
      var tx := db.(members := db.members + {(user, role)});
      tx := tx.(users := tx.users[user := tx.users[user] + 1]);
      db := tx;
      return None;
    }

    method RevokeRoleFromUser(user: string, role: string) returns (ok: bool)
      modifies this
      ensures ok <==> Commits(old(db), RevokeRole(user, role))
      ensures ok <==> user in old(db).users && (user, role) in old(db).members
      ensures db == if ok then Edited(old(db), RevokeRole(user, role)) else old(db)
    {
      if (user, role) !in db.members { return false; }
      var tx := db.(members := db.members - {(user, role)});
      if user !in tx.users { return false; }
      tx := tx.(users := tx.users[user := tx.users[user] + 1]);
      db := tx;
      return true;
    }
  }

  // ---------------------------------------------------------------- the system

  /** Tokens as signed: nobody can make one that was not issued. Permissions are in the access token only,
      which is presented with every call and never compared with the version; the refresh token carries
      none, and is the one that is redeemed. */
  datatype AccessToken = AccessToken(user: string, version: int, permissions: set<nat>)
  datatype RefreshToken = RefreshToken(user: string, version: int)
  datatype Pair = Pair(access: AccessToken, refresh: RefreshToken)

  function GenerateTokens(user: string, version: int, permissions: set<nat>): Pair {
    Pair(AccessToken(user, version, permissions), RefreshToken(user, version))
  }

  ghost predicate Issued(issued: set<Pair>, t: RefreshToken) {
    exists p :: p in issued && p.refresh == t
  }

  /** A request that rotated the session but has not yet answered: permissions are read in a later
      statement than the rotation, and the token signed later still. */
  datatype Request = Rotated(user: string, version: int) | Loaded(user: string, version: int, permissions: set<nat>)

  datatype System = System(
    db: Tables, requests: map<nat, Request>, issued: set<Pair>, redeemed: seq<(string, int)>)

  datatype Step =
    | Refresh(request: nat, token: RefreshToken)
    | Logout(token: RefreshToken)
    | Login(request: nat, key: (string, string), newId: string)
    | ReadPermissions(request: nat)
    | Issue(request: nat)
    | Abandon(request: nat)
    | Administer(edit: Edit)

  predicate Redeemable(db: Tables, t: RefreshToken) {
    t.user in db.users && db.users[t.user] == t.version
  }

  function Rotate(db: Tables, user: string): Tables
    requires user in db.users
  {
    db.(users := db.users[user := db.users[user] + 1])
  }

  ghost predicate Enabled(s: System, st: Step) {
    match st
    case Refresh(n, t) => n !in s.requests && Issued(s.issued, t) && Redeemable(s.db, t)
    case Logout(t) => Issued(s.issued, t) && Redeemable(s.db, t)
    case Login(n, key, newId) =>
      && n !in s.requests && newId !in s.db.users && (forall k :: k in s.db.links ==> s.db.links[k] in s.db.users)
      && LinkIdentity(s.db, key, newId).Some?
    case ReadPermissions(n) => n in s.requests && s.requests[n].Rotated?
    case Issue(n) => n in s.requests && s.requests[n].Loaded?
    case Abandon(n) => n in s.requests
    case Administer(e) => Commits(s.db, e)
  }

  ghost function Apply(s: System, st: Step): System
    requires Enabled(s, st)
  {
    match st
    case Refresh(n, t) =>
      System(Rotate(s.db, t.user), s.requests[n := Rotated(t.user, t.version + 1)], s.issued,
             s.redeemed + [(t.user, t.version)])
    case Logout(t) => s.(db := Rotate(s.db, t.user), redeemed := s.redeemed + [(t.user, t.version)])
    case Login(n, key, newId) =>
      var (db', user) := LinkIdentity(s.db, key, newId).value;
      s.(db := db', requests := s.requests[n := Rotated(user, if user in db'.users then db'.users[user] else 0)])
    case ReadPermissions(n) =>
      var r := s.requests[n];
      s.(requests := s.requests[n := Loaded(r.user, r.version, Effective(s.db, r.user))])
    case Issue(n) =>
      var r := s.requests[n];
      s.(requests := s.requests - {n}, issued := s.issued + {GenerateTokens(r.user, r.version, r.permissions)})
    case Abandon(n) => s.(requests := s.requests - {n})
    case Administer(e) => s.(db := Edited(s.db, e))
  }

  // ---------------------------------------------------------------- invariant

  /** A session never runs ahead of its user's version, and while it is current its permissions are too. */
  ghost predicate Honest(db: Tables, user: string, version: int, permissions: set<nat>) {
    && user in db.users && version <= db.users[user]
    && (version == db.users[user] ==> permissions == Effective(db, user))
  }

  ghost predicate PairOk(db: Tables, p: Pair) {
    p == GenerateTokens(p.access.user, p.access.version, p.access.permissions)
    && Honest(db, p.access.user, p.access.version, p.access.permissions)
  }

  ghost predicate RequestOk(db: Tables, r: Request) {
    match r
    case Rotated(user, version) => user in db.users && version <= db.users[user]
    case Loaded(user, version, permissions) => Honest(db, user, version, permissions)
  }

  function Serial(r: Request): (string, int) {
    (r.user, r.version)
  }

  ghost predicate Inv(s: System) {
    && WellFormed(s.db) && TokensOk(s.db, s.issued) && RequestsOk(s.db, s.requests) && RedeemedOk(s.db, s.redeemed)
    && OneOfEach(s.requests, s.issued)
  }

  ghost predicate TokensOk(db: Tables, issued: set<Pair>) {
    forall p :: p in issued ==> PairOk(db, p)
  }

  ghost predicate RequestsOk(db: Tables, requests: map<nat, Request>) {
    forall n :: n in requests ==> RequestOk(db, requests[n])
  }

  /** No two sessions share a version: neither two requests, nor a request and a token, nor two tokens. */
  ghost predicate OneOfEach(requests: map<nat, Request>, issued: set<Pair>) {
    && (forall m, n :: m in requests && n in requests && m != n ==> Serial(requests[m]) != Serial(requests[n]))
    && (forall n, p :: n in requests && p in issued ==> Serial(requests[n]) != (p.refresh.user, p.refresh.version))
    && (forall p, q :: p in issued && q in issued && p.refresh == q.refresh ==> p == q)
  }

  /** Every version redeemed lies below the current one, and they are pairwise different. */
  ghost predicate RedeemedOk(db: Tables, redeemed: seq<(string, int)>) {
    && (forall i :: 0 <= i < |redeemed| ==> Spent(db, redeemed[i]))
    && (forall i, j :: 0 <= i < j < |redeemed| ==> redeemed[i] != redeemed[j])
  }

  ghost predicate Spent(db: Tables, x: (string, int)) {
    x.0 in db.users && x.1 < db.users[x.0]
  }

  ghost predicate Init(s: System) {
    WellFormed(s.db) && s.requests == map[] && s.issued == {} && s.redeemed == []
  }

  /** What every step does to the users there are: versions never fall, and whoever keeps the same version
      keeps the same permissions. */
  ghost predicate Evolves(db: Tables, db': Tables) {
    forall u :: u in db.users ==>
      && u in db'.users && db.users[u] <= db'.users[u]
      && (db.users[u] == db'.users[u] ==> Effective(db, u) == Effective(db', u))
  }

  lemma RotateEvolves(db: Tables, user: string)
    requires user in db.users && WellFormed(db)
    ensures Evolves(db, Rotate(db, user)) && WellFormed(Rotate(db, user))
  {
  }

  lemma StepEvolves(s: System, st: Step)
    requires WellFormed(s.db) && Enabled(s, st)
    ensures WellFormed(Apply(s, st).db) && Evolves(s.db, Apply(s, st).db)
  {
    hide Effective, WellFormed, Edited, Commits, LinkIdentity, Affected;
    match st {
      case Refresh(_, t) => RotateEvolves(s.db, t.user);
      case Logout(t) => RotateEvolves(s.db, t.user);
      case Login(_, key, newId) =>
        LoginStarts(s.db, key, newId);
        forall u | u in s.db.users ensures Keeps(s.db, Apply(s, st).db, u) { LoginIsTight(s.db, key, newId, u); }
        EvolvesByUser(s.db, Apply(s, st).db);
      case Administer(e) =>
        EditWellFormed(s.db, e);
        forall u | u in s.db.users ensures Keeps(s.db, Apply(s, st).db, u) { EditIsTight(s.db, e, u); }
        EvolvesByUser(s.db, Apply(s, st).db);
      case _ =>
    }
  }

  lemma LoginStarts(db: Tables, key: (string, string), newId: string)
    requires WellFormed(db) && newId !in db.users && LinkIdentity(db, key, newId).Some?
    ensures var (db', who) := LinkIdentity(db, key, newId).value; WellFormed(db') && who in db'.users
  {
  }

  ghost predicate Keeps(db: Tables, db': Tables, u: string)
    requires u in db.users
  {
    && u in db'.users && db.users[u] <= db'.users[u]
    && (db.users[u] == db'.users[u] ==> Effective(db, u) == Effective(db', u))
  }

  lemma EvolvesByUser(db: Tables, db': Tables)
    requires forall u :: u in db.users ==> Keeps(db, db', u)
    ensures Evolves(db, db')
  {
  }

  // ---------------------------------------------------------------- every step keeps the invariant

  lemma CarryOver(db: Tables, db': Tables, issued: set<Pair>, requests: map<nat, Request>, redeemed: seq<(string, int)>)
    requires Evolves(db, db') && TokensOk(db, issued) && RequestsOk(db, requests) && RedeemedOk(db, redeemed)
    ensures TokensOk(db', issued) && RequestsOk(db', requests) && RedeemedOk(db', redeemed)
  {
    hide Effective;
  }

  lemma RedeemOne(db: Tables, redeemed: seq<(string, int)>, user: string)
    requires WellFormed(db) && RedeemedOk(db, redeemed) && user in db.users
    ensures RedeemedOk(Rotate(db, user), redeemed + [(user, db.users[user])])
  {
    RotateEvolves(db, user);
    CarryOver(db, Rotate(db, user), {}, map[], redeemed);
    forall i | 0 <= i < |redeemed| ensures redeemed[i] != (user, db.users[user]) {
      assert Spent(db, redeemed[i]);
    }
  }

  /** A version nobody had before stays unique. */
  lemma StartUnique(db: Tables, requests: map<nat, Request>, issued: set<Pair>, n: nat, user: string, version: int)
    requires TokensOk(db, issued) && RequestsOk(db, requests) && OneOfEach(requests, issued) && n !in requests
    requires user in db.users ==> db.users[user] < version
    ensures OneOfEach(requests[n := Rotated(user, version)], issued)
  {
    hide Effective;
    forall m | m in requests ensures Serial(requests[m]) != (user, version) {
      assert RequestOk(db, requests[m]);
    }
  }

  lemma StepUnique(s: System, st: Step)
    requires Inv(s) && Enabled(s, st)
    ensures OneOfEach(Apply(s, st).requests, Apply(s, st).issued)
  {
    hide Effective, WellFormed, Edited, Commits, RedeemedOk, TokensOk, RequestsOk, LinkIdentity;
    match st {
      case Refresh(n, t) => StartUnique(s.db, s.requests, s.issued, n, t.user, t.version + 1);
      case Login(n, key, newId) =>
        LoginRaises(s.db, key, newId);
        var (db', user) := LinkIdentity(s.db, key, newId).value;
        StartUnique(s.db, s.requests, s.issued, n, user, db'.users[user]);
      case _ =>
    }
  }

  lemma LoginRaises(db: Tables, key: (string, string), newId: string)
    requires WellFormed(db) && newId !in db.users && LinkIdentity(db, key, newId).Some?
    ensures var (db', who) := LinkIdentity(db, key, newId).value;
      who in db'.users && (who in db.users ==> db.users[who] < db'.users[who])
  {
  }

  lemma StepOk(s: System, st: Step)
    requires Inv(s) && Enabled(s, st)
    ensures Inv(Apply(s, st))
  {
    hide Effective, WellFormed, Edited, Commits, Evolves, RedeemedOk, Rotate, OneOfEach;
    StepEvolves(s, st);
    StepUnique(s, st);
    CarryOver(s.db, Apply(s, st).db, s.issued, s.requests, s.redeemed);
    match st {
      case Refresh(_, t) => RedeemOne(s.db, s.redeemed, t.user); RotateRaises(s.db, t.user);
      case Logout(t) => RedeemOne(s.db, s.redeemed, t.user);
      case Login(_, key, newId) => LoginStarts(s.db, key, newId);
      case _ =>
    }
  }

  lemma RotateRaises(db: Tables, user: string)
    requires user in db.users
    ensures user in Rotate(db, user).users && Rotate(db, user).users[user] == db.users[user] + 1
  {
  }

  // ---------------------------------------------------------------- whole runs

  ghost predicate ValidRun(s: System, steps: seq<Step>)
    decreases |steps|
  {
    steps == [] || (Enabled(s, steps[0]) && ValidRun(Apply(s, steps[0]), steps[1..]))
  }

  ghost function After(s: System, steps: seq<Step>): System
    requires ValidRun(s, steps)
    decreases |steps|
  {
    if steps == [] then s else After(Apply(s, steps[0]), steps[1..])
  }

  lemma {:induction false} RunOk(s: System, steps: seq<Step>)
    requires Inv(s) && ValidRun(s, steps)
    ensures Inv(After(s, steps))
    decreases |steps|
  {
    hide Inv, Enabled, Apply;
    if steps != [] {
      StepOk(s, steps[0]);
      RunOk(Apply(s, steps[0]), steps[1..]);
    }
  }

  lemma InitOk(s: System)
    requires Init(s)
    ensures Inv(s)
  {
  }

  lemma EvolvesTransitive(a: Tables, b: Tables, c: Tables)
    requires Evolves(a, b) && Evolves(b, c)
    ensures Evolves(a, c)
  {
    hide Effective;
  }

  /** Over every run, versions only increase, and a user whose permissions differ at its two ends has a
      higher version at the end. */
  lemma {:induction false} VersionsTrackPermissions(s: System, steps: seq<Step>)
    requires WellFormed(s.db) && ValidRun(s, steps)
    ensures WellFormed(After(s, steps).db) && Evolves(s.db, After(s, steps).db)
    decreases |steps|
  {
    hide WellFormed, Enabled, Apply, Evolves;
    if steps == [] {
      EvolvesSame(s.db);
    } else {
      var t := Apply(s, steps[0]);
      StepEvolves(s, steps[0]);
      VersionsTrackPermissions(t, steps[1..]);
      EvolvesTransitive(s.db, t.db, After(t, steps[1..]).db);
    }
  }

  lemma EvolvesSame(db: Tables)
    ensures Evolves(db, db)
  {
  }

  /** No version of a user's session is redeemed twice, by refresh or by logout, a redeemed one is never
      redeemable again, and at most one pair of tokens is ever issued for a version. */
  lemma RedeemedAtMostOnce(s: System, steps: seq<Step>)
    requires Init(s) && ValidRun(s, steps)
    ensures var z := After(s, steps);
      && (forall i, j :: 0 <= i < j < |z.redeemed| ==> z.redeemed[i] != z.redeemed[j])
      && (forall t :: Issued(z.issued, t) && (t.user, t.version) in z.redeemed ==> !Redeemable(z.db, t))
      && (forall p, q :: p in z.issued && q in z.issued && p.refresh == q.refresh ==> p == q)
  {
    hide ValidRun, After, Enabled, Apply;
    InitOk(s);
    RunOk(s, steps);
    var z := After(s, steps);
    forall t | Issued(z.issued, t) && (t.user, t.version) in z.redeemed ensures !Redeemable(z.db, t) {
      var i :| 0 <= i < |z.redeemed| && z.redeemed[i] == (t.user, t.version);
      assert Spent(z.db, z.redeemed[i]);
    }
  }

  /** While the refresh token of a pair can still be redeemed, the access token issued with it carries
      exactly the permissions its user has now, although they were read in a separate statement after the
      rotation. Access tokens of older pairs keep what they say until they expire. */
  lemma CurrentTokensTellTheTruth(s: System, steps: seq<Step>, p: Pair)
    requires Init(s) && ValidRun(s, steps)
    requires p in After(s, steps).issued && Redeemable(After(s, steps).db, p.refresh)
    ensures p.access.user == p.refresh.user
    ensures p.access.permissions == Effective(After(s, steps).db, p.access.user)
  {
    hide ValidRun, After, Enabled, Apply;
    InitOk(s);
    RunOk(s, steps);
    assert PairOk(After(s, steps).db, p);
  }

  /** A refresh token issued before a change of its user's permissions is dead after it, and stays so. */
  lemma ChangeKillsOldTokens(s: System, before: seq<Step>, during: seq<Step>, later: seq<Step>, t: RefreshToken)
    requires Init(s) && ValidRun(s, before)
    requires ValidRun(After(s, before), during)
    requires ValidRun(After(After(s, before), during), later)
    requires Issued(After(s, before).issued, t)
    requires Effective(After(s, before).db, t.user) != Effective(After(After(s, before), during).db, t.user)
    ensures !Redeemable(After(After(After(s, before), during), later).db, t)
  {
    hide ValidRun, After, Enabled, Apply, Effective;
    InitOk(s);
    RunOk(s, before);
    var a := After(s, before);
    var b := After(a, during);
    VersionsTrackPermissions(a, during);
    VersionsTrackPermissions(b, later);
    var p :| p in a.issued && p.refresh == t;
    assert PairOk(a.db, p);
    assert a.db.users[t.user] < b.db.users[t.user];
  }

  /** A token of the current version can be redeemed: the refresh raises the version by one and leads to a
      pair with the next version and the permissions its user then has; a token of another version cannot. */
  lemma CurrentTokenRefreshes(s: System, steps: seq<Step>, p: Pair, n: nat)
    requires Init(s) && ValidRun(s, steps) && p in After(s, steps).issued && n !in After(s, steps).requests
    ensures var z := After(s, steps); var t := p.refresh;
      && t.user in z.db.users
      && (Enabled(z, Refresh(n, t)) <==> z.db.users[t.user] == t.version)
      && (Enabled(z, Logout(t)) <==> z.db.users[t.user] == t.version)
      && (z.db.users[t.user] == t.version ==>
            var z1 := Apply(z, Refresh(n, t));
            && z1.db.users == z.db.users[t.user := t.version + 1]
            && Enabled(z1, ReadPermissions(n))
            && var z2 := Apply(z1, ReadPermissions(n));
               && Enabled(z2, Issue(n))
               && var next := RefreshToken(t.user, t.version + 1);
                  Apply(z2, Issue(n)).issued ==
                  z.issued + {Pair(AccessToken(next.user, next.version, Effective(z.db, t.user)), next)})
  {
    hide ValidRun, After;
    InitOk(s);
    RunOk(s, steps);
    RefreshState(After(s, steps), p, n);
  }

  lemma RefreshState(z: System, p: Pair, n: nat)
    requires Inv(z) && p in z.issued && n !in z.requests
    ensures var t := p.refresh;
      && t.user in z.db.users
      && (Enabled(z, Refresh(n, t)) <==> z.db.users[t.user] == t.version)
      && (Enabled(z, Logout(t)) <==> z.db.users[t.user] == t.version)
      && (z.db.users[t.user] == t.version ==>
            var z1 := Apply(z, Refresh(n, t));
            && z1.db.users == z.db.users[t.user := t.version + 1]
            && Enabled(z1, ReadPermissions(n))
            && var z2 := Apply(z1, ReadPermissions(n));
               && Enabled(z2, Issue(n))
               && var next := RefreshToken(t.user, t.version + 1);
                  Apply(z2, Issue(n)).issued ==
                  z.issued + {Pair(AccessToken(next.user, next.version, Effective(z.db, t.user)), next)})
  {
    hide WellFormed, RequestsOk, RedeemedOk, OneOfEach;
    assert PairOk(z.db, p);
    assert Issued(z.issued, p.refresh);
    RotateKeepsPermissions(z.db, p.refresh.user);
    hide Effective;
  }

  lemma RotateKeepsPermissions(db: Tables, user: string)
    requires user in db.users
    ensures Effective(Rotate(db, user), user) == Effective(db, user)
  {
  }
}
