/** Replacing a file by writing a temporary beside it and renaming, with an optional backup. Every
    intermediate disk state is recorded, together with everything a crash there could leave behind. */
module Replace {
  import opened Actions

  datatype Node = Regular(content: string, mode: nat) | Other(directory: bool)

  /** `entries` and `nodes` are what running programs see. `past` holds entries that were overwritten but
      may still be the ones on the medium, `synced` the nodes whose whole present state is on it. No order
      between directory updates is assumed. */
  datatype Disk = Disk(
    entries: map<string, nat>, nodes: map<nat, Node>, past: set<(string, Option<nat>)>, synced: map<nat, Node>)

  function Lookup(d: Disk, path: string): Option<nat> {
    if path in d.entries then Some(d.entries[path]) else None
  }

  function Content(d: Disk, path: string): Option<Node> {
    if path in d.entries && d.entries[path] in d.nodes then Some(d.nodes[d.entries[path]]) else None
  }

  /** After a crash a name may lead where it leads now or where it led before. */
  ghost predicate MayBeOnDisk(d: Disk, path: string, v: Option<nat>) {
    v == Lookup(d, path) || (path, v) in d.past
  }

  /** The node is on the medium in full, as `what`. */
  ghost predicate Leads(d: Disk, v: Option<nat>, what: Option<Node>) {
    match v
    case None => what == None
    case Some(n) => n in d.synced && what == Some(d.synced[n])
  }

  /** Whatever a crash leaves, the name holds the whole of one of the two. */
  ghost predicate Atomic(d: Disk, path: string, before: Option<Node>, after: Node) {
    forall v :: MayBeOnDisk(d, path, v) ==> Leads(d, v, before) || Leads(d, v, Some(after))
  }

  ghost predicate AllAtomic(disks: seq<Disk>, path: string, before: Option<Node>, after: Node) {
    forall i :: 0 <= i < |disks| ==> Atomic(disks[i], path, before, after)
  }

  /** The name has only one possible value on the medium, and its node is there in full. */
  ghost predicate Settled(d: Disk, path: string) {
    && (forall v :: MayBeOnDisk(d, path, v) ==> v == Lookup(d, path))
    && Leads(d, Lookup(d, path), Content(d, path))
  }

  ghost predicate Valid(d: Disk) {
    && (forall p :: p in d.entries ==> d.entries[p] in d.nodes)
    && (forall n :: n in d.synced ==> n in d.nodes)
    && (forall x :: x in d.past && x.1.Some? ==> x.1.value in d.nodes)
  }

  // ---------------------------------------------------------------- system calls, as they change the disk

  function Created(d: Disk, path: string, n: nat): Disk {
    d.(entries := d.entries[path := n], nodes := d.nodes[n := Regular("", 384)],
       past := d.past + {(path, Lookup(d, path))})
  }

  function Changed(d: Disk, n: nat, node: Node): Disk {
    d.(nodes := d.nodes[n := node], synced := d.synced - {n})
  }

  function Synced(d: Disk, n: nat): Disk
    requires n in d.nodes
  {
    d.(synced := d.synced[n := d.nodes[n]])
  }

  function Unlinked(d: Disk, path: string): Disk {
    d.(entries := d.entries - {path}, past := d.past + {(path, Lookup(d, path))})
  }

  function Renamed(d: Disk, from: string, to: string): Disk
    requires from in d.entries
  {
    d.(entries := (d.entries - {from})[to := d.entries[from]],
       past := d.past + {(from, Lookup(d, from)), (to, Lookup(d, to))})
  }

  /** The directory part of a path. */
  function Dir(path: string): string {
    if path == "" || path[|path| - 1] == '/' then path else Dir(path[..|path| - 1])
  }

  /** A synced directory has on the medium exactly the entries running programs see. */
  function DirSynced(d: Disk, dir: string): Disk {
    d.(past := set x | x in d.past && Dir(x.0) != dir)
  }

  /** While the temporary is prepared, everything the program started from is untouched. */
  ghost predicate Preparing(d0: Disk, d: Disk, tmp: string, n: nat) {
    && tmp !in d0.entries && n !in d0.nodes
    && d.entries == d0.entries[tmp := n]
    && d.nodes.Keys == d0.nodes.Keys + {n} && (forall m :: m in d0.nodes ==> d.nodes[m] == d0.nodes[m])
    && (forall m :: m in d0.synced ==> m in d.synced && d.synced[m] == d0.synced[m])
    && d0.past <= d.past && (forall p, v :: p != tmp && (p, v) in d.past ==> (p, v) in d0.past)
    && Valid(d)
  }

  lemma CreatePrepares(d: Disk, tmp: string, n: nat)
    requires Valid(d) && tmp !in d.entries && n !in d.nodes
    ensures Preparing(d, Created(d, tmp, n), tmp, n)
  {
  }

  lemma ChangePrepares(d0: Disk, d: Disk, tmp: string, n: nat, node: Node)
    requires Valid(d0) && Preparing(d0, d, tmp, n)
    ensures Preparing(d0, Changed(d, n, node), tmp, n)
  {
  }

  lemma SyncPrepares(d0: Disk, d: Disk, tmp: string, n: nat)
    requires Valid(d0) && Preparing(d0, d, tmp, n)
    ensures Preparing(d0, Synced(d, n), tmp, n)
  {
  }

  lemma PreparingIsAtomic(d0: Disk, d: Disk, tmp: string, n: nat, path: string, after: Node)
    requires Valid(d0) && Settled(d0, path) && path != tmp && Preparing(d0, d, tmp, n)
    ensures Atomic(d, path, Content(d0, path), after)
  {
    forall v | MayBeOnDisk(d, path, v) ensures Leads(d, v, Content(d0, path)) {
      assert MayBeOnDisk(d0, path, v);
    }
  }

  /** What a cleaned-up failure leaves: the same names for the same nodes. */
  ghost predicate Untouched(d0: Disk, d: Disk) {
    && d.entries == d0.entries && (forall m :: m in d0.nodes ==> m in d.nodes && d.nodes[m] == d0.nodes[m])
    && Valid(d)
  }

  lemma CleanupRestores(d0: Disk, d: Disk, tmp: string, n: nat, path: string, after: Node)
    requires Valid(d0) && Settled(d0, path) && path != tmp && Preparing(d0, d, tmp, n)
    ensures Untouched(d0, Unlinked(d, tmp)) && Atomic(Unlinked(d, tmp), path, Content(d0, path), after)
  {
    var e := Unlinked(d, tmp);
    assert e.entries == d0.entries;
    forall v | MayBeOnDisk(e, path, v) ensures Leads(e, v, Content(d0, path)) {
      assert MayBeOnDisk(d0, path, v);
    }
  }

  /** The end of a successful replacement. */
  ghost predicate Replaced(d0: Disk, d: Disk, path: string, after: Node) {
    && path in d.entries && d.entries.Keys == d0.entries.Keys + {path}
    && (forall p :: p in d0.entries && p != path ==> d.entries[p] == d0.entries[p])
    && (forall m :: m in d0.nodes ==> m in d.nodes && d.nodes[m] == d0.nodes[m])
    && (forall m :: m in d0.synced ==> m in d.synced && d.synced[m] == d0.synced[m])
    && (forall p, v :: p in d0.entries && p != path && (p, v) in d.past ==> (p, v) in d0.past)
    && Content(d, path) == Some(after) && Leads(d, Lookup(d, path), Some(after))
    && Valid(d)
  }

  /** A state in which the new file is in place and nothing that might have been on the medium at the start
      has been ruled out, the old entry included. */
  ghost predicate Unflushed(d0: Disk, d: Disk, path: string, after: Node) {
    && Content(d, path) == Some(after) && Leads(d, Lookup(d, path), Some(after))
    && d0.past + {(path, Lookup(d0, path))} <= d.past
  }

  lemma RenameReplaces(d0: Disk, d: Disk, tmp: string, n: nat, path: string, after: Node)
    requires Valid(d0) && Settled(d0, path) && path != tmp && Preparing(d0, d, tmp, n)
    requires d.nodes[n] == after && n in d.synced && d.synced[n] == after
    ensures Replaced(d0, Renamed(d, tmp, path), path, after) && Unflushed(d0, Renamed(d, tmp, path), path, after)
    ensures Atomic(Renamed(d, tmp, path), path, Content(d0, path), after)
  {
    var e := Renamed(d, tmp, path);
    forall v | MayBeOnDisk(e, path, v) ensures Leads(e, v, Content(d0, path)) || Leads(e, v, Some(after)) {
      if v != Some(n) { assert MayBeOnDisk(d0, path, v); }
    }
  }

  /** Every other name that was there still leads to the same file, and is as settled as before. */
  ghost predicate Still(d0: Disk, d: Disk, path: string) {
    forall q :: q in d0.entries && q != path ==> Content(d, q) == Content(d0, q) && (Settled(d0, q) ==> Settled(d, q))
  }

  /** A state of the replacement of `path` started from `d0`. */
  ghost predicate Good(d0: Disk, d: Disk, path: string, after: Node) {
    Atomic(d, path, Content(d0, path), after) && Still(d0, d, path)
  }

  ghost predicate AllGood(disks: seq<Disk>, d0: Disk, path: string, after: Node) {
    forall i :: 0 <= i < |disks| ==> Good(d0, disks[i], path, after)
  }

  lemma OneMoreGood(start: nat, trace: seq<Disk>, d0: Disk, d: Disk, path: string, after: Node)
    requires start <= |trace| && AllGood(trace[start..], d0, path, after) && Good(d0, d, path, after)
    ensures AllGood((trace + [d])[start..], d0, path, after)
  {
    assert (trace + [d])[start..] == trace[start..] + [d];
  }

  lemma NothingYet(d0: Disk, trace: seq<Disk>, path: string, after: Node)
    requires Valid(d0)
    ensures AllGood(trace[|trace|..], d0, path, after) && Untouched(d0, d0)
  {
  }

  /** So until the rename a crash leaves the old file, and every other file. */
  lemma PreparingIsGood(d0: Disk, d: Disk, tmp: string, n: nat, path: string, after: Node)
    requires Valid(d0) && Settled(d0, path) && path != tmp && Preparing(d0, d, tmp, n)
    ensures Good(d0, d, path, after)
  {
    hide Preparing, Settled, Atomic, Still, Valid;
    PreparingIsAtomic(d0, d, tmp, n, path, after);
    PreparingIsStill(d0, d, tmp, n, path);
  }

  lemma CleanupIsGood(d0: Disk, d: Disk, tmp: string, n: nat, path: string, after: Node)
    requires Valid(d0) && Settled(d0, path) && path != tmp && Preparing(d0, d, tmp, n)
    ensures Good(d0, Unlinked(d, tmp), path, after) && Untouched(d0, Unlinked(d, tmp))
  {
    hide Preparing, Settled, Atomic, Still, Valid, Untouched;
    CleanupRestores(d0, d, tmp, n, path, after);
    PreparingIsStill(d0, d, tmp, n, path);
  }

  lemma RenameIsGood(d0: Disk, d: Disk, tmp: string, n: nat, path: string, after: Node)
    requires Valid(d0) && Settled(d0, path) && path != tmp && Preparing(d0, d, tmp, n)
    requires n in d.nodes && d.nodes[n] == after && n in d.synced && d.synced[n] == after && tmp in d.entries
    ensures Good(d0, Renamed(d, tmp, path), path, after) && Replaced(d0, Renamed(d, tmp, path), path, after)
    ensures Unflushed(d0, Renamed(d, tmp, path), path, after)
    ensures Renamed(d, tmp, path).nodes == d.nodes
  {
    hide Preparing, Settled, Atomic, Still, Valid, Replaced, Unflushed;
    RenameReplaces(d0, d, tmp, n, path, after);
    ReplacedIsStill(d0, Renamed(d, tmp, path), path, after);
  }

  /** Syncing the directory afterwards rules out the old entry, and harms nothing. */
  lemma DirSyncSettles(d0: Disk, d: Disk, path: string, after: Node)
    requires Good(d0, d, path, after) && Replaced(d0, d, path, after)
    ensures Good(d0, DirSynced(d, Dir(path)), path, after) && Replaced(d0, DirSynced(d, Dir(path)), path, after)
    ensures Settled(DirSynced(d, Dir(path)), path)
  {
    hide Dir;
    var e := DirSynced(d, Dir(path));
    forall q, v | MayBeOnDisk(e, q, v) ensures MayBeOnDisk(d, q, v) {}
    assert Atomic(e, path, Content(d0, path), after) by {
      forall v | MayBeOnDisk(e, path, v) ensures Leads(e, v, Content(d0, path)) || Leads(e, v, Some(after)) {
        assert MayBeOnDisk(d, path, v);
      }
    }
    forall q | q in d0.entries && q != path
      ensures Content(e, q) == Content(d0, q) && (Settled(d0, q) ==> Settled(e, q))
    {
      assert Content(d, q) == Content(d0, q);
      if Settled(d0, q) { SettledDirSync(d, Dir(path), q); }
    }
  }

  lemma SettledDirSync(d: Disk, dir: string, q: string)
    requires Settled(d, q)
    ensures Settled(DirSynced(d, dir), q)
  {
    var e := DirSynced(d, dir);
    forall v | MayBeOnDisk(e, q, v) ensures v == Lookup(e, q) { assert MayBeOnDisk(d, q, v); }
  }

  lemma StillOne(d0: Disk, d: Disk, q: string)
    requires Valid(d0) && q in d0.entries && q in d.entries && d.entries[q] == d0.entries[q]
    requires forall m :: m in d0.nodes ==> m in d.nodes && d.nodes[m] == d0.nodes[m]
    requires forall m :: m in d0.synced ==> m in d.synced && d.synced[m] == d0.synced[m]
    requires forall v :: (q, v) in d.past ==> (q, v) in d0.past
    ensures Content(d, q) == Content(d0, q) && (Settled(d0, q) ==> Settled(d, q))
  {
    forall v | MayBeOnDisk(d, q, v) ensures MayBeOnDisk(d0, q, v) {}
  }

  lemma PreparingIsStill(d0: Disk, d: Disk, tmp: string, n: nat, path: string)
    requires Valid(d0) && Preparing(d0, d, tmp, n)
    ensures Still(d0, d, path) && Still(d0, Unlinked(d, tmp), path)
  {
    forall q | q in d0.entries && q != path
      ensures Content(d, q) == Content(d0, q) && (Settled(d0, q) ==> Settled(d, q))
      ensures Content(Unlinked(d, tmp), q) == Content(d0, q) && (Settled(d0, q) ==> Settled(Unlinked(d, tmp), q))
    {
      hide Settled, Valid, Content;
      StillOne(d0, d, q);
      StillOne(d0, Unlinked(d, tmp), q);
    }
  }

  lemma ReplacedIsStill(d0: Disk, d: Disk, path: string, after: Node)
    requires Valid(d0) && Replaced(d0, d, path, after)
    ensures Still(d0, d, path)
  {
    forall q | q in d0.entries && q != path
      ensures Content(d, q) == Content(d0, q) && (Settled(d0, q) ==> Settled(d, q))
    {
      hide Settled, Valid, Content;
      StillOne(d0, d, q);
    }
  }

  /** A settled name that is left alone is trivially whole. */
  lemma SettledIsAtomic(d: Disk, q: string, before: Option<Node>, after: Node)
    requires Settled(d, q) && Content(d, q) == before
    ensures Atomic(d, q, before, after)
  {
  }

  // ---------------------------------------------------------------- the program

  /** Nothing stands in the way of a rename to this name. */
  predicate CanInstall(d: Disk, path: string, removeExisting: bool) {
    path !in d.entries || (removeExisting && Content(d, path) != Some(Other(true)))
  }

  datatype Outcome = Done | Exists | Refused | IoError

  class Program {
    var disk: Disk
    /** Every disk state passed through, the present one last. */
    ghost var trace: seq<Disk>

    constructor (initial: Disk)
      ensures disk == initial && trace == [initial]
    {
      disk, trace := initial, [initial];
    }

    /** A system call may fail at any time; `calm` rules that out. */
    method Fails(calm: bool) returns (failed: bool)
      ensures calm ==> !failed
    {
      failed := *;
      failed := failed && !calm;
    }

    /** Rename, replacing what is there; over a directory it fails. */
    method Rename(from: string, to: string, calm: bool) returns (ok: bool)
      requires from in disk.entries && Valid(disk)
      modifies this
      ensures ok ==> disk == Renamed(old(disk), from, to) && trace == old(trace) + [disk]
      ensures !ok ==> disk == old(disk) && trace == old(trace)
      ensures calm && Content(old(disk), to) != Some(Other(true)) ==> ok
    {
      var failed := Fails(calm);
      if failed || Content(disk, to) == Some(Other(true)) { return false; }
      disk := Renamed(disk, from, to);
      trace := trace + [disk];
      return true;
    }

    /** Without leave to replace, the atomic no-replace rename is tried first; a kernel or file system that
        lacks it gets a look at the target and then a plain rename. */
    method SafeRename(from: string, to: string, removeExisting: bool, supported: bool, calm: bool) returns (r: Outcome)
      requires from in disk.entries && Valid(disk)
      modifies this
      ensures r == Done ==> disk == Renamed(old(disk), from, to) && trace == old(trace) + [disk]
      ensures r != Done ==> disk == old(disk) && trace == old(trace)
      ensures !removeExisting && to in old(disk).entries ==> r != Done && (calm ==> r == Exists)
      ensures r == Exists ==> !removeExisting && to in disk.entries
      ensures r != Refused
      ensures calm && CanInstall(old(disk), to, removeExisting) ==> r == Done
    {
      if removeExisting {
        var ok := Rename(from, to, calm);
        return if ok then Done else IoError;
      }
      if supported {
        var failed := Fails(calm);
        if failed { return IoError; }
        if to in disk.entries { return Exists; }
        disk := Renamed(disk, from, to);
        trace := trace + [disk];
        return Done;
      }
      var unreadable := Fails(calm);
      if unreadable { return IoError; }
      if to in disk.entries { return Exists; }
      var ok := Rename(from, to, calm);
      return if ok then Done else IoError;
    }

    /** Opens and syncs a directory; every error is ignored by the caller. */
    method SyncDirectory(dir: string, calm: bool) returns (ok: bool)
      modifies this
      ensures ok ==> disk == DirSynced(old(disk), dir) && trace == old(trace) + [disk]
      ensures !ok ==> disk == old(disk) && trace == old(trace)
      ensures calm ==> ok
    {
      var failed := Fails(calm);
      if failed { return false; }
      disk := DirSynced(disk, dir);
      trace := trace + [disk];
      return true;
    }

    /** Removes the temporary; its own failure is ignored and leaves the temporary behind. */
    method Cleanup(tmp: string, calm: bool) returns (left: bool)
      modifies this
      ensures left ==> disk == old(disk) && trace == old(trace)
      ensures !left ==> disk == Unlinked(old(disk), tmp) && trace == old(trace) + [disk]
      ensures calm ==> !left
    {
      left := Fails(calm);
      if !left {
        disk := Unlinked(disk, tmp);
        trace := trace + [disk];
      }
    }

    /** Fills the temporary: write, change mode, sync, close; any of them may fail, and a failed write may
        have written a part. */
    method Prepare(ghost d0: Disk, tmp: string, n: nat, data: string, mode: nat, ghost path: string, ghost start: nat,
                   calm: bool)
      returns (ok: bool)
      requires Valid(d0) && Settled(d0, path) && path != tmp && Preparing(d0, disk, tmp, n)
      requires start <= |trace| && AllGood(trace[start..], d0, path, Regular(data, mode))
      modifies this
      ensures Preparing(d0, disk, tmp, n)
      ensures old(trace) <= trace && AllGood(trace[start..], d0, path, Regular(data, mode))
      ensures ok ==> n in disk.nodes && disk.nodes[n] == Regular(data, mode)
      ensures ok ==> n in disk.synced && disk.synced[n] == Regular(data, mode)
      ensures calm ==> ok
    {
      hide Preparing, Settled, Valid, Good, AllGood;
      ghost var after := Regular(data, mode);
      var reopenFailed := Fails(calm);
      if reopenFailed { return false; }
      var writeFailed := Fails(calm);
      var written: nat := |data|;
      if writeFailed { written :| 0 <= written <= |data|; }
      ChangePrepares(d0, disk, tmp, n, Regular(data[..written], 384));
      disk := Changed(disk, n, Regular(data[..written], 384));
      PreparingIsGood(d0, disk, tmp, n, path, after);
      OneMoreGood(start, trace, d0, disk, path, after);
      trace := trace + [disk];
      if writeFailed { return false; }
      var chmodFailed := Fails(calm);
      if chmodFailed { return false; }
      assert data[..|data|] == data;
      ChangePrepares(d0, disk, tmp, n, after);
      disk := Changed(disk, n, Regular(data, mode));
      PreparingIsGood(d0, disk, tmp, n, path, after);
      OneMoreGood(start, trace, d0, disk, path, after);
      trace := trace + [disk];
      var syncFailed := Fails(calm);
      if syncFailed { return false; }
      SyncPrepares(d0, disk, tmp, n);
      PreparedFacts(d0, disk, tmp, n, path);
      disk := Synced(disk, n);
      PreparingIsGood(d0, disk, tmp, n, path, after);
      OneMoreGood(start, trace, d0, disk, path, after);
      trace := trace + [disk];
      var closeFailed := Fails(calm);
      ok := !closeFailed;
    }

    /** The replacement. On success the name holds the new file and everything else is as it was; on
        failure every name is as it was, except that the temporary stays if and only if its removal failed;
        and a crash at any point leaves the whole old or the whole new file, and every other file alone.
        `durable` tells whether the final directory sync, whose errors the code ignores, took effect: then
        only the new file can be on the medium, otherwise the old entry still can. */
    method SafeReplaceFile(path: string, data: string, mode: nat, removeExisting: bool, tmp: string, newNode: nat,
                           supported: bool, calm: bool)
      returns (r: Outcome, left: bool, durable: bool)
      requires Valid(disk) && Settled(disk, path)
      requires tmp !in disk.entries && tmp != path && Dir(tmp) == Dir(path) && newNode !in disk.nodes
      modifies this
      ensures old(trace) <= trace && AllGood(trace[|old(trace)|..], old(disk), path, Regular(data, mode))
      ensures Still(old(disk), disk, path) && disk.nodes.Keys <= old(disk).nodes.Keys + {newNode}
      ensures r == Done ==> !left && Replaced(old(disk), disk, path, Regular(data, mode))
      ensures r == Done ==> SomeUnflushed(trace[|old(trace)|..], old(disk), path, Regular(data, mode))
      ensures durable ==> r == Done && Settled(disk, path)
      ensures r == Done && !durable ==> Unflushed(old(disk), disk, path, Regular(data, mode))
      ensures r != Refused && (r != Done ==> Content(disk, path) == Content(old(disk), path))
      ensures r != Done && !left ==> Untouched(old(disk), disk)
      ensures left ==> r != Done && Preparing(old(disk), disk, tmp, newNode)
      ensures !removeExisting && path in old(disk).entries ==> r != Done && (calm ==> r == Exists)
      ensures calm ==> !left && (r == Done ==> durable)
      ensures calm && CanInstall(old(disk), path, removeExisting) ==> r == Done
    {
      hide Preparing, Settled, Valid, Untouched, Replaced, Unflushed, AllGood, Atomic, Still, SomeUnflushed;
      hide Dir;
      ghost var d0, after, start := disk, Regular(data, mode), |trace|;
      left, durable := false, false;
      NothingYet(d0, trace, path, after);
      StillSame(d0, path);
      var createFailed := Fails(calm);
      if createFailed { return IoError, false, false; }
      CreatePrepares(disk, tmp, newNode);
      disk := Created(disk, tmp, newNode);
      PreparingIsGood(d0, disk, tmp, newNode, path, after);
      OneMoreGood(start, trace, d0, disk, path, after);
      trace := trace + [disk];
      var prepared := Prepare(d0, tmp, newNode, data, mode, path, start, calm);
      PreparedFacts(d0, disk, tmp, newNode, path);
      PreparingIsGood(d0, disk, tmp, newNode, path, after);
      ghost var ready, before := trace, disk;
      r := IoError;
      if prepared {
        r := SafeRename(tmp, path, removeExisting, supported, calm);
      }
      if r == Done {
        RenameIsGood(d0, before, tmp, newNode, path, after);
        OneMoreGood(start, ready, d0, disk, path, after);
        ghost var renamed, installed := trace, disk;
        durable := SyncDirectory(Dir(path), calm);
        FoundUnflushed(ready, trace, start, d0, installed, path, after);
        if durable {
          DirSyncSettles(d0, installed, path, after);
          OneMoreGood(start, renamed, d0, disk, path, after);
        }
        return;
      }
      left := Cleanup(tmp, calm);
      if !left {
        CleanupIsGood(d0, before, tmp, newNode, path, after);
        SameContent(before, disk, path, tmp);
        OneMoreGood(start, ready, d0, disk, path, after);
      }
    }

    /** Backup, then replacement. The new content appears only once the backup holds the old one; an absent
        file needs no backup, and a link or a directory is refused. `durable` tells whether the directory
        sync after the backup took effect: then every crash leaves the old file or the whole backup;
        otherwise a crash after the second rename may leave the new file and no backup. */
    method SafeBackupAndReplace(path: string, backup: string, data: string, mode: nat, removeExistingBackup: bool,
                                tmp: string, tmp2: string, node: nat, node2: nat, supported: bool, calm: bool)
      returns (r: Outcome, durable: bool)
      requires Valid(disk) && Settled(disk, path) && Settled(disk, backup) && path != backup
      requires tmp !in disk.entries && tmp2 !in disk.entries && {tmp, tmp2} !! {path, backup}
      requires Dir(tmp) == Dir(backup) && Dir(tmp2) == Dir(path)
      requires node !in disk.nodes && node2 !in disk.nodes && node != node2
      modifies this
      ensures old(trace) <= trace
      ensures AllAtomic(trace[|old(trace)|..], path, Content(old(disk), path), Regular(data, mode))
      ensures Content(disk, path) == if r == Done then Some(Regular(data, mode)) else Content(old(disk), path)
      ensures path in old(disk).entries ==> BackupFirst(trace[|old(trace)|..], old(disk), path, backup, mode)
      ensures path in old(disk).entries && durable ==>
        AllBackedUp(trace[|old(trace)|..], old(disk), path, backup, mode)
      ensures path in old(disk).entries && r == Done && !durable ==>
        SomeLost(trace[|old(trace)|..], old(disk), path, backup, Regular(data, mode))
      ensures path in old(disk).entries && r == Done ==> KeptIn(old(disk), disk, path, backup, mode)
      ensures !removeExistingBackup && path in old(disk).entries && backup in old(disk).entries ==> r != Done
      ensures r == Refused ==> disk == old(disk)
      ensures r == Refused <== calm && IsOther(Content(old(disk), path))
      ensures IsOther(Content(old(disk), path)) ==> r != Done && disk == old(disk)
      ensures calm && path in old(disk).entries && !IsOther(Content(old(disk), path)) ==>
        (backup !in old(disk).entries ==> r == Done && durable)
    {
      hide Preparing, Settled, Valid, Replaced, Unflushed, AllGood, AllAtomic, Atomic, Still, Untouched, BackupFirst;
      hide SomeUnflushed, AllBackedUp, SomeLost, Dir;
      ghost var d0, start, after := disk, trace, Regular(data, mode);
      NoStates(d0, path, backup, mode, after);
      assert trace[|start|..] == [];
      durable := false;
      var left, synced;
      if path !in disk.entries {
        r, left, synced := SafeReplaceFile(path, data, mode, true, tmp2, node2, supported, calm);
        GoodIsAtomic(trace[|start|..], d0, path, after);
        if r == Done { ReplacedFacts(d0, disk, path, after); }
        return;
      }
      var openFailed := Fails(calm);
      if openFailed { return IoError, false; }
      ValidEntry(d0, path);
      var current := disk.nodes[disk.entries[path]];
      if current.Other? { return Refused, false; }
      var readFailed := Fails(calm);
      if readFailed { return IoError, false; }
      ghost var saved := Regular(current.content, mode);
      r, left, durable := SafeReplaceFile(backup, current.content, mode, removeExistingBackup, tmp, node, supported,
                                          calm);
      ghost var d1, mid := disk, trace;
      PhaseOne(mid[|start|..], d0, d1, path, backup, saved, mode, after);
      if r != Done { return; }
      ReplacedFacts(d0, d1, backup, saved);
      r, left, synced := SafeReplaceFile(path, data, mode, true, tmp2, node2, supported, calm);
      PhaseTwo(trace[|mid|..], d0, d1, disk, path, backup, mode, after, durable);
      assert trace[|start|..] == mid[|start|..] + trace[|mid|..];
      Joined(mid[|start|..], trace[|mid|..], d0, path, backup, mode, after);
      if r == Done {
        ReplacedFacts(d1, disk, path, after);
        if !durable { LostLater(mid[|start|..], trace[|mid|..], d0, d1, path, backup, saved, after); }
      }
    }
  }

  predicate IsOther(c: Option<Node>) {
    c.Some? && c.value.Other?
  }

  /** The other name holds what `path` held at the start, whole. */
  ghost predicate KeptIn(d0: Disk, d: Disk, path: string, backup: string, mode: nat) {
    && Content(d0, path).Some? && Content(d0, path).value.Regular?
    && Content(d, backup) == Some(Regular(Content(d0, path).value.content, mode))
  }

  /** In every state the old content is still in place or already in the backup. */
  ghost predicate BackupFirst(disks: seq<Disk>, d0: Disk, path: string, backup: string, mode: nat) {
    forall i :: 0 <= i < |disks| ==>
      Content(disks[i], path) == Content(d0, path) || KeptIn(d0, disks[i], path, backup, mode)
  }

  /** Whatever a crash leaves here, the file is still the old one or the backup is there, whole. */
  ghost predicate BackedUp(d: Disk, d0: Disk, path: string, backup: string, mode: nat) {
    && Content(d0, path).Some? && Content(d0, path).value.Regular?
    && forall v, w :: MayBeOnDisk(d, path, v) && MayBeOnDisk(d, backup, w) ==>
         || Leads(d, v, Content(d0, path))
         || Leads(d, w, Some(Regular(Content(d0, path).value.content, mode)))
  }

  ghost predicate AllBackedUp(disks: seq<Disk>, d0: Disk, path: string, backup: string, mode: nat) {
    forall i :: 0 <= i < |disks| ==> BackedUp(disks[i], d0, path, backup, mode)
  }

  /** A crash here may leave the new file together with the old entry of the backup, or with none. */
  ghost predicate BackupMayBeLost(d: Disk, d0: Disk, path: string, backup: string, after: Node) {
    && MayBeOnDisk(d, path, Lookup(d, path)) && Leads(d, Lookup(d, path), Some(after))
    && MayBeOnDisk(d, backup, Lookup(d0, backup))
  }

  ghost predicate SomeLost(disks: seq<Disk>, d0: Disk, path: string, backup: string, after: Node) {
    exists i :: 0 <= i < |disks| && BackupMayBeLost(disks[i], d0, path, backup, after)
  }

  ghost predicate SomeUnflushed(disks: seq<Disk>, d0: Disk, path: string, after: Node) {
    exists i :: 0 <= i < |disks| && Unflushed(d0, disks[i], path, after)
  }

  lemma FoundUnflushed(ready: seq<Disk>, trace: seq<Disk>, start: nat, d0: Disk, d: Disk, path: string, after: Node)
    requires start <= |ready| < |trace| && trace[|ready|] == d && Unflushed(d0, d, path, after)
    ensures SomeUnflushed(trace[start..], d0, path, after)
  {
    assert trace[start..][|ready| - start] == d;
  }

  /** The lost backup: its old entry was never ruled out, and the new file is in place. */
  lemma LostLater(first: seq<Disk>, second: seq<Disk>, d0: Disk, d1: Disk, path: string, backup: string, saved: Node,
                  after: Node)
    requires Unflushed(d0, d1, backup, saved) && SomeUnflushed(second, d1, path, after)
    ensures SomeLost(first + second, d0, path, backup, after)
  {
    hide Leads;
    var i :| 0 <= i < |second| && Unflushed(d1, second[i], path, after);
    assert (backup, Lookup(d0, backup)) in second[i].past;
    assert (first + second)[|first| + i] == second[i];
  }

  lemma NoStates(d0: Disk, path: string, backup: string, mode: nat, after: Node)
    ensures AllAtomic([], path, Content(d0, path), after) && BackupFirst([], d0, path, backup, mode)
  {
  }

  lemma ValidEntry(d: Disk, path: string)
    requires Valid(d) && path in d.entries
    ensures d.entries[path] in d.nodes
  {
  }

  lemma GoodIsAtomic(disks: seq<Disk>, d0: Disk, path: string, after: Node)
    requires AllGood(disks, d0, path, after)
    ensures AllAtomic(disks, path, Content(d0, path), after)
  {
    forall i | 0 <= i < |disks| ensures Atomic(disks[i], path, Content(d0, path), after) {
      assert Good(d0, disks[i], path, after);
    }
  }

  lemma ReplacedFacts(d0: Disk, d: Disk, path: string, after: Node)
    requires Replaced(d0, d, path, after)
    ensures Valid(d) && Content(d, path) == Some(after) && d.entries.Keys == d0.entries.Keys + {path}
  {
  }

  /** While the backup is made, the file itself stays as it was. */
  lemma PhaseOne(disks: seq<Disk>, d0: Disk, d1: Disk, path: string, backup: string, saved: Node, mode: nat,
                 after: Node)
    requires AllGood(disks, d0, backup, saved) && Still(d0, d1, backup)
    requires path in d0.entries && path != backup && Settled(d0, path) && !IsOther(Content(d0, path)) && Valid(d0)
    ensures AllAtomic(disks, path, Content(d0, path), after) && BackupFirst(disks, d0, path, backup, mode)
    ensures AllBackedUp(disks, d0, path, backup, mode)
    ensures Content(d1, path) == Content(d0, path) && Settled(d1, path)
  {
    ValidEntry(d0, path);
    hide Settled, Atomic, Valid, BackedUp;
    forall i | 0 <= i < |disks|
      ensures Content(disks[i], path) == Content(d0, path) && Atomic(disks[i], path, Content(d0, path), after)
      ensures BackedUp(disks[i], d0, path, backup, mode)
    {
      assert Good(d0, disks[i], backup, saved);
      SettledIsAtomic(disks[i], path, Content(d0, path), after);
      SettledFile(disks[i], d0, path, backup, mode);
    }
  }

  lemma SettledFile(d: Disk, d0: Disk, path: string, backup: string, mode: nat)
    requires Settled(d, path) && Content(d, path) == Content(d0, path)
    requires Content(d0, path).Some? && Content(d0, path).value.Regular?
    ensures BackedUp(d, d0, path, backup, mode)
  {
  }

  lemma SettledBackup(d: Disk, d0: Disk, path: string, backup: string, mode: nat)
    requires Settled(d, backup) && KeptIn(d0, d, path, backup, mode)
    ensures BackedUp(d, d0, path, backup, mode)
  {
  }

  /** While the file is replaced, the backup stays. */
  lemma PhaseTwo(disks: seq<Disk>, d0: Disk, d1: Disk, d2: Disk, path: string, backup: string, mode: nat, after: Node,
                 durable: bool)
    requires AllGood(disks, d1, path, after) && Still(d1, d2, path)
    requires Content(d1, path) == Content(d0, path) && KeptIn(d0, d1, path, backup, mode)
    requires backup in d1.entries && path != backup && (durable ==> Settled(d1, backup))
    ensures AllAtomic(disks, path, Content(d0, path), after) && BackupFirst(disks, d0, path, backup, mode)
    ensures durable ==> AllBackedUp(disks, d0, path, backup, mode)
    ensures KeptIn(d0, d2, path, backup, mode)
  {
    hide Settled, Atomic, Valid, BackedUp;
    forall i | 0 <= i < |disks|
      ensures Atomic(disks[i], path, Content(d0, path), after) && KeptIn(d0, disks[i], path, backup, mode)
      ensures durable ==> BackedUp(disks[i], d0, path, backup, mode)
    {
      assert Good(d1, disks[i], path, after);
      if durable { SettledBackup(disks[i], d0, path, backup, mode); }
    }
  }

  lemma Joined(a: seq<Disk>, b: seq<Disk>, d0: Disk, path: string, backup: string, mode: nat, after: Node)
    requires AllAtomic(a, path, Content(d0, path), after) && AllAtomic(b, path, Content(d0, path), after)
    requires BackupFirst(a, d0, path, backup, mode) && BackupFirst(b, d0, path, backup, mode)
    ensures AllAtomic(a + b, path, Content(d0, path), after) && BackupFirst(a + b, d0, path, backup, mode)
    ensures AllBackedUp(a, d0, path, backup, mode) && AllBackedUp(b, d0, path, backup, mode) ==>
      AllBackedUp(a + b, d0, path, backup, mode)
  {
    hide Atomic, KeptIn, Content, BackedUp;
  }

  lemma SameContent(before: Disk, d: Disk, path: string, tmp: string)
    requires d == Unlinked(before, tmp) && path != tmp
    ensures Content(d, path) == Content(before, path)
  {
  }

  lemma StillSame(d: Disk, path: string)
    ensures Still(d, d, path)
  {
  }

  lemma PreparedFacts(d0: Disk, d: Disk, tmp: string, n: nat, path: string)
    requires Preparing(d0, d, tmp, n) && path != tmp && Valid(d0)
    ensures Valid(d) && tmp in d.entries && (path in d.entries <==> path in d0.entries)
    ensures Content(d, path) == Content(d0, path)
    ensures n in d.nodes && d.nodes.Keys == d0.nodes.Keys + {n}
  {
  }
}
