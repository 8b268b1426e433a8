/** The recursive delete that never follows a symbolic link: it walks by descriptors from the root, and
    every name is looked up relative to a directory already held open. The tree is not disturbed by others. */
module RemoveDir {
  import opened Actions

  type Path = seq<string>

  datatype Entry = Directory | File(content: string) | Symlink(target: Path)

  /** Every entry by its full path; nothing lies below a symbolic link or a file. */
  type Tree = map<Path, Entry>

  function Parent(p: Path): Path
    requires p != []
  {
    p[..|p| - 1]
  }

  predicate IsDirectory(t: Tree, p: Path) {
    p in t && t[p] == Directory
  }

  ghost predicate WellFormed(t: Tree) {
    IsDirectory(t, []) && forall p :: p in t && p != [] ==> IsDirectory(t, Parent(p))
  }

  /** No component up to the n-th is a link or a file. */
  ghost predicate DirectoriesUpTo(t: Tree, dir: Path, n: nat)
    requires n <= |dir|
  {
    forall i :: 0 <= i <= n ==> IsDirectory(t, dir[..i])
  }

  lemma OneFurther(t: Tree, dir: Path, n: nat)
    requires n < |dir|
    ensures DirectoriesUpTo(t, dir, n + 1) <==> DirectoriesUpTo(t, dir, n) && IsDirectory(t, dir[..n + 1])
    ensures DirectoriesUpTo(t, dir, |dir|) ==> DirectoriesUpTo(t, dir, n + 1)
    ensures dir[..n + 1] == dir[..n] + [dir[n]]
  {
  }

  predicate Under(root: Path, p: Path) {
    root <= p
  }

  /** What is left when a whole subtree is gone. */
  function Without(t: Tree, root: Path): Tree {
    map p | p in t && !Under(root, p) :: t[p]
  }

  ghost function Subtree(t: Tree, root: Path): set<Path> {
    set p | p in t && Under(root, p)
  }

  /** Some entries under `root` may be gone; nothing else changed. */
  ghost predicate OnlyInside(before: Tree, after: Tree, root: Path) {
    && after.Keys <= before.Keys
    && (forall p :: p in after ==> after[p] == before[p])
    && (forall p :: p in before && !Under(root, p) ==> p in after)
  }

  lemma {:induction false} AncestorsExist(t: Tree, p: Path, n: nat)
    requires WellFormed(t) && p in t && n < |p|
    ensures IsDirectory(t, p[..n])
    decreases |p|
  {
    assert IsDirectory(t, Parent(p));
    if n < |p| - 1 {
      AncestorsExist(t, Parent(p), n);
      assert Parent(p)[..n] == p[..n];
    }
  }

  lemma UnderChild(root: Path, name: string, p: Path)
    ensures Under(root + [name], p) ==> Under(root, p) && p != root
    ensures Under(root, p) && |p| > |root| && p[|root|] == name ==> Under(root + [name], p)
  {
    if Under(root + [name], p) { assert p[..|root|] == (root + [name])[..|root|] == root; }
    if Under(root, p) && |p| > |root| && p[|root|] == name { assert p[..|root| + 1] == root + [name]; }
  }

  // ---------------------------------------------------------------- directories read name by name

  predicate IsChild(t: Tree, dir: Path, name: string) {
    dir + [name] in t
  }

  function ChildNames(t: Tree, dir: Path): set<string> {
    set p | p in t && |p| == |dir| + 1 && p[..|dir|] == dir :: p[|dir|]
  }

  lemma ChildNamesAreChildren(t: Tree, dir: Path)
    ensures forall x :: x in ChildNames(t, dir) <==> IsChild(t, dir, x)
  {
    forall x ensures x in ChildNames(t, dir) <==> IsChild(t, dir, x) {
      var p := dir + [x];
      assert |p| == |dir| + 1 && p[..|dir|] == dir && p[|dir|] == x;
      if x in ChildNames(t, dir) {
        var q :| q in t && |q| == |dir| + 1 && q[..|dir|] == dir && q[|dir|] == x;
        assert q == p;
      }
    }
  }

  /** The names in whatever order the kernel gives them. */
  method Enumerate(all: set<string>) returns (out: seq<string>)
    ensures (forall x :: x in out <==> x in all) && forall i, j :: 0 <= i < j < |out| ==> out[i] != out[j]
  {
    var todo := all;
    out := [];
    while todo != {}
      invariant todo <= all && (forall x :: x in out <==> x in all && x !in todo)
      invariant forall i, j :: 0 <= i < j < |out| ==> out[i] != out[j]
      decreases |todo|
    {
      var x :| x in todo;
      out := out + [x];
      todo := todo - {x};
    }
  }

  ghost predicate Lists(t: Tree, dir: Path, names: seq<string>) {
    && (forall x :: x in names <==> IsChild(t, dir, x))
    && forall i, j :: 0 <= i < j < |names| ==> names[i] != names[j]
  }

  /** The tree after the first `n` children were removed with all they hold. */
  ghost predicate ChildrenGone(before: Tree, after: Tree, dir: Path, names: seq<string>, n: nat)
    requires n <= |names|
  {
    && (forall p :: p in after ==> p in before && after[p] == before[p])
    && (forall p :: p in before ==> (p in after <==> !UnderSome(dir, names[..n], p)))
  }

  predicate UnderSome(dir: Path, names: seq<string>, p: Path) {
    Under(dir, p) && |p| > |dir| && p[|dir|] in names
  }

  lemma NextChild(before: Tree, mid: Tree, after: Tree, dir: Path, names: seq<string>, n: nat)
    requires n < |names| && ChildrenGone(before, mid, dir, names, n)
    requires after == Without(mid, dir + [names[n]])
    ensures ChildrenGone(before, after, dir, names, n + 1)
  {
    assert names[..n + 1] == names[..n] + [names[n]];
    forall p | p in before ensures p in after <==> !UnderSome(dir, names[..n + 1], p) {
      UnderChild(dir, names[n], p);
      if Under(dir + [names[n]], p) { assert p[|dir|] == (dir + [names[n]])[|dir|]; }
    }
  }

  lemma ChildStillThere(before: Tree, mid: Tree, dir: Path, names: seq<string>, n: nat)
    requires n < |names| && ChildrenGone(before, mid, dir, names, n) && Lists(before, dir, names)
    ensures dir + [names[n]] in mid
  {
    var child := dir + [names[n]];
    assert IsChild(before, dir, names[n]);
    assert child[|dir|] == names[n];
  }

  /** When all children are gone, the directory is empty, and removing it leaves exactly the rest. */
  lemma ThenTheDirectory(before: Tree, mid: Tree, dir: Path, names: seq<string>)
    requires WellFormed(before) && Lists(before, dir, names) && ChildrenGone(before, mid, dir, names, |names|)
    requires dir in before
    ensures dir in mid && (forall x :: !IsChild(mid, dir, x)) && mid - {dir} == Without(before, dir)
  {
    assert names[..|names|] == names;
    assert dir in mid;
    forall p | p in mid && Under(dir, p) ensures p == dir {
      if |p| > |dir| { GrandchildHasChild(before, dir, names, p); }
    }
    forall x ensures !IsChild(mid, dir, x) {
      if IsChild(mid, dir, x) { assert Under(dir, dir + [x]); }
    }
    assert mid - {dir} == Without(before, dir);
  }

  lemma GrandchildHasChild(t: Tree, dir: Path, names: seq<string>, p: Path)
    requires WellFormed(t) && Lists(t, dir, names) && p in t && Under(dir, p) && |p| > |dir|
    ensures UnderSome(dir, names, p)
  {
    var child := p[..|dir| + 1];
    assert child == dir + [p[|dir|]];
    if |dir| + 1 < |p| { AncestorsExist(t, p, |dir| + 1); } else { assert child == p; }
    assert IsChild(t, dir, p[|dir|]);
  }

  lemma RemovalIsInside(before: Tree, mid: Tree, after: Tree, dir: Path, names: seq<string>, n: nat)
    requires n < |names| && ChildrenGone(before, mid, dir, names, n) && OnlyInside(mid, after, dir + [names[n]])
    ensures OnlyInside(before, after, dir)
  {
    forall p | p in before && !Under(dir, p) ensures p in after { UnderChild(dir, names[n], p); }
  }

  lemma WithoutIsWellFormed(t: Tree, root: Path)
    requires WellFormed(t) && root != []
    ensures WellFormed(Without(t, root)) && OnlyInside(t, Without(t, root), root)
  {
    forall p | p in Without(t, root) && p != [] ensures IsDirectory(Without(t, root), Parent(p)) {
      assert IsDirectory(t, Parent(p));
    }
  }

  /** Whatever a link that is gone pointed to, outside the root everything at and below it is as it was. */
  ghost predicate TargetsKept(before: Tree, after: Tree, root: Path) {
    forall link, p | link in before && p in before ::
      before[link].Symlink? && link !in after && Under(before[link].target, p) && !Under(root, p) ==>
      p in after && after[p] == before[p]
  }

  // ---------------------------------------------------------------- system calls

  class FileSystem {
    var tree: Tree
    /** Open descriptors and the directories they hold. */
    var fds: map<nat, Path>
    var nextFd: nat

    ghost predicate Valid()
      reads this
    {
      WellFormed(tree) && forall fd :: fd in fds ==> fd < nextFd
    }

    constructor ()
      ensures Valid() && tree == map[[] := Directory] && fds == map[]
    {
      tree, fds, nextFd := map[[] := Directory], map[], 0;
    }

    /** A system call, a close or the context may fail at any time; `calm` rules that out. */
    method Fails(calm: bool) returns (failed: bool)
      ensures calm ==> !failed
    {
      if calm { return false; }
      failed := *;
    }

    method OpenRoot(calm: bool) returns (fd: Option<nat>)
      requires Valid()
      modifies this`fds, this`nextFd
      ensures Valid() && (calm ==> fd.Some?)
      ensures fd.None? ==> fds == old(fds)
      ensures fd.Some? ==> fd.value !in old(fds) && fds == old(fds)[fd.value := []]
    {
      var failed := Fails(calm);
      if failed { return None; }
      fd := Some(nextFd);
      fds := fds[nextFd := []];
      nextFd := nextFd + 1;
    }

    /** Opening with O_DIRECTORY and O_NOFOLLOW refuses everything but a directory. */
    method OpenAt(dirfd: nat, name: string, calm: bool) returns (fd: Option<nat>)
      requires Valid() && dirfd in fds
      modifies this`fds, this`nextFd
      ensures Valid()
      ensures fd.None? ==> fds == old(fds)
      ensures fd.Some? ==> fd.value !in old(fds) && fds == old(fds)[fd.value := old(fds)[dirfd] + [name]]
      ensures fd.Some? ==> IsDirectory(tree, old(fds)[dirfd] + [name])
      ensures calm && IsDirectory(tree, old(fds)[dirfd] + [name]) ==> fd.Some?
    {
      var failed := Fails(calm);
      var p := fds[dirfd] + [name];
      if failed || !IsDirectory(tree, p) { return None; }
      fd := Some(nextFd);
      fds := fds[nextFd := p];
      nextFd := nextFd + 1;
    }

    /** Looks at a name without following it. */
    method FstatAt(dirfd: nat, name: string, calm: bool) returns (st: Option<Entry>)
      requires Valid() && dirfd in fds
      ensures st.Some? ==> fds[dirfd] + [name] in tree && tree[fds[dirfd] + [name]] == st.value
      ensures calm && fds[dirfd] + [name] in tree ==> st.Some?
    {
      var failed := Fails(calm);
      var p := fds[dirfd] + [name];
      st := if failed || p !in tree then None else Some(tree[p]);
    }

    /** The descriptor is gone whether or not an error is reported. */
    method Close(fd: nat, calm: bool) returns (ok: bool)
      requires Valid()
      modifies this`fds
      ensures Valid() && fds == old(fds) - {fd} && (calm ==> ok)
    {
      fds := fds - {fd};
      var failed := Fails(calm);
      ok := !failed;
    }

    method ReadNames(fd: nat, calm: bool) returns (names: Option<seq<string>>)
      requires Valid() && fd in fds
      ensures names.Some? ==> Lists(tree, fds[fd], names.value)
      ensures calm ==> names.Some?
    {
      var failed := Fails(calm);
      if failed { return None; }
      ChildNamesAreChildren(tree, fds[fd]);
      var out := Enumerate(ChildNames(tree, fds[fd]));
      return Some(out);
    }

    /** Unlinking a name that is not a directory removes the name itself, link or file. */
    method Unlink(dirfd: nat, name: string, calm: bool) returns (ok: bool)
      requires Valid() && dirfd in fds
      modifies this`tree
      ensures var p := fds[dirfd] + [name];
        if ok then p in old(tree) && !IsDirectory(old(tree), p) && tree == old(tree) - {p} else tree == old(tree)
      ensures calm && fds[dirfd] + [name] in old(tree) && !IsDirectory(old(tree), fds[dirfd] + [name]) ==> ok
    {
      var failed := Fails(calm);
      var p := fds[dirfd] + [name];
      if failed || p !in tree || IsDirectory(tree, p) { return false; }
      tree := tree - {p};
      return true;
    }

    /** Removing a directory needs it empty. */
    method RemoveEmpty(dirfd: nat, name: string, calm: bool) returns (ok: bool)
      requires Valid() && dirfd in fds
      modifies this`tree
      ensures var p := fds[dirfd] + [name];
        if ok then IsDirectory(old(tree), p) && tree == old(tree) - {p} else tree == old(tree)
      ensures var p := fds[dirfd] + [name];
        calm && IsDirectory(old(tree), p) && (forall x :: !IsChild(old(tree), p, x)) ==> ok
    {
      var failed := Fails(calm);
      var p := fds[dirfd] + [name];
      if failed || !IsDirectory(tree, p) { return false; }
      ChildNamesAreChildren(tree, p);
      if ChildNames(tree, p) != {} {
        ghost var x :| x in ChildNames(tree, p);
        assert IsChild(tree, p, x);
        return false;
      }
      tree := tree - {p};
      return true;
    }

    // -------------------------------------------------------------- the delete itself

    /** Walks to a directory component by component; each component is held by a descriptor before the
        next is looked up, and the previous one is closed whatever happens. */
    method OpenNoFollowChain(dir: Path, calm: bool) returns (fd: Option<nat>)
      requires Valid()
      modifies this`fds, this`nextFd
      ensures Valid()
      ensures fd.None? ==> fds == old(fds)
      ensures fd.Some? ==> fd.value !in old(fds) && fds == old(fds)[fd.value := dir]
      ensures fd.Some? ==> DirectoriesUpTo(tree, dir, |dir|)
      ensures calm && DirectoriesUpTo(tree, dir, |dir|) ==> fd.Some?
    {
      assert IsDirectory(tree, []);
      hide WellFormed;
      fd := OpenRoot(calm);
      if fd.None? { return; }
      var i := 0;
      assert dir[..0] == [];
      while i < |dir|
        invariant 0 <= i <= |dir| && Valid() && fd.Some?
        invariant fd.value !in old(fds) && fds == old(fds)[fd.value := dir[..i]]
        invariant DirectoriesUpTo(tree, dir, i)
      {
        OneFurther(tree, dir, i);
        var next := OpenAt(fd.value, dir[i], calm);
        var _ := Close(fd.value, calm);
        if next.None? { return None; }
        fd := next;
        i := i + 1;
      }
      assert dir[..|dir|] == dir;
    }

    /** Deletes one name and all it holds. On success exactly its subtree is gone; on failure some of the
        subtree may be; nothing else ever changes, and every descriptor opened is closed. */
    method RemoveAtRecursive(dirfd: nat, name: string, calm: bool) returns (ok: bool)
      requires Valid() && dirfd in fds
      modifies this
      ensures Valid() && fds == old(fds)
      ensures OnlyInside(old(tree), tree, fds[dirfd] + [name])
      ensures ok ==> fds[dirfd] + [name] in old(tree) && tree == Without(old(tree), fds[dirfd] + [name])
      ensures calm && fds[dirfd] + [name] in old(tree) ==> ok
      decreases Subtree(tree, fds[dirfd] + [name])
    {
      ghost var before, path := tree, fds[dirfd] + [name];
      assert path != [];
      var cancelled := Fails(calm);
      if cancelled { return false; }
      var st := FstatAt(dirfd, name, calm);
      if st.None? { return false; }
      if !st.value.Directory? {
        ok := Unlink(dirfd, name, calm);
        LeafIsItsSubtree(before, path);
        WithoutIsWellFormed(before, path);
        return;
      }
      var cfd := OpenAt(dirfd, name, calm);
      if cfd.None? { return false; }
      var names := ReadNames(cfd.value, calm);
      if names.None? {
        var _ := Close(cfd.value, calm);
        return false;
      }
      ok := RemoveChildren(cfd.value, path, names.value, calm);
      if !ok {
        var _ := Close(cfd.value, calm);
        return false;
      }
      ThenTheDirectory(before, tree, path, names.value);
      var closed := Close(cfd.value, calm);
      if !closed { return false; }
      ok := RemoveEmpty(dirfd, name, calm);
      WithoutIsWellFormed(before, path);
    }

    method RemoveChildren(cfd: nat, ghost path: Path, names: seq<string>, calm: bool) returns (ok: bool)
      requires Valid() && cfd in fds && fds[cfd] == path && IsDirectory(tree, path) && Lists(tree, path, names)
      modifies this
      ensures Valid() && fds == old(fds) && OnlyInside(old(tree), tree, path)
      ensures ok ==> ChildrenGone(old(tree), tree, path, names, |names|)
      ensures calm ==> ok
      ensures IsDirectory(tree, path)
      decreases Subtree(tree, path), 0
    {
      ghost var before := tree;
      var i := 0;
      while i < |names|
        invariant 0 <= i <= |names| && Valid() && fds == old(fds)
        invariant ChildrenGone(before, tree, path, names, i)
      {
        hide OnlyInside, Lists, ChildrenGone, WellFormed;
        ghost var mid := tree;
        ChildStillThere(before, mid, path, names, i);
        SmallerSubtree(before, mid, path, names, i);
        var done := RemoveAtRecursive(cfd, names[i], calm);
        RemovalIsInside(before, mid, tree, path, names, i);
        if !done {
          StillADirectory(before, mid, tree, path, names, i);
          return false;
        }
        NextChild(before, mid, tree, path, names, i);
        i := i + 1;
      }
      ChildrenAreInside(before, tree, path, names);
      return true;
    }

    /** The guarded entry point. The path is clean, absolute and not the root. */
    method RemoveDirSecure(path: Path, calm: bool) returns (ok: bool)
      requires Valid() && path != []
      modifies this
      ensures Valid() && fds == old(fds)
      ensures OnlyInside(old(tree), tree, path)
      ensures TargetsKept(old(tree), tree, path)
      ensures ok ==> IsDirectory(old(tree), path) && tree == Without(old(tree), path)
      ensures !IsDirectory(old(tree), path) ==> !ok && tree == old(tree)
      ensures calm ==> (ok <==> IsDirectory(old(tree), path))
    {
      var parent, base := Parent(path), path[|path| - 1];
      assert parent + [base] == path;
      var pfd := OpenNoFollowChain(parent, calm);
      if pfd.None? {
        if IsDirectory(tree, path) { AncestorsAreDirectories(tree, path); }
        return false;
      }
      var st := FstatAt(pfd.value, base, calm);
      if st.None? || !st.value.Directory? {
        var _ := Close(pfd.value, calm);
        return false;
      }
      ok := RemoveAtRecursive(pfd.value, base, calm);
      var _ := Close(pfd.value, calm);
    }
  }

  // ---------------------------------------------------------------- steps of the delete

  lemma AncestorsAreDirectories(t: Tree, path: Path)
    requires WellFormed(t) && path != [] && path in t
    ensures DirectoriesUpTo(t, Parent(path), |Parent(path)|)
  {
    forall n: nat | n <= |Parent(path)| ensures IsDirectory(t, Parent(path)[..n]) {
      AncestorsExist(t, path, n);
      assert Parent(path)[..n] == path[..n];
    }
  }

  lemma LeafIsItsSubtree(t: Tree, path: Path)
    requires WellFormed(t) && path in t && !IsDirectory(t, path)
    ensures t - {path} == Without(t, path)
  {
    forall p | p in t && Under(path, p) ensures p == path {
      if |p| > |path| {
        assert p[..|path|] == path;
        AncestorsExist(t, p, |path|);
      }
    }
  }

  lemma SmallerSubtree(before: Tree, mid: Tree, dir: Path, names: seq<string>, n: nat)
    requires n < |names| && ChildrenGone(before, mid, dir, names, n) && dir in before
    ensures Subtree(mid, dir + [names[n]]) < Subtree(before, dir)
  {
    forall p | p in Subtree(mid, dir + [names[n]]) ensures p in Subtree(before, dir) && p != dir {
      UnderChild(dir, names[n], p);
    }
    assert dir in Subtree(before, dir);
  }

  lemma StillADirectory(before: Tree, mid: Tree, after: Tree, dir: Path, names: seq<string>, n: nat)
    requires n < |names| && ChildrenGone(before, mid, dir, names, n) && OnlyInside(mid, after, dir + [names[n]])
    requires IsDirectory(before, dir)
    ensures IsDirectory(after, dir)
  {
  }

  lemma ChildrenAreInside(before: Tree, after: Tree, dir: Path, names: seq<string>)
    requires ChildrenGone(before, after, dir, names, |names|)
    ensures OnlyInside(before, after, dir) && (IsDirectory(before, dir) ==> IsDirectory(after, dir))
  {
  }
}
