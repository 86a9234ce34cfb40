/**
 * The filesystem as the installers see it: a map from path to node, with
 * the check-then-act operations of `SymlinkFilesystem` and the parts of
 * Composer's `Filesystem` they call. Symlinks are not followed: a path is
 * a directory only when its own node is one.
 */
module Fs {
  import opened Wrappers
  import opened Strings

  type Path = string

  datatype Node = File | Dir | Link(target: Path)

  type Nodes = map<Path, Node>

  datatype FsError =
    | NotADirectory(path: Path)         // ensureDirectoryExists: the path exists and is no directory
    | CannotCreateDirectory(path: Path) // ensureDirectoryExists: mkdir failed
    | CannotRemoveSymlink(path: Path)   // removeSymlink: unlink failed
    | CannotRemoveDirectory(path: Path) // removeEmptyDirectory: the removal failed

  /** The result of an operation that may throw, with the filesystem it leaves behind. */
  datatype Step<T> = Step(result: Result<T, FsError>, nodes: Nodes)

  predicate IsLink(nodes: Nodes, p: Path) { p in nodes && nodes[p].Link? }
  predicate IsDir(nodes: Nodes, p: Path) { p in nodes && nodes[p].Dir? }

  /** `p` is `root` or lies below it. */
  predicate Under(p: Path, root: Path) { p == root || root + "/" <= p }

  /** A directory with nothing below it. */
  predicate IsDirEmpty(nodes: Nodes, p: Path) {
    forall q :: q in nodes ==> !(p + "/" <= q)
  }

  /** `ensureDirectoryExists`: nothing to do for a directory; a path taken by something else, or "", fails. */
  function EnsureDirectoryStep(nodes: Nodes, dir: Path): Step<()> {
    if IsDir(nodes, dir) then Step(Success(()), nodes)
    else if dir in nodes then Step(Failure(NotADirectory(dir)), nodes)
    else if dir == "" then Step(Failure(CannotCreateDirectory(dir)), nodes)
    else Step(Success(()), nodes[dir := Dir])
  }

  /** `relativeSymlink`: `symlink()` fails, returning false, when the link path is taken. */
  function RelativeSymlinkStep(nodes: Nodes, source: Path, link: Path): Step<bool> {
    if link in nodes then Step(Success(false), nodes)
    else Step(Success(true), nodes[link := Link(source)])
  }

  /** `ensureSymlinkExists`: nothing when the link exists; else the parent directory, then the link. */
  function EnsureSymlinkStep(nodes: Nodes, source: Path, link: Path): Step<bool> {
    if IsLink(nodes, link) then Step(Success(false), nodes)
    else
      var d := EnsureDirectoryStep(nodes, Dirname(link));
      if d.result.Failure? then Step(Failure(d.result.error), d.nodes)
      else RelativeSymlinkStep(d.nodes, source, link)
  }

  /** `removeSymlink`: only a link is removed; `unlinkOk` is whether the system's unlink succeeds. */
  function RemoveSymlinkStep(nodes: Nodes, link: Path, unlinkOk: bool): Step<bool> {
    if IsLink(nodes, link) then
      if unlinkOk then Step(Success(true), nodes - {link})
      else Step(Failure(CannotRemoveSymlink(link)), nodes)
    else Step(Success(false), nodes)
  }

  /** `removeEmptyDirectory`: only an empty directory is removed; `rmdirOk` is whether the removal succeeds. */
  function RemoveEmptyDirectoryStep(nodes: Nodes, dir: Path, rmdirOk: bool): Step<bool> {
    if IsDir(nodes, dir) && IsDirEmpty(nodes, dir) then
      if rmdirOk then Step(Success(true), nodes - {dir})
      else Step(Failure(CannotRemoveDirectory(dir)), nodes)
    else Step(Success(false), nodes)
  }

  /** `copy($source, $target)`: every node at or below the source is duplicated at the same place at or below the target. */
  function CopyTree(nodes: Nodes, source: Path, target: Path): Nodes {
    CopiedAreCopies(nodes, source, target);
    map q | q in nodes.Keys + CopiedPaths(nodes, source, target) ::
      if CopiedFrom(nodes, source, target, q) then nodes[source + q[|target|..]] else nodes[q]
  }

  /** The paths a copy writes to. */
  function CopiedPaths(nodes: Nodes, source: Path, target: Path): set<Path> {
    set p | p in nodes && Under(p, source) :: target + p[|source|..]
  }

  /** `q` is the copy of a node at or below the source. */
  predicate CopiedFrom(nodes: Nodes, source: Path, target: Path, q: Path) {
    target <= q && IsRelative(q[|target|..]) && source + q[|target|..] in nodes
  }

  /** The part of a path below a directory: nothing, or something starting with '/'. */
  predicate IsRelative(rel: Path) { rel == [] || rel[0] == '/' }

  lemma CopiedAreCopies(nodes: Nodes, source: Path, target: Path)
    ensures forall q :: q in CopiedPaths(nodes, source, target) ==> CopiedFrom(nodes, source, target, q)
  {
    forall q | q in CopiedPaths(nodes, source, target) ensures CopiedFrom(nodes, source, target, q) {
      var p :| p in nodes && Under(p, source) && q == target + p[|source|..];
      assert q[|target|..] == p[|source|..];
      assert source + p[|source|..] == p;
      if p != source {
        assert p[|source|] == (source + "/")[|source|];
      }
    }
  }

  /** Removing a package's code: everything at or below its path. */
  function RemoveTree(nodes: Nodes, root: Path): Nodes {
    map p | p in nodes && !Under(p, root) :: nodes[p]
  }

  // ---------------------------------------------------------------------
  // What the operations promise.

  /** A path that already is a link: `ensureSymlinkExists` returns false and changes nothing. */
  lemma EnsureSymlinkOnLink(nodes: Nodes, source: Path, link: Path)
    requires IsLink(nodes, link)
    ensures EnsureSymlinkStep(nodes, source, link) == Step(Success(false), nodes)
  {
  }

  /**
   * Otherwise the parent directory is ensured and, when the path is free,
   * a link resolving to the source is created; only the link and its
   * parent directory can change.
   */
  lemma EnsureSymlinkEffect(nodes: Nodes, source: Path, link: Path)
    requires !IsLink(nodes, link)
    ensures var s := EnsureSymlinkStep(nodes, source, link);
      && (s.result.Failure? <==> EnsureDirectoryStep(nodes, Dirname(link)).result.Failure?)
      && (s.result == Success(true) <==> s.result.Success? && link !in nodes && link != Dirname(link))
      && (s.result == Success(true) ==> s.nodes[link] == Link(source))
      && (forall p :: p != link && p != Dirname(link) ==> (p in s.nodes <==> p in nodes))
      && (forall p :: p in nodes && p != link && p != Dirname(link) ==> s.nodes[p] == nodes[p])
  {
  }

  /** Twice in a row: the second call returns false, and the link still resolves to the source. */
  lemma {:induction false} EnsureSymlinkTwice(nodes: Nodes, source: Path, link: Path)
    requires EnsureSymlinkStep(nodes, source, link).result == Success(true)
    ensures var first := EnsureSymlinkStep(nodes, source, link);
      && EnsureSymlinkStep(first.nodes, source, link) == Step(Success(false), first.nodes)
      && first.nodes[link] == Link(source)
  {
    EnsureSymlinkEffect(nodes, source, link);
  }

  /** `removeSymlink` deletes only a link and says so; files, directories and missing paths give false. */
  lemma RemoveSymlinkEffect(nodes: Nodes, link: Path, unlinkOk: bool)
    ensures var s := RemoveSymlinkStep(nodes, link, unlinkOk);
      && (s.result == Success(true) <==> IsLink(nodes, link) && unlinkOk)
      && (s.result.Failure? <==> IsLink(nodes, link) && !unlinkOk)
      && (s.result != Success(true) ==> s.nodes == nodes)
      && (s.result == Success(true) ==> link !in s.nodes)
      && (forall p :: p != link ==> (p in s.nodes <==> p in nodes))
      && (forall p :: p in nodes && p != link ==> s.nodes[p] == nodes[p])
  {
  }

  /** `removeEmptyDirectory` deletes only an existing empty directory; anything else is left as it is. */
  lemma RemoveEmptyDirectoryEffect(nodes: Nodes, dir: Path, rmdirOk: bool)
    ensures var s := RemoveEmptyDirectoryStep(nodes, dir, rmdirOk);
      && (s.result == Success(true) <==> IsDir(nodes, dir) && IsDirEmpty(nodes, dir) && rmdirOk)
      && (s.result.Failure? <==> IsDir(nodes, dir) && IsDirEmpty(nodes, dir) && !rmdirOk)
      && (s.result != Success(true) ==> s.nodes == nodes)
      && (forall p :: p != dir ==> (p in s.nodes <==> p in nodes))
      && (forall p :: p in nodes && p != dir ==> s.nodes[p] == nodes[p])
  {
  }

  /** A second removal finds nothing to remove. */
  lemma RemoveTwice(nodes: Nodes, link: Path, dir: Path)
    ensures var s := RemoveSymlinkStep(nodes, link, true);
      RemoveSymlinkStep(s.nodes, link, true) == Step(Success(false), s.nodes)
    ensures var s := RemoveEmptyDirectoryStep(nodes, dir, true);
      RemoveEmptyDirectoryStep(s.nodes, dir, true) == Step(Success(false), s.nodes)
  {
  }

  /** A copied file: what lies at `source + rel` afterwards lies at `target + rel`. */
  lemma CopyTreeCopies(nodes: Nodes, source: Path, target: Path, rel: Path)
    requires IsRelative(rel) && source + rel in nodes
    ensures target + rel in CopyTree(nodes, source, target)
    ensures CopyTree(nodes, source, target)[target + rel] == nodes[source + rel]
  {
    var p := source + rel;
    assert p[|source|..] == rel;
    if rel != [] {
      assert source + "/" <= p by {
        assert (source + "/")[|source|] == rel[0];
      }
    }
    assert target + rel in CopiedPaths(nodes, source, target);
    assert (target + rel)[|target|..] == rel;
  }

  /** Nothing outside the target is changed by a copy. */
  lemma CopyTreeOutside(nodes: Nodes, source: Path, target: Path, p: Path)
    requires !(target <= p)
    ensures p in CopyTree(nodes, source, target) <==> p in nodes
    ensures p in nodes ==> CopyTree(nodes, source, target)[p] == nodes[p]
  {
  }

  /** Removing a tree empties it and keeps everything else. */
  lemma RemoveTreeEffect(nodes: Nodes, root: Path, p: Path)
    ensures Under(p, root) ==> p !in RemoveTree(nodes, root)
    ensures !Under(p, root) ==> (p in RemoveTree(nodes, root) <==> p in nodes)
    ensures !Under(p, root) && p in nodes ==> RemoveTree(nodes, root)[p] == nodes[p]
  {
  }

  /**
   * `SymlinkFilesystem`: Composer's `Filesystem` with three operations of
   * its own. `nodes` is the disk it acts on.
   */
  class SymlinkFilesystem {
    var nodes: Nodes

    constructor(initial: Nodes)
      ensures nodes == initial
    {
      nodes := initial;
    }

    /** Composer's `ensureDirectoryExists`. */
    method EnsureDirectoryExists(dir: Path) returns (r: Result<(), FsError>)
      modifies this
      ensures Step(r, nodes) == EnsureDirectoryStep(old(nodes), dir)
    {
      if !IsDir(nodes, dir) {
        if dir in nodes {
          return Failure(NotADirectory(dir));
        }
        if dir == "" {
          return Failure(CannotCreateDirectory(dir));
        }
        nodes := nodes[dir := Dir];
      }
      return Success(());
    }

    /** Composer's `relativeSymlink`. */
    method RelativeSymlink(source: Path, link: Path) returns (ok: bool)
      modifies this
      ensures Step(Success(ok), nodes) == RelativeSymlinkStep(old(nodes), source, link)
    {
      if link in nodes {
        return false;
      }
      nodes := nodes[link := Link(source)];
      return true;
    }

    method EnsureSymlinkExists(source: Path, link: Path) returns (r: Result<bool, FsError>)
      modifies this
      ensures Step(r, nodes) == EnsureSymlinkStep(old(nodes), source, link)
    {
      if !IsLink(nodes, link) {
        var d := EnsureDirectoryExists(Dirname(link));
        if d.Failure? {
          return Failure(d.error);
        }
        var ok := RelativeSymlink(source, link);
        return Success(ok);
      }
      return Success(false);
    }

    method RemoveSymlink(link: Path, unlinkOk: bool) returns (r: Result<bool, FsError>)
      modifies this
      ensures Step(r, nodes) == RemoveSymlinkStep(old(nodes), link, unlinkOk)
    {
      if IsLink(nodes, link) {
        if !unlinkOk {
          return Failure(CannotRemoveSymlink(link));
        }
        nodes := nodes - {link};
        return Success(true);
      }
      return Success(false);
    }

    method RemoveEmptyDirectory(dir: Path, rmdirOk: bool) returns (r: Result<bool, FsError>)
      modifies this
      ensures Step(r, nodes) == RemoveEmptyDirectoryStep(old(nodes), dir, rmdirOk)
    {
      if IsDir(nodes, dir) && IsDirEmpty(nodes, dir) {
        if !rmdirOk {
          return Failure(CannotRemoveDirectory(dir));
        }
        nodes := nodes - {dir};
        return Success(true);
      }
      return Success(false);
    }

    /** Composer's `copy`. */
    method Copy(source: Path, target: Path)
      modifies this
      ensures nodes == CopyTree(old(nodes), source, target)
    {
      nodes := CopyTree(nodes, source, target);
    }
  }
}
