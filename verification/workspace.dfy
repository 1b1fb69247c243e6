/** The mutable filesystem the scripts change step by step, and the warnings they print. */
module Workspaces {
  import opened Wrappers
  import opened FileTree

  /** How a filesystem call ended: done, or an uncaught `OSError`. */
  datatype Status = Done | Crashed(error: OsError) {
    predicate IsFailure() { Crashed? }

    function PropagateFailure(): Status
      requires Crashed?
    {
      this
    }
  }

  /** The `Status` of a call whose result is `r`. */
  function StatusOf<T>(r: FsResult<T>): Status {
    if r.Success? then Done else Crashed(r.error)
  }

  /** The filesystem and the warnings printed so far. */
  class Workspace {
    var tree: Tree
    var warnings: seq<Warning>

    constructor (initial: Tree)
      ensures tree == initial && warnings == []
    {
      tree := initial;
      warnings := [];
    }

    /** Prints a warning. */
    method Warn(w: Warning)
      modifies this
      ensures tree == old(tree) && warnings == old(warnings) + [w]
    {
      warnings := warnings + [w];
    }

    /** Performs a call whose result on the current tree is `r`; on an error the tree is
        left as it was. */
    method Perform(r: FsResult<Tree>) returns (st: Status)
      modifies this
      ensures st == StatusOf(r) && warnings == old(warnings)
      ensures tree == if r.Success? then r.value else old(tree)
    {
      if r.Failure? {
        return Crashed(r.error);
      }
      tree := r.value;
      return Done;
    }

    method MakeDirs(p: Path, existOk: bool) returns (st: Status)
      modifies this
      ensures st == StatusOf(FileTree.MakeDirs(old(tree), p, existOk)) && warnings == old(warnings)
      ensures st.Done? ==> tree == FileTree.MakeDirs(old(tree), p, existOk).value
    {
      st := Perform(FileTree.MakeDirs(tree, p, existOk));
    }

    method MakeDir(p: Path, existOk: bool) returns (st: Status)
      modifies this
      ensures st == StatusOf(FileTree.MakeDir(old(tree), p, existOk)) && warnings == old(warnings)
      ensures st.Done? ==> tree == FileTree.MakeDir(old(tree), p, existOk).value
    {
      st := Perform(FileTree.MakeDir(tree, p, existOk));
    }

    method WriteFile(p: Path, c: Content) returns (st: Status)
      modifies this
      ensures st == StatusOf(FileTree.WriteFile(old(tree), p, c)) && warnings == old(warnings)
      ensures st.Done? ==> tree == FileTree.WriteFile(old(tree), p, c).value
    {
      st := Perform(FileTree.WriteFile(tree, p, c));
    }

    method Chmod(p: Path, mode: nat) returns (st: Status)
      modifies this
      ensures st == StatusOf(FileTree.Chmod(old(tree), p, mode)) && warnings == old(warnings)
      ensures st.Done? ==> tree == FileTree.Chmod(old(tree), p, mode).value
    {
      st := Perform(FileTree.Chmod(tree, p, mode));
    }

    method CopyFile(src: Path, dst: Path) returns (st: Status)
      modifies this
      ensures st == StatusOf(FileTree.CopyFile(old(tree), src, dst)) && warnings == old(warnings)
      ensures st.Done? ==> tree == FileTree.CopyFile(old(tree), src, dst).value
    {
      st := Perform(FileTree.CopyFile(tree, src, dst));
    }

    method CopyTree(src: Path, dst: Path, dirsExistOk: bool) returns (st: Status)
      modifies this
      ensures st == StatusOf(FileTree.CopyTree(old(tree), src, dst, dirsExistOk))
      ensures warnings == old(warnings)
      ensures st.Done? ==> tree == FileTree.CopyTree(old(tree), src, dst, dirsExistOk).value
    {
      st := Perform(FileTree.CopyTree(tree, src, dst, dirsExistOk));
    }

    method Unlink(p: Path) returns (st: Status)
      modifies this
      ensures st == StatusOf(FileTree.Unlink(old(tree), p)) && warnings == old(warnings)
      ensures st.Done? ==> tree == FileTree.Unlink(old(tree), p).value
    {
      st := Perform(FileTree.Unlink(tree, p));
    }

    method Move(src: Path, dst: Path) returns (st: Status)
      requires dst !in tree
      modifies this
      ensures st == StatusOf(FileTree.Move(old(tree), src, dst)) && warnings == old(warnings)
      ensures st.Done? ==> tree == FileTree.Move(old(tree), src, dst).value
    {
      st := Perform(FileTree.Move(tree, src, dst));
    }

    method RemoveTree(p: Path) returns (st: Status)
      modifies this
      ensures st == StatusOf(FileTree.RemoveTree(old(tree), p)) && warnings == old(warnings)
      ensures st.Done? ==> tree == FileTree.RemoveTree(old(tree), p).value
    {
      st := Perform(FileTree.RemoveTree(tree, p));
    }
  }
}
