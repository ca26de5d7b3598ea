/**
  ui2/upgrade.go: replacing the program and its driver library, with renames, copies and removals that
  may fail at any time. Of each file there are three versions, by suffix: none, .new and .old.
*/
module UpgradeSwap {
  import opened Base

  datatype Name = Program | Library

  datatype Path = Live(n: Name) | New(n: Name) | Old(n: Name)

  type Content = Bytes

  type Disk = map<Path, Content>

  const RENAME_ATTEMPTS := 25

  datatype Outcome = Done | Failed | RollbackFailed

  class FileSystem {
    var files: Disk
    /** Renames and copies that failed. */
    ghost var failures: nat

    constructor (files: Disk)
      ensures this.files == files && failures == 0
    {
      this.files := files;
      failures := 0;
    }

    /** os.Rename: the whole file, replacing what was there, or nothing. */
    method Rename(from: Path, to: Path) returns (ok: bool)
      requires from != to
      modifies this
      ensures ok ==> from in old(files) && files == (old(files) - {from})[to := old(files)[from]]
      ensures !ok ==> files == old(files)
      ensures failures == old(failures) + if ok then 0 else 1
    {
      ok := *;
      ok := ok && from in files;
      failures := failures + if ok then 0 else 1;
      if ok {
        files := (files - {from})[to := files[from]];
      }
    }

    method Remove(p: Path) returns (ok: bool)
      modifies this
      ensures files == (if ok then old(files) - {p} else old(files)) && failures == old(failures)
    {
      ok := *;
      if ok {
        files := files - {p};
      }
    }

    /** copyFileOverwrite: a failure may leave anything at the destination. */
    method Copy(from: Path, to: Path) returns (ok: bool)
      requires from != to
      modifies this
      ensures ok ==> from in old(files) && files == old(files)[to := old(files)[from]]
      ensures forall p: Path :: p != to ==> SameAt(old(files), files, p)
      ensures failures == old(failures) + if ok then 0 else 1
    {
      ok := *;
      ok := ok && from in files;
      failures := failures + if ok then 0 else 1;
      if ok {
        files := files[to := files[from]];
        return;
      }
      var touched: bool := *;
      if touched {
        var rest: Content := *;
        files := files[to := rest];
      }
    }

    method RetryRename(from: Path, to: Path) returns (ok: bool)
      requires from != to
      modifies this
      ensures ok ==> from in old(files) && files == (old(files) - {from})[to := old(files)[from]]
      ensures !ok ==> files == old(files)
      ensures if ok then old(failures) <= failures < old(failures) + 25 else failures == old(failures) + 25
    {
      for i := 0 to RENAME_ATTEMPTS
        invariant files == old(files) && failures == old(failures) + i
      {
        ok := Rename(from, to);
        if ok {
          return;
        }
      }
      ok := false;
    }

    /**
      replaceFile: the .new file takes the place of the one in use, which stays as .old; or, if that
      cannot be done, the one in use is what it was before. Whatever fails, its contents are kept.
      Without a file in use before there is nothing to go back to.
    */
    method ReplaceFile(n: Name) returns (r: Outcome)
      requires New(n) in files
      modifies this
      ensures forall p: Path :: p.n != n ==> SameAt(old(files), files, p)
      ensures r.Done? ==> InUse(old(files), files, n)
      ensures r.Failed? ==> Untouched(old(files), files, n)
      ensures Kept(old(files), files, n)
      ensures failures >= old(failures) + if r.Done? then 0 else if r.Failed? then 2 else 27
      ensures r.RollbackFailed? && Live(n) in old(files) ==> Old(n) in files && files[Old(n)] == old(files)[Live(n)]
    {
      var _ := Remove(Old(n));
      if Live(n) in files {
        var moved := RetryRename(Live(n), Old(n));
        if !moved {
          return Failed;
        }
      }
      var ok := Rename(New(n), Live(n));
      if ok {
        return Done;
      }
      ghost var before := files;
      ok := Copy(New(n), Live(n));
      assert SameAt(before, files, Old(n));
      assert forall p: Path :: p.n != n ==> SameAt(before, files, p);
      if !ok {
        if Old(n) in files {
          ok := RetryRename(Old(n), Live(n));
          if !ok {
            return RollbackFailed;
          }
        }
        return Failed;
      }
      var _ := Remove(New(n));
      r := Done;
    }

    /**
      The replacement phase of applyZip, with both files extracted and checked. Unless a rollback fails,
      both files are the new ones, with what was there before as .old, or what was there before is in use
      again: the library if there was one, and the program in any case. Even if a rollback fails, nothing
      is lost.
    */
    method ApplyZip() returns (r: Outcome)
      requires forall n: Name :: New(n) in files
      modifies this
      ensures r.Done? ==> forall n: Name :: InUse(old(files), files, n)
      ensures r.Failed? ==> forall n: Name :: Untouched(old(files), files, n)
      ensures forall n: Name :: Kept(old(files), files, n)
      ensures failures >= old(failures) + if r.Done? then 0 else if r.Failed? then 2 else 27
    {
      r := ReplaceFile(Program);
      assert SameAt(old(files), files, Live(Library)) && SameAt(old(files), files, New(Library));
      if !r.Done? {
        var _ := Remove(New(Program));
        var _ := Remove(New(Library));
        return;
      }
      r := ReplaceFile(Library);
      if r.Done? {
        return;
      }
      if Old(Program) in files {
        var ok := RetryRename(Old(Program), Live(Program));
        if !ok {
          return RollbackFailed;
        }
      }
    }

    /** The same for an archive without the library: it is not touched at all. */
    method ApplyProgramOnly() returns (r: Outcome)
      requires New(Program) in files
      modifies this
      ensures r.Done? ==> InUse(old(files), files, Program)
      ensures r.Failed? ==> Untouched(old(files), files, Program)
      ensures Kept(old(files), files, Program)
      ensures failures >= old(failures) + if r.Done? then 0 else if r.Failed? then 2 else 27
      ensures Untouched(old(files), files, Library) && (Live(Library) in files <==> Live(Library) in old(files))
    {
      r := ReplaceFile(Program);
      if !r.Done? {
        var _ := Remove(New(Program));
      }
    }
  }

  ghost predicate SameAt(before: Disk, after: Disk, p: Path) {
    (p in after <==> p in before) && (p in after ==> after[p] == before[p])
  }

  /** The new file is in use, and the previous one, if there was one, is there as .old. */
  ghost predicate InUse(before: Disk, after: Disk, n: Name)
    requires New(n) in before
  {
    && Live(n) in after && after[Live(n)] == before[New(n)]
    && (Live(n) in before ==> Old(n) in after && after[Old(n)] == before[Live(n)])
  }

  /** A file that was in use before is in use as it was. */
  ghost predicate Untouched(before: Disk, after: Disk, n: Name) {
    Live(n) in before ==> Live(n) in after && after[Live(n)] == before[Live(n)]
  }

  /** The contents of a file that was in use before are still there, in use or as .old. */
  ghost predicate Kept(before: Disk, after: Disk, n: Name) {
    Untouched(before, after, n) || (Old(n) in after && after[Old(n)] == before[Live(n)])
  }
}
