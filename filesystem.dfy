/**
 * The part of the filesystem the driver touches: which paths exist, and the
 * order of the queries and directory creations it performs.
 */
module Filesystem {

  /** One filesystem operation of the driver: an existence check of a path,
      or the creation of a directory path with its parents. */
  datatype FsOp = Checked(path: string) | Created(path: string)

  class FileSystem {
    /** The paths that exist. */
    var existing: set<string>
    /** Every operation performed so far, oldest first. */
    var log: seq<FsOp>

    constructor (existing: set<string>)
      ensures this.existing == existing && log == []
    {
      this.existing := existing;
      log := [];
    }

    /** Whether a path exists (patch_miner.py:83, 94): asks without changing
        anything that exists. */
    method PathExists(path: string) returns (b: bool)
      modifies this`log
      ensures b <==> path in existing
      ensures log == old(log) + [Checked(path)]
    {
      b := path in existing;
      log := log + [Checked(path)];
    }

    /** Create a directory with its parents, accepting one that already
        exists (patch_miner.py:85): afterwards the path exists; nothing that
        existed goes away. */
    method MakeDirs(path: string)
      modifies this
      ensures existing == old(existing) + {path}
      ensures log == old(log) + [Created(path)]
    {
      existing := existing + {path};
      log := log + [Created(path)];
    }
  }
}
