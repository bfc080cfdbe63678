/**
 The filesystem the build script touches, as a set of path names. The host
 may refuse to change some paths (permissions, files in use): `locked`
 stands for that, and a remove or rename touching a locked path fails.
 */
module Disk {

  /** A path names an existing file. The empty path never does. */
  predicate Exists(files: set<string>, p: string) {
    p != "" && p in files
  }

  predicate CanRemove(files: set<string>, locked: set<string>, p: string) {
    Exists(files, p) && p !in locked
  }

  predicate CanRename(files: set<string>, locked: set<string>, from: string, to: string) {
    Exists(files, from) && from !in locked && to != "" && to !in locked
  }

  /** The files after `from` is renamed to `to`; an existing `to` is replaced. */
  function Renamed(files: set<string>, from: string, to: string): (r: set<string>)
    ensures to in r
    ensures from != to ==> from !in r
    ensures r - {to} == files - {from, to}
  {
    files - {from} + {to}
  }

  class FileSystem {
    var files: set<string>
    const locked: set<string>

    constructor (files: set<string>, locked: set<string>)
      ensures this.files == files && this.locked == locked
    {
      this.files := files;
      this.locked := locked;
    }

    /** os.Remove: fails when the file is missing or locked. */
    method Remove(p: string) returns (ok: bool)
      modifies this`files
      ensures ok == CanRemove(old(files), locked, p)
      ensures files == if ok then old(files) - {p} else old(files)
    {
      ok := CanRemove(files, locked, p);
      if ok {
        files := files - {p};
      }
    }

    /** os.Rename: fails when the source is missing or either path is locked. */
    method Rename(from: string, to: string) returns (ok: bool)
      modifies this`files
      ensures ok == CanRename(old(files), locked, from, to)
      ensures files == if ok then Renamed(old(files), from, to) else old(files)
    {
      ok := CanRename(files, locked, from, to);
      if ok {
        files := Renamed(files, from, to);
      }
    }

    /** An external installer writing the files `added`. */
    method Write(added: set<string>)
      modifies this`files
      ensures files == old(files) + added
    {
      files := files + added;
    }
  }
}
