/**
 Removing build leftovers: each cleanup pattern is expanded against the
 filesystem as it is at that moment and every match is removed, stopping at
 the first pattern that cannot be expanded or file that cannot be removed.
 Pattern expansion is a host oracle.
 */
module Cleanup {
  import opened Wrappers
  import opened Disk

  /** The leftovers of tests and builds, in the order they are cleaned. */
  const CleanupFiles: seq<string> := [
    "*cover.out",
    "*.log",
    "./cmd/go-mage/versioninfo.json",
    "./cmd/go-mage/*.syso",
    "./build/go-mage_*"]

  /** filepath.Glob: the paths a pattern matches in a filesystem, or None for a malformed pattern. */
  type Glob = (string, set<string>) -> Option<seq<string>>

  datatype CleanError = GlobFailed(pattern: string) | RemoveFailed(path: string)

  datatype Outcome = Outcome(err: Option<CleanError>, files: set<string>)

  /** The inner loop: remove the paths in order, stopping at the first that cannot be removed. */
  function RemoveAll(paths: seq<string>, files: set<string>, locked: set<string>): (r: Outcome)
    ensures r.files <= files
    ensures r.err.Some? ==> r.err.value.RemoveFailed? && !CanRemove(r.files, locked, r.err.value.path)
    decreases |paths|
  {
    if |paths| == 0 then Outcome(None, files)
    else if !CanRemove(files, locked, paths[0]) then Outcome(Some(RemoveFailed(paths[0])), files)
    else RemoveAll(paths[1..], files - {paths[0]}, locked)
  }

  /** Clean: expand and remove each pattern in order, stopping at the first error. */
  function CleanAll(patterns: seq<string>, files: set<string>, locked: set<string>, glob: Glob): (r: Outcome)
    ensures r.files <= files
    decreases |patterns|
  {
    if |patterns| == 0 then Outcome(None, files)
    else match glob(patterns[0], files)
      case None => Outcome(Some(GlobFailed(patterns[0])), files)
      case Some(matches) =>
        var r := RemoveAll(matches, files, locked);
        if r.err.Some? then r else CleanAll(patterns[1..], r.files, locked, glob)
  }

  function Elements(s: seq<string>): set<string> {
    set k | 0 <= k < |s| :: s[k]
  }

  /**
   Removing a list succeeds exactly when each path exists, is not locked and
   does not repeat an earlier one; it then removes exactly those paths.
   */
  lemma {:induction false} RemoveAllSucceedsIff(paths: seq<string>, files: set<string>, locked: set<string>)
    ensures var r := RemoveAll(paths, files, locked);
      && (r.err.None? <==> forall k :: 0 <= k < |paths| ==>
            CanRemove(files, locked, paths[k]) && forall j :: 0 <= j < k ==> paths[j] != paths[k])
      && (r.err.None? ==> r.files == files - Elements(paths))
    decreases |paths|
  {
    if |paths| > 0 {
      var rest := paths[1..];
      var files1 := files - {paths[0]};
      RemoveAllSucceedsIff(rest, files1, locked);
      assert forall k :: 1 <= k < |paths| ==> paths[k] == rest[k - 1];
      assert Elements(paths) == {paths[0]} + Elements(rest) by {
        forall x | x in Elements(paths) ensures x in {paths[0]} + Elements(rest) {
          var k :| 0 <= k < |paths| && paths[k] == x;
          if k > 0 { assert rest[k - 1] == x; }
        }
      }
      // for the first path: CanRemove in `files` gives CanRemove in `files1` for the others, unless it repeats
      forall k | 1 <= k < |paths|
        ensures CanRemove(files1, locked, paths[k]) <==> CanRemove(files, locked, paths[k]) && paths[0] != paths[k]
      {
      }
    }
  }

  /** Removing a list only ever removes listed paths. */
  lemma {:induction false} RemoveAllOnlyRemovesListed(paths: seq<string>, files: set<string>, locked: set<string>)
    ensures var r := RemoveAll(paths, files, locked);
      r.files <= files && files - r.files <= Elements(paths)
    decreases |paths|
  {
    if |paths| > 0 {
      RemoveAllOnlyRemovesListed(paths[1..], files - {paths[0]}, locked);
      assert Elements(paths[1..]) <= Elements(paths) by {
        forall x | x in Elements(paths[1..]) ensures x in Elements(paths) {
          var k :| 0 <= k < |paths[1..]| && paths[1..][k] == x;
          assert paths[k + 1] == x;
        }
      }
    }
  }

  /**
   What the patterns match along the way: each pattern's matches against the
   filesystem left by the earlier patterns, up to the first malformed pattern.
   */
  function Matched(patterns: seq<string>, files: set<string>, glob: Glob): set<string>
    decreases |patterns|
  {
    if |patterns| == 0 then {}
    else match glob(patterns[0], files)
      case None => {}
      case Some(m) => Elements(m) + Matched(patterns[1..], files - Elements(m), glob)
  }

  /** Cleaning never creates files, and removes only files that some pattern matched. */
  lemma {:induction false} CleanRemovesOnlyMatched(patterns: seq<string>, files: set<string>, locked: set<string>, glob: Glob)
    ensures var r := CleanAll(patterns, files, locked, glob);
      r.files <= files && files - r.files <= Matched(patterns, files, glob)
    decreases |patterns|
  {
    if |patterns| > 0 && glob(patterns[0], files).Some? {
      var m := glob(patterns[0], files).value;
      var r0 := RemoveAll(m, files, locked);
      RemoveAllOnlyRemovesListed(m, files, locked);
      if r0.err.None? {
        RemoveAllSucceedsIff(m, files, locked);
        CleanRemovesOnlyMatched(patterns[1..], r0.files, locked, glob);
      }
    }
  }

  /**
   A successful clean removes exactly the files the patterns matched, each of
   which existed when its pattern was expanded.
   */
  lemma {:induction false} CleanSuccessRemovesExactlyMatched(patterns: seq<string>, files: set<string>, locked: set<string>, glob: Glob)
    ensures var r := CleanAll(patterns, files, locked, glob);
      r.err.None? ==> (Matched(patterns, files, glob) <= files && r.files == files - Matched(patterns, files, glob))
    decreases |patterns|
  {
    if |patterns| > 0 && glob(patterns[0], files).Some? {
      var m := glob(patterns[0], files).value;
      var r0 := RemoveAll(m, files, locked);
      RemoveAllSucceedsIff(m, files, locked);
      if r0.err.None? {
        assert Elements(m) <= files;
        CleanSuccessRemovesExactlyMatched(patterns[1..], r0.files, locked, glob);
      }
    }
  }

  /**
   The first `k` patterns were cleaned without error and the k-th failed:
   either it could not be expanded, or removing its matches failed. The
   outcome is exactly that, so no later pattern was expanded.
   */
  predicate CleanFailsAt(patterns: seq<string>, files: set<string>, locked: set<string>, glob: Glob, k: nat, r: Outcome)
    requires k < |patterns|
  {
    var p := CleanAll(patterns[..k], files, locked, glob);
    && p.err.None?
    && match glob(patterns[k], p.files)
       case None => r == Outcome(Some(GlobFailed(patterns[k])), p.files)
       case Some(m) => r == RemoveAll(m, p.files, locked) && r.err.Some?
  }

  /** When the first pattern is cleaned without error, cleaning a prefix is that followed by the rest of the prefix. */
  lemma CleanAllPrefix(patterns: seq<string>, files: set<string>, locked: set<string>, glob: Glob, k: nat)
    requires k < |patterns| && glob(patterns[0], files).Some?
    requires RemoveAll(glob(patterns[0], files).value, files, locked).err.None?
    ensures CleanAll(patterns[..k + 1], files, locked, glob)
         == CleanAll(patterns[1..][..k], RemoveAll(glob(patterns[0], files).value, files, locked).files, locked, glob)
  {
    assert patterns[..k + 1][0] == patterns[0] && patterns[..k + 1][1..] == patterns[1..][..k];
  }

  /** A failed clean stops at its first failing pattern. */
  lemma {:induction false} CleanStopsAtFirstFailure(patterns: seq<string>, files: set<string>, locked: set<string>, glob: Glob)
    ensures var r := CleanAll(patterns, files, locked, glob);
      r.err.Some? ==> exists k :: 0 <= k < |patterns| && CleanFailsAt(patterns, files, locked, glob, k, r)
    decreases |patterns|
  {
    var r := CleanAll(patterns, files, locked, glob);
    if |patterns| > 0 && r.err.Some? {
      assert patterns[..0] == [];
      if glob(patterns[0], files).None? || RemoveAll(glob(patterns[0], files).value, files, locked).err.Some? {
        assert CleanFailsAt(patterns, files, locked, glob, 0, r);
      } else {
        var r0 := RemoveAll(glob(patterns[0], files).value, files, locked);
        CleanStopsAtFirstFailure(patterns[1..], r0.files, locked, glob);
        var k :| 0 <= k < |patterns[1..]| && CleanFailsAt(patterns[1..], r0.files, locked, glob, k, r);
        assert patterns[k + 1] == patterns[1..][k];
        CleanAllPrefix(patterns, files, locked, glob, k);
        assert CleanFailsAt(patterns, files, locked, glob, k + 1, r);
      }
    }
  }

  /**
   A failed clean reports one of the patterns or one of the files some
   pattern matched; it is the first pattern that failed, after every earlier
   pattern was cleaned and before any later one was expanded.
   */
  lemma {:induction false} CleanErrorIsAttributed(patterns: seq<string>, files: set<string>, locked: set<string>, glob: Glob)
    ensures var r := CleanAll(patterns, files, locked, glob);
      r.err.Some? ==> match r.err.value
        case GlobFailed(p) => p in patterns
        case RemoveFailed(f) => f in Matched(patterns, files, glob)
    ensures var r := CleanAll(patterns, files, locked, glob);
      r.err.Some? ==> exists k :: 0 <= k < |patterns| && CleanFailsAt(patterns, files, locked, glob, k, r)
    decreases |patterns|
  {
    CleanStopsAtFirstFailure(patterns, files, locked, glob);
    if |patterns| > 0 && glob(patterns[0], files).Some? {
      var m := glob(patterns[0], files).value;
      var r0 := RemoveAll(m, files, locked);
      RemoveAllFailureNamesListed(m, files, locked);
      if r0.err.None? {
        RemoveAllSucceedsIff(m, files, locked);
        CleanErrorIsAttributed(patterns[1..], r0.files, locked, glob);
      }
    }
  }

  /** The first `k` paths were removed and the k-th could not be: the outcome is exactly that. */
  predicate RemoveFailsAt(paths: seq<string>, files: set<string>, locked: set<string>, k: nat, r: Outcome)
    requires k < |paths|
  {
    && r.err == Some(RemoveFailed(paths[k]))
    && !CanRemove(r.files, locked, paths[k])
    && RemoveAll(paths[..k], files, locked) == Outcome(None, r.files)
  }

  /** When the first path can be removed, removing a prefix is removing it and then the rest of the prefix. */
  lemma RemoveAllPrefix(paths: seq<string>, files: set<string>, locked: set<string>, k: nat)
    requires k < |paths| && CanRemove(files, locked, paths[0])
    ensures RemoveAll(paths[..k + 1], files, locked) == RemoveAll(paths[1..][..k], files - {paths[0]}, locked)
  {
    assert paths[..k + 1][0] == paths[0] && paths[..k + 1][1..] == paths[1..][..k];
  }

  /**
   A failed removal names a listed path that could not be removed: the first
   such path, after every path before it was removed and before any path after
   it was tried.
   */
  lemma {:induction false} RemoveAllFailureNamesListed(paths: seq<string>, files: set<string>, locked: set<string>)
    ensures var r := RemoveAll(paths, files, locked);
      r.err.Some? ==> (r.err.value.RemoveFailed? && r.err.value.path in Elements(paths)
        && !CanRemove(r.files, locked, r.err.value.path))
    ensures var r := RemoveAll(paths, files, locked);
      r.err.Some? ==> exists k :: 0 <= k < |paths| && RemoveFailsAt(paths, files, locked, k, r)
    decreases |paths|
  {
    var r := RemoveAll(paths, files, locked);
    if |paths| > 0 {
      if !CanRemove(files, locked, paths[0]) {
        assert paths[..0] == [];
        assert RemoveFailsAt(paths, files, locked, 0, r);
      } else {
        RemoveAllFailureNamesListed(paths[1..], files - {paths[0]}, locked);
        if r.err.Some? {
          var k :| 0 <= k < |paths[1..]| && RemoveFailsAt(paths[1..], files - {paths[0]}, locked, k, r);
          assert paths[k + 1] == paths[1..][k];
          RemoveAllPrefix(paths, files, locked, k);
          assert RemoveFailsAt(paths, files, locked, k + 1, r);
        }
      }
    }
    if r.err.Some? {
      var k :| 0 <= k < |paths| && RemoveFailsAt(paths, files, locked, k, r);
      assert paths[k] in Elements(paths);
    }
  }
}
