/**
 The helper tools the build needs, and a specification of how one is
 resolved to an executable path: look for the version-qualified file in four
 candidate places, otherwise install the tool, find the freshly installed
 plain file, rename it to the version-qualified name and remember that path.

 The host is an input: its GOPATH and GOBIN directories, whether fetching an
 install script succeeds, and what installing a tool writes to disk.
 */
module Tools {
  import opened Wrappers
  import opened Text
  import opened FilePath
  import opened Disk

  datatype Tool = Tool(name: string, address: string, version: string, isRepo: bool)

  const LinterVersion: string := "v1.52.2"
  const VersionInfoVersion: string := "v1.4.0"
  const GocovVersion: string := "v1.1.0"

  /** The tools every task makes sure of, in the order they are resolved. */
  const ToolInfo: seq<Tool> := [
    Tool("goversioninfo", "github.com/josephspurrier/goversioninfo/cmd/goversioninfo", VersionInfoVersion, true),
    Tool("golangci-lint", "https://raw.githubusercontent.com/golangci/golangci-lint/master/install.sh", LinterVersion, false),
    Tool("gocov", "github.com/axw/gocov/gocov", GocovVersion, true),
    Tool("govulncheck", "golang.org/x/vuln/cmd/govulncheck", "latest", true)]

  /**
   The host environment: the Go workspace directories, whether fetching an
   install script from an address succeeds, and the installer's effect on a
   tool (None: the install command failed; Some(added): the files it wrote).
   */
  datatype Host = Host(
    gopath: string,
    gobin: string,
    fetch: string -> bool,
    install: Tool -> Option<set<string>>)

  datatype Failure =
    | InstallFailed
    | FetchFailed
    | NotFoundAfterInstall
    | RenameFailed(from: string, to: string)

  /** Every resolution failure names the tool it happened to. */
  datatype ToolError = ToolError(tool: string, failure: Failure)

  /** A Go map read: the stored value, or "" for a missing key. */
  function Lookup(m: map<string, string>, k: string): string {
    if k in m then m[k] else ""
  }

  function ExeSuffix(goos: string): (r: string)
    ensures r == ".exe" <==> goos == "windows"
    ensures r == "" <==> goos != "windows"
  {
    if goos == "windows" then ".exe" else ""
  }

  /** The file name an installer writes. */
  function PlainName(t: Tool, goos: string): (r: string)
  {
    var r := t.name + ExeSuffix(goos);
    assert r[|t.name|..] == ExeSuffix(goos);
    r
  }

  /** The file name the resolver keeps the tool under: the name with "-" and the version inserted before the suffix. */
  function QualifiedName(t: Tool, goos: string): (r: string)
  {
    var r := t.name + "-" + t.version + ExeSuffix(goos);
    assert r[|t.name + "-" + t.version|..] == ExeSuffix(goos);
    r
  }

  /** The two names share the tool name and the ".exe"-iff-windows suffix, and differ. */
  lemma FileNames(t: Tool, goos: string)
    ensures StartsWith(PlainName(t, goos), t.name) && StartsWith(QualifiedName(t, goos), t.name + "-" + t.version)
    ensures EndsWith(PlainName(t, goos), ".exe") <== goos == "windows"
    ensures EndsWith(QualifiedName(t, goos), ".exe") <== goos == "windows"
    ensures goos != "windows" ==> PlainName(t, goos) == t.name && QualifiedName(t, goos) == t.name + "-" + t.version
    ensures |PlainName(t, goos)| == |t.name| + (if goos == "windows" then 4 else 0)
    ensures |QualifiedName(t, goos)| == |PlainName(t, goos)| + 1 + |t.version|
    ensures PlainName(t, goos) != QualifiedName(t, goos)
  {
    var q := QualifiedName(t, goos);
    assert q[..|t.name|] == t.name;
    assert q[..|t.name + "-" + t.version|] == t.name + "-" + t.version;
    assert PlainName(t, goos)[..|t.name|] == t.name;
  }

  /** The directory for one target platform inside a bin directory, "goos_arch". */
  function PlatformDir(goos: string, arch: string): string {
    goos + "_" + arch
  }

  /** The four places probed for a file, in order. */
  function Candidates(gopath: string, gobin: string, goos: string, arch: string, f: string): (r: seq<string>)
    ensures |r| == 4
  {
    [Join(Join(gopath, "bin"), f),
     Join(Join(Join(gopath, "bin"), PlatformDir(goos, arch)), f),
     Join(gobin, f),
     Join(Join(gobin, PlatformDir(goos, arch)), f)]
  }

  /** The directories of the four candidates, in the same order. */
  function CandidateDirs(gopath: string, gobin: string, goos: string, arch: string): (r: seq<string>)
    ensures |r| == 4
    ensures forall i, f :: 0 <= i < 4 ==> Candidates(gopath, gobin, goos, arch, f)[i] == Join(r[i], f)
    ensures gobin != "" ==> forall i :: 0 <= i < 4 ==> r[i] != ""
  {
    [Join(gopath, "bin"),
     Join(Join(gopath, "bin"), PlatformDir(goos, arch)),
     gobin,
     Join(gobin, PlatformDir(goos, arch))]
  }

  /** The index of the first candidate that exists. */
  function FirstMatch(files: set<string>, cands: seq<string>): (r: Option<nat>)
    ensures r.Some? ==> r.value < |cands| && Exists(files, cands[r.value])
    ensures r.Some? ==> forall j :: 0 <= j < r.value ==> !Exists(files, cands[j])
    ensures r.None? <==> forall j :: 0 <= j < |cands| ==> !Exists(files, cands[j])
  {
    if |cands| == 0 then None
    else if Exists(files, cands[0]) then Some(0)
    else match FirstMatch(files, cands[1..])
      case None => None
      case Some(i) => Some(i + 1)
  }

  /** locateBinPath: the first of the four candidates for `f` that exists. */
  function Locate(files: set<string>, gopath: string, gobin: string, goos: string, arch: string, f: string): (r: Option<string>)
    ensures r.Some? ==> Exists(files, r.value) && r.value in Candidates(gopath, gobin, goos, arch, f)
    ensures r.None? <==> forall j :: 0 <= j < 4 ==> !Exists(files, Candidates(gopath, gobin, goos, arch, f)[j])
  {
    match FirstMatch(files, Candidates(gopath, gobin, goos, arch, f))
    case None => None
    case Some(i) => Some(Candidates(gopath, gobin, goos, arch, f)[i])
  }

  /** The located path is a candidate that exists and every earlier candidate is missing; none is located iff all are missing. */
  lemma LocateFirstExisting(files: set<string>, gopath: string, gobin: string, goos: string, arch: string, f: string)
    ensures var cands := Candidates(gopath, gobin, goos, arch, f);
      match Locate(files, gopath, gobin, goos, arch, f)
      case Some(p) => exists i :: 0 <= i < 4 && cands[i] == p && Exists(files, p)
                       && forall j :: 0 <= j < i ==> !Exists(files, cands[j])
      case None => forall j :: 0 <= j < 4 ==> !Exists(files, cands[j])
  {
    var cands := Candidates(gopath, gobin, goos, arch, f);
    var m := FirstMatch(files, cands);
    if m.Some? {
      var i := m.value;
      assert cands[i] == Locate(files, gopath, gobin, goos, arch, f).value;
    }
  }

  /** The state after resolving one tool, and whether an installer was run. */
  datatype Step = Step(err: Option<ToolError>, tools: map<string, string>, files: set<string>, ranInstaller: bool)

  /** installTool as a function of the cache, the files, the host and the target platform. */
  function InstallStep(tools: map<string, string>, files: set<string>, locked: set<string>,
                       host: Host, goos: string, arch: string, tool: Tool): (r: Step)
    ensures r.err.None? ==> Lookup(r.tools, tool.name) != ""
    ensures r.err.Some? ==> r.tools == tools && Lookup(tools, tool.name) == "" && r.err.value.tool == tool.name
    ensures !r.ranInstaller ==> r.files == files
  {
    if Lookup(tools, tool.name) != "" then Step(None, tools, files, false)
    else
      var plain := PlainName(tool, goos);
      var qualified := QualifiedName(tool, goos);
      match Locate(files, host.gopath, host.gobin, goos, arch, qualified)
      case Some(p) => Step(None, tools[tool.name := p], files, false)
      case None =>
        if !tool.isRepo && !host.fetch(tool.address) then
          Step(Some(ToolError(tool.name, FetchFailed)), tools, files, false)
        else match host.install(tool)
          case None => Step(Some(ToolError(tool.name, InstallFailed)), tools, files, true)
          case Some(added) =>
            var installed := files + added;
            match Locate(installed, host.gopath, host.gobin, goos, arch, plain)
            case None => Step(Some(ToolError(tool.name, NotFoundAfterInstall)), tools, installed, true)
            case Some(p) =>
              var target := Join(Dir(p), qualified);
              if CanRename(installed, locked, p, target) then
                Step(None, tools[tool.name := target], Renamed(installed, p, target), true)
              else
                Step(Some(ToolError(tool.name, RenameFailed(p, target))), tools, installed, true)
  }

  /** A cached tool is not looked up again: nothing changes and nothing is installed. */
  lemma CacheHitChangesNothing(tools: map<string, string>, files: set<string>, locked: set<string>,
                               host: Host, goos: string, arch: string, tool: Tool)
    requires Lookup(tools, tool.name) != ""
    ensures InstallStep(tools, files, locked, host, goos, arch, tool) == Step(None, tools, files, false)
  {
  }

  /**
   When the version-qualified file exists at any of the four candidates, the
   first existing candidate is recorded, no installer runs and no file changes.
   */
  lemma QualifiedFoundSkipsInstall(tools: map<string, string>, files: set<string>, locked: set<string>,
                                   host: Host, goos: string, arch: string, tool: Tool, i: nat)
    requires Lookup(tools, tool.name) == ""
    requires i < 4 && Exists(files, Candidates(host.gopath, host.gobin, goos, arch, QualifiedName(tool, goos))[i])
    ensures var s := InstallStep(tools, files, locked, host, goos, arch, tool);
      var cands := Candidates(host.gopath, host.gobin, goos, arch, QualifiedName(tool, goos));
      && s.err == None && !s.ranInstaller && s.files == files
      && s.tools.Keys == tools.Keys + {tool.name}
      && exists j :: 0 <= j <= i && s.tools[tool.name] == cands[j] && Exists(files, cands[j])
  {
    var cands := Candidates(host.gopath, host.gobin, goos, arch, QualifiedName(tool, goos));
    var m := FirstMatch(files, cands);
    assert m.Some? && m.value <= i;
  }

  /** Every failure leaves the cache as it was, so the tool stays unresolved; no file is removed. */
  lemma FailureLeavesCacheUnset(tools: map<string, string>, files: set<string>, locked: set<string>,
                                host: Host, goos: string, arch: string, tool: Tool)
    ensures var s := InstallStep(tools, files, locked, host, goos, arch, tool);
      s.err.Some? ==> (s.tools == tools && Lookup(s.tools, tool.name) == "" && files <= s.files
        && s.err.value.tool == tool.name)
  {
  }

  /** Only the tool's own cache entry may change, and only from empty to non-empty. */
  lemma StepTouchesOnlyItsEntry(tools: map<string, string>, files: set<string>, locked: set<string>,
                                host: Host, goos: string, arch: string, tool: Tool)
    ensures var s := InstallStep(tools, files, locked, host, goos, arch, tool);
      && s.tools.Keys <= tools.Keys + {tool.name}
      && (forall k :: k != tool.name ==> Lookup(s.tools, k) == Lookup(tools, k))
      && (forall k :: Lookup(tools, k) != "" ==> Lookup(s.tools, k) == Lookup(tools, k))
  {
  }

  /** Each candidate for a non-empty file name ends with that name. */
  lemma CandidatesEndWith(gopath: string, gobin: string, goos: string, arch: string, f: string)
    requires f != ""
    ensures forall i :: 0 <= i < 4 ==> EndsWith(Candidates(gopath, gobin, goos, arch, f)[i], f)
  {
    var dirs := CandidateDirs(gopath, gobin, goos, arch);
    forall i | 0 <= i < 4 ensures EndsWith(Candidates(gopath, gobin, goos, arch, f)[i], f) {
      JoinEndsWith(dirs[i], f);
    }
  }

  /** On success the tool has a non-empty entry, and a freshly resolved one ends in the version-qualified name. */
  lemma SuccessRecordsQualifiedPath(tools: map<string, string>, files: set<string>, locked: set<string>,
                                    host: Host, goos: string, arch: string, tool: Tool)
    ensures var s := InstallStep(tools, files, locked, host, goos, arch, tool);
      s.err.None? ==> (Lookup(s.tools, tool.name) != ""
        && (Lookup(tools, tool.name) == "" ==> EndsWith(s.tools[tool.name], QualifiedName(tool, goos))))
  {
    var q := QualifiedName(tool, goos);
    if Lookup(tools, tool.name) == "" {
      match Locate(files, host.gopath, host.gobin, goos, arch, q)
      case Some(p) =>
        LocateFirstExisting(files, host.gopath, host.gobin, goos, arch, q);
        CandidatesEndWith(host.gopath, host.gobin, goos, arch, q);
      case None =>
        var plain := PlainName(tool, goos);
        if (tool.isRepo || host.fetch(tool.address)) && host.install(tool).Some? {
          var installed := files + host.install(tool).value;
          match Locate(installed, host.gopath, host.gobin, goos, arch, plain)
          case None =>
          case Some(p) =>
            JoinEndsWith(Dir(p), q);
        }
    }
  }

  /**
   Renaming the i-th candidate for one slash-free name to the other name
   within its directory gives the i-th candidate for the other name.
   */
  lemma SiblingCandidate(gopath: string, gobin: string, goos: string, arch: string, f: string, g: string, i: nat)
    requires gobin != "" && i < 4
    requires f != "" && '/' !in f && g != ""
    ensures Join(Dir(Candidates(gopath, gobin, goos, arch, f)[i]), g) == Candidates(gopath, gobin, goos, arch, g)[i]
  {
    var dirs := CandidateDirs(gopath, gobin, goos, arch);
    DirOfJoin(dirs[i], f);
  }

  /** What a successful step that ran the installer did: install, locate the plain file, rename it. */
  lemma InstallBranchShape(tools: map<string, string>, files: set<string>, locked: set<string>,
                           host: Host, goos: string, arch: string, tool: Tool)
    requires var s := InstallStep(tools, files, locked, host, goos, arch, tool); s.err.None? && s.ranInstaller
    ensures Lookup(tools, tool.name) == ""
    ensures Locate(files, host.gopath, host.gobin, goos, arch, QualifiedName(tool, goos)).None?
    ensures host.install(tool).Some?
    ensures var installed := files + host.install(tool).value;
      var located := Locate(installed, host.gopath, host.gobin, goos, arch, PlainName(tool, goos));
      && located.Some?
      && var target := Join(Dir(located.value), QualifiedName(tool, goos));
      && CanRename(installed, locked, located.value, target)
      && InstallStep(tools, files, locked, host, goos, arch, tool)
         == Step(None, tools[tool.name := target], Renamed(installed, located.value, target), true)
  {
  }

  /** Both file names of a tool with a non-empty, slash-free name and version are non-empty and slash-free. */
  lemma NamesSlashFree(tool: Tool, goos: string)
    requires tool.name != "" && '/' !in tool.name && '/' !in tool.version
    ensures PlainName(tool, goos) != "" && '/' !in PlainName(tool, goos)
    ensures QualifiedName(tool, goos) != "" && '/' !in QualifiedName(tool, goos)
  {
    assert '/' !in ExeSuffix(goos);
  }

  /** The file located at the i-th candidate for `f`, renamed to `g` within its directory, becomes the i-th candidate for `g`. */
  lemma RenameTargetIsCandidate(files: set<string>, gopath: string, gobin: string, goos: string, arch: string, f: string, g: string)
    requires gobin != ""
    requires f != "" && '/' !in f && g != ""
    requires Locate(files, gopath, gobin, goos, arch, f).Some?
    ensures var p := Locate(files, gopath, gobin, goos, arch, f).value;
      exists i :: 0 <= i < 4
        && p == Candidates(gopath, gobin, goos, arch, f)[i]
        && Join(Dir(p), g) == Candidates(gopath, gobin, goos, arch, g)[i]
  {
    var i := FirstMatch(files, Candidates(gopath, gobin, goos, arch, f)).value;
    SiblingCandidate(gopath, gobin, goos, arch, f, g, i);
  }

  /**
   Renaming the file located for `f` to a longer name `g` in its directory
   gives a different path, the candidate for `g` at the same index.
   */
  lemma RenameStaysApart(files: set<string>, gopath: string, gobin: string, goos: string, arch: string, f: string, g: string)
    requires gobin != ""
    requires f != "" && '/' !in f && |g| > |f|
    requires Locate(files, gopath, gobin, goos, arch, f).Some?
    ensures var p := Locate(files, gopath, gobin, goos, arch, f).value;
      exists i :: 0 <= i < 4
        && p == Candidates(gopath, gobin, goos, arch, f)[i]
        && Join(Dir(p), g) == Candidates(gopath, gobin, goos, arch, g)[i]
        && p != Join(Dir(p), g)
  {
    var p := Locate(files, gopath, gobin, goos, arch, f).value;
    RenameTargetIsCandidate(files, gopath, gobin, goos, arch, f, g);
    var i :| 0 <= i < 4 && p == Candidates(gopath, gobin, goos, arch, f)[i]
      && Join(Dir(p), g) == Candidates(gopath, gobin, goos, arch, g)[i];
    // both sit in the same non-empty directory, and `g` is longer
    var d := CandidateDirs(gopath, gobin, goos, arch)[i];
    assert p == d + "/" + f && Join(Dir(p), g) == d + "/" + g;
  }

  /**
   After an install, the plain file found at the i-th candidate is renamed to
   the i-th candidate for the version-qualified name: it stays in its candidate
   directory, where the next probe for the qualified name looks. GOBIN is never
   empty in the source (it falls back to GOPATH/bin).
   */
  lemma InstallRenamesIntoCandidate(tools: map<string, string>, files: set<string>, locked: set<string>,
                                    host: Host, goos: string, arch: string, tool: Tool)
    requires host.gobin != ""
    requires tool.name != "" && '/' !in tool.name && '/' !in tool.version
    requires var s := InstallStep(tools, files, locked, host, goos, arch, tool); s.err.None? && s.ranInstaller
    ensures var s := InstallStep(tools, files, locked, host, goos, arch, tool);
      exists i :: 0 <= i < 4
        && s.tools[tool.name] == Candidates(host.gopath, host.gobin, goos, arch, QualifiedName(tool, goos))[i]
        && Exists(s.files, s.tools[tool.name])
        && !Exists(s.files, Candidates(host.gopath, host.gobin, goos, arch, PlainName(tool, goos))[i])
  {
    InstallBranchShape(tools, files, locked, host, goos, arch, tool);
    var s := InstallStep(tools, files, locked, host, goos, arch, tool);
    var f, q := PlainName(tool, goos), QualifiedName(tool, goos);
    var installed := files + host.install(tool).value;
    var p := Locate(installed, host.gopath, host.gobin, goos, arch, f).value;
    var target := Join(Dir(p), q);
    assert s.tools[tool.name] == target && s.files == Renamed(installed, p, target);
    NamesSlashFree(tool, goos);
    FileNames(tool, goos);
    RenameStaysApart(installed, host.gopath, host.gobin, goos, arch, f, q);
  }

  /** So resolving the same tool again with an empty cache (a later task) finds it and installs nothing. */
  lemma InstalledToolFoundNextTime(tools: map<string, string>, files: set<string>, locked: set<string>,
                                   host: Host, goos: string, arch: string, tool: Tool)
    requires host.gobin != ""
    requires tool.name != "" && '/' !in tool.name && '/' !in tool.version
    requires var s := InstallStep(tools, files, locked, host, goos, arch, tool); s.err.None? && s.ranInstaller
    ensures var s := InstallStep(tools, files, locked, host, goos, arch, tool);
      var again := InstallStep(map[], s.files, locked, host, goos, arch, tool);
      again.err == None && !again.ranInstaller && again.files == s.files
  {
    var s := InstallStep(tools, files, locked, host, goos, arch, tool);
    InstallRenamesIntoCandidate(tools, files, locked, host, goos, arch, tool);
    var i :| 0 <= i < 4 && s.tools[tool.name] == Candidates(host.gopath, host.gobin, goos, arch, QualifiedName(tool, goos))[i]
      && Exists(s.files, s.tools[tool.name]);
    QualifiedFoundSkipsInstall(map[], s.files, locked, host, goos, arch, tool, i);
  }

  /** The outcome of resolving a list of tools. */
  datatype Run = Run(err: Option<ToolError>, tools: map<string, string>, files: set<string>)

  /** installTools: resolve the tools in order, stopping at the first error. */
  function InstallAll(tools: map<string, string>, files: set<string>, locked: set<string>,
                      host: Host, goos: string, arch: string, ts: seq<Tool>): (r: Run)
    ensures r.err.Some? ==> Lookup(r.tools, r.err.value.tool) == ""
    decreases |ts|
  {
    if |ts| == 0 then Run(None, tools, files)
    else
      var s := InstallStep(tools, files, locked, host, goos, arch, ts[0]);
      if s.err.Some? then Run(s.err, s.tools, s.files)
      else InstallAll(s.tools, s.files, locked, host, goos, arch, ts[1..])
  }

  /** A non-empty cache entry survives resolving any list of tools. */
  lemma {:induction false} InstallAllKeepsEntries(tools: map<string, string>, files: set<string>, locked: set<string>,
                                                  host: Host, goos: string, arch: string, ts: seq<Tool>, k: string)
    requires Lookup(tools, k) != ""
    ensures Lookup(InstallAll(tools, files, locked, host, goos, arch, ts).tools, k) == Lookup(tools, k)
    decreases |ts|
  {
    if |ts| > 0 {
      var s := InstallStep(tools, files, locked, host, goos, arch, ts[0]);
      StepTouchesOnlyItsEntry(tools, files, locked, host, goos, arch, ts[0]);
      if s.err.None? {
        InstallAllKeepsEntries(s.tools, s.files, locked, host, goos, arch, ts[1..], k);
      }
    }
  }

  /** After a successful run every listed tool has a non-empty cache entry. */
  lemma {:induction false} InstallAllResolvesEvery(tools: map<string, string>, files: set<string>, locked: set<string>,
                                                   host: Host, goos: string, arch: string, ts: seq<Tool>)
    ensures var r := InstallAll(tools, files, locked, host, goos, arch, ts);
      r.err.None? ==> forall k :: 0 <= k < |ts| ==> Lookup(r.tools, ts[k].name) != ""
    decreases |ts|
  {
    if |ts| > 0 {
      var s := InstallStep(tools, files, locked, host, goos, arch, ts[0]);
      if s.err.None? {
        SuccessRecordsQualifiedPath(tools, files, locked, host, goos, arch, ts[0]);
        InstallAllKeepsEntries(s.tools, s.files, locked, host, goos, arch, ts[1..], ts[0].name);
        InstallAllResolvesEvery(s.tools, s.files, locked, host, goos, arch, ts[1..]);
        var r := InstallAll(tools, files, locked, host, goos, arch, ts);
        assert r == InstallAll(s.tools, s.files, locked, host, goos, arch, ts[1..]);
        forall k | 0 <= k < |ts| && r.err.None? ensures Lookup(r.tools, ts[k].name) != "" {
          if k > 0 {
            assert ts[k] == ts[1..][k - 1];
          } else {
            assert Lookup(s.tools, ts[0].name) != "";
          }
        }
      }
    }
  }

  /** When every listed tool is already cached, each step is a cache hit: no installer runs and nothing changes. */
  lemma {:induction false} CachedRunIsNoOp(tools: map<string, string>, files: set<string>, locked: set<string>,
                                           host: Host, goos: string, arch: string, ts: seq<Tool>)
    requires forall k :: 0 <= k < |ts| ==> Lookup(tools, ts[k].name) != ""
    ensures InstallAll(tools, files, locked, host, goos, arch, ts) == Run(None, tools, files)
    ensures forall k :: 0 <= k < |ts| ==>
      InstallStep(tools, files, locked, host, goos, arch, ts[k]) == Step(None, tools, files, false)
    decreases |ts|
  {
    if |ts| > 0 {
      assert Lookup(tools, ts[0].name) != "";
      forall k | 0 <= k < |ts[1..]| ensures Lookup(tools, ts[1..][k].name) != "" {
        assert ts[1..][k] == ts[k + 1];
      }
      CachedRunIsNoOp(tools, files, locked, host, goos, arch, ts[1..]);
    }
  }

  /** A second run after a successful one installs nothing and changes nothing. */
  lemma SecondRunInstallsNothing(tools: map<string, string>, files: set<string>, locked: set<string>,
                                 host: Host, goos: string, arch: string, ts: seq<Tool>)
    ensures var r := InstallAll(tools, files, locked, host, goos, arch, ts);
      r.err.None? ==> (InstallAll(r.tools, r.files, locked, host, goos, arch, ts) == Run(None, r.tools, r.files)
        && forall k :: 0 <= k < |ts| ==> !InstallStep(r.tools, r.files, locked, host, goos, arch, ts[k]).ranInstaller)
  {
    var r := InstallAll(tools, files, locked, host, goos, arch, ts);
    if r.err.None? {
      InstallAllResolvesEvery(tools, files, locked, host, goos, arch, ts);
      CachedRunIsNoOp(r.tools, r.files, locked, host, goos, arch, ts);
    }
  }

  /**
   The first `k` tools resolve without error and the k-th fails: the run's
   outcome is that step's, so no later tool is looked at.
   */
  predicate RunFailsAt(tools: map<string, string>, files: set<string>, locked: set<string>,
                       host: Host, goos: string, arch: string, ts: seq<Tool>, k: nat, r: Run)
    requires k < |ts|
  {
    var p := InstallAll(tools, files, locked, host, goos, arch, ts[..k]);
    var s := InstallStep(p.tools, p.files, locked, host, goos, arch, ts[k]);
    p.err.None? && s.err.Some? && s.err == r.err && s.tools == r.tools && s.files == r.files
  }

  /** When the first tool resolves, a run over a prefix is that step followed by the run over the rest of the prefix. */
  lemma InstallAllPrefix(tools: map<string, string>, files: set<string>, locked: set<string>,
                         host: Host, goos: string, arch: string, ts: seq<Tool>, k: nat)
    requires k < |ts|
    requires InstallStep(tools, files, locked, host, goos, arch, ts[0]).err.None?
    ensures var s := InstallStep(tools, files, locked, host, goos, arch, ts[0]);
      InstallAll(tools, files, locked, host, goos, arch, ts[..k + 1])
        == InstallAll(s.tools, s.files, locked, host, goos, arch, ts[1..][..k])
  {
    assert ts[..k + 1][0] == ts[0] && ts[..k + 1][1..] == ts[1..][..k];
  }

  /** A failed run stops at its first failing step: the tools before it resolved, none after it was looked at. */
  lemma {:induction false} RunStopsAtFirstFailure(tools: map<string, string>, files: set<string>, locked: set<string>,
                                                  host: Host, goos: string, arch: string, ts: seq<Tool>)
    ensures var r := InstallAll(tools, files, locked, host, goos, arch, ts);
      r.err.Some? ==> exists k :: 0 <= k < |ts| && RunFailsAt(tools, files, locked, host, goos, arch, ts, k, r)
    decreases |ts|
  {
    if |ts| > 0 {
      var r := InstallAll(tools, files, locked, host, goos, arch, ts);
      var s := InstallStep(tools, files, locked, host, goos, arch, ts[0]);
      if s.err.Some? {
        assert ts[..0] == [];
        assert RunFailsAt(tools, files, locked, host, goos, arch, ts, 0, r);
      } else {
        RunStopsAtFirstFailure(s.tools, s.files, locked, host, goos, arch, ts[1..]);
        if r.err.Some? {
          var k :| 0 <= k < |ts[1..]| && RunFailsAt(s.tools, s.files, locked, host, goos, arch, ts[1..], k, r);
          InstallAllPrefix(tools, files, locked, host, goos, arch, ts, k);
          assert ts[k + 1] == ts[1..][k];
          assert RunFailsAt(tools, files, locked, host, goos, arch, ts, k + 1, r);
        }
      }
    }
  }

  /**
   A failed run names one of the listed tools and leaves it unresolved; it is
   the first tool whose step fails, every earlier one succeeded, and nothing
   after it was processed.
   */
  lemma FailedRunNamesUnresolvedTool(tools: map<string, string>, files: set<string>, locked: set<string>,
                                     host: Host, goos: string, arch: string, ts: seq<Tool>)
    ensures var r := InstallAll(tools, files, locked, host, goos, arch, ts);
      r.err.Some? ==> Lookup(r.tools, r.err.value.tool) == ""
    ensures var r := InstallAll(tools, files, locked, host, goos, arch, ts);
      r.err.Some? ==> exists k :: 0 <= k < |ts| && ts[k].name == r.err.value.tool
                        && RunFailsAt(tools, files, locked, host, goos, arch, ts, k, r)
  {
    var r := InstallAll(tools, files, locked, host, goos, arch, ts);
    RunStopsAtFirstFailure(tools, files, locked, host, goos, arch, ts);
    if r.err.Some? {
      var k :| 0 <= k < |ts| && RunFailsAt(tools, files, locked, host, goos, arch, ts, k, r);
      assert ts[k].name == r.err.value.tool;
    }
  }

  /** The fixed tool list: non-empty, distinct, slash-free names and slash-free versions. */
  lemma ToolInfoWellFormed()
    ensures forall k :: 0 <= k < |ToolInfo| ==> ToolInfo[k].name != "" && '/' !in ToolInfo[k].name && '/' !in ToolInfo[k].version
    ensures forall j, k :: 0 <= j < k < |ToolInfo| ==> ToolInfo[j].name != ToolInfo[k].name
  {
  }
}
