/**
 The build script itself: the artifact naming and build-mode selection, and
 the `Builder` whose tool cache and filesystem effects are proved against the
 specifications in modules Tools and Cleanup.

 What the host's environment supplies (GOOS/GOARCH of the target, BUILD_ENV,
 ENABLE_TEST_RACE, the commit id and the clock) enters as parameters.
 */
module Magefile {
  import opened Wrappers
  import opened Text
  import opened FilePath
  import opened Disk
  import opened Tools
  import opened Cleanup
  import BuildVars

  const Name: string := "go-mage"
  const Version: string := "3.16.0"

  /** The Windows resource inputs. The icon's key carries a stray quote, as shipped. */
  const Assets: map<string, string> := map[
    "manifest" := "build/windows/assets/app.manifest",
    "icon'" := "build/windows/assets/app.ico",
    "versioninfo" := "cmd/go-mage/versioninfo.json"]

  /** The build mode selected by the BUILD_ENV variable: "dev" only for exactly "dev". */
  function BuildEnv(env: string): (r: string)
    ensures r == "dev" <==> env == "dev"
    ensures r == "prod" <==> env != "dev"
  {
    if env == "dev" then "dev" else "prod"
  }

  /** The build tags: static networking and user lookup, then the build mode. */
  function Tags(env: string): (r: string)
    ensures StartsWith(r, "netgo osusergo ") && r[|"netgo osusergo "|..] == BuildEnv(env)
  {
    "netgo osusergo " + BuildEnv(env)
  }

  /** The tags name the dev build exactly when BUILD_ENV is "dev". */
  lemma TagsIff(env: string)
    ensures Tags(env) == "netgo osusergo dev" <==> env == "dev"
    ensures Tags(env) == "netgo osusergo prod" <==> env != "dev"
  {
    var r := Tags(env);
    assert r[15..] == BuildEnv(env);
  }

  /** The output file name: name, platform and architecture, then ".exe" for Windows. */
  function TargetFilename(goos: string, arch: string): (r: string)
    ensures StartsWith(r, Name + "_" + goos + "_" + arch)
    ensures |r| == |Name + "_" + goos + "_" + arch| + (if goos == "windows" then 4 else 0)
  {
    Name + "_" + goos + "_" + arch + ExeSuffix(goos)
  }

  /** For an architecture not itself ending in ".exe", the file name ends in ".exe" exactly on Windows. */
  lemma TargetFilenameExeIff(goos: string, arch: string)
    requires !EndsWith(arch, ".exe")
    ensures EndsWith(TargetFilename(goos, arch), ".exe") <==> goos == "windows"
    ensures goos != "windows" ==> TargetFilename(goos, arch) == Name + "_" + goos + "_" + arch
  {
    var base := Name + "_" + goos + "_";
    if goos != "windows" {
      var s := base + arch;
      assert TargetFilename(goos, arch) == s;
      if |arch| >= 4 {
        EndsWithConcat(base, arch, ".exe");
      } else {
        // the character before the architecture is '_', which ".exe" does not contain
        assert s[|s| - 4..][3 - |arch|] == s[|s| - 1 - |arch|] == '_';
      }
    }
  }

  /** The prefix of the linker flags, up to the build mode. */
  function BaseLdflags(commitID: string, buildTime: string, env: string): (r: string)
    ensures StartsWith(r, "-s -w")
    ensures EndsWith(r, BuildModeFlag + BuildEnv(env))
  {
    var settings :=
      " -X github.com/yakuter/go-mage/pkg/buildvars.Version=" + Version
      + " -X github.com/yakuter/go-mage/pkg/buildvars.BuildTime=" + buildTime
      + " -X github.com/yakuter/go-mage/pkg/buildvars.CommitID=" + commitID;
    var mode := BuildModeFlag + BuildEnv(env);
    var r := "-s -w" + settings + mode;
    assert r[|"-s -w" + settings|..] == mode;
    r
  }

  /** The linker setting that overwrites the binary's build mode. */
  const BuildModeFlag: string := " -X github.com/yakuter/go-mage/pkg/buildvars.BuildMode="

  const StaticLdflags: string := " -extldflags '-static'"

  /** The linker flags; the commit id and the build time are inputs. */
  function Ldflags(goos: string, commitID: string, buildTime: string, env: string): (r: string)
    ensures StartsWith(r, BaseLdflags(commitID, buildTime, env))
  {
    BaseLdflags(commitID, buildTime, env) + (if goos == "linux" || goos == "windows" then StaticLdflags else "")
  }

  /** Static linking is requested exactly for Linux and Windows targets. */
  lemma LdflagsStaticIff(goos: string, commitID: string, buildTime: string, env: string)
    ensures EndsWith(Ldflags(goos, commitID, buildTime, env), StaticLdflags) <==> goos == "linux" || goos == "windows"
  {
    var b := BaseLdflags(commitID, buildTime, env);
    var r := Ldflags(goos, commitID, buildTime, env);
    if !(goos == "linux" || goos == "windows") {
      assert r == b;
      var m := BuildEnv(env);
      assert b == (b[..|b| - |m|]) + m;
      // the flags end in the build mode's last letter, the static flag in a quote
      assert b[|b| - 1] == m[|m| - 1] != StaticLdflags[|StaticLdflags| - 1];
      assert b[|b| - |StaticLdflags|..][|StaticLdflags| - 1] == b[|b| - 1];
    }
  }

  /**
   The build mode the linker writes into the binary is what the binary then
   reports: "dev" or "prod", never the compiled-in "production".
   */
  lemma InjectedBuildModeReported(v: BuildVars.Vars, env: string)
    ensures BuildVars.GetBuildMode(v.(buildMode := BuildEnv(env))) == BuildEnv(env)
    ensures BuildVars.GetBuildMode(v.(buildMode := BuildEnv(env))) != BuildVars.FallbackBuildMode
  {
  }

  /** The Windows resource file generated for an architecture. */
  function SysoPath(arch: string): (r: string)
    ensures StartsWith(r, "cmd/tactical/resource_") && EndsWith(r, ".syso")
  {
    var r := "cmd/tactical/resource_" + arch + ".syso";
    assert r[|r| - 5..] == ".syso";
    r
  }

  /**
   The arguments ensureSyso hands to goversioninfo, or None when there is
   nothing to do because the target is not Windows.
   */
  function SysoArgs(goos: string, arch: string): (r: Option<seq<string>>)
    ensures r.None? <==> goos != "windows"
    ensures r.Some? ==> |r.value| == 5 && r.value[3] == SysoPath(arch)
  {
    if goos != "windows" then None
    else Some([
      "-manifest=" + Lookup(Assets, "manifest"),
      "-icon=" + Lookup(Assets, "icon"),
      "-o", SysoPath(arch),
      Lookup(Assets, "versioninfo")])
  }

  /** The icon is looked up under "icon" but stored under "icon'": the icon argument is always empty. */
  lemma SysoIconEmpty(arch: string)
    ensures SysoArgs("windows", arch).Some?
    ensures SysoArgs("windows", arch).value[1] == "-icon="
  {
    assert Assets.Keys == {"manifest", "icon'", "versioninfo"};
  }

  class Builder {
    const goos: string
    const arch: string
    const extraTags: string
    const extraFlags: seq<string>
    const extraLdflags: string
    /** The resolved tool paths by tool name; a missing key reads as "". */
    var tools: map<string, string>

    /** A builder for one target platform, as every mage target creates it. */
    constructor (goos: string, arch: string)
      ensures this.goos == goos && this.arch == arch
      ensures extraTags == "" && extraFlags == [] && extraLdflags == ""
      ensures tools == map[]
    {
      this.goos := goos;
      this.arch := arch;
      extraTags := "";
      extraFlags := [];
      extraLdflags := "";
      tools := map[];
    }

    /**
     Probes the four candidates for `filename` in order and stops at the
     first that exists; None when none does.
     */
    method LocateBinPath(fs: FileSystem, gobin: string, gopath: string, filename: string) returns (r: Option<string>)
      ensures r == Locate(fs.files, gopath, gobin, goos, arch, filename)
      ensures r.Some? ==> Exists(fs.files, r.value) && r.value in Candidates(gopath, gobin, goos, arch, filename)
      ensures r.None? <==> forall j :: 0 <= j < 4 ==> !Exists(fs.files, Candidates(gopath, gobin, goos, arch, filename)[j])
    {
      var patterns := Candidates(gopath, gobin, goos, arch, filename);
      var path := "";
      var i := 0;
      while i < |patterns|
        invariant 0 <= i <= |patterns|
        invariant path == ""
        invariant forall j :: 0 <= j < i ==> !Exists(fs.files, patterns[j])
      {
        if Exists(fs.files, patterns[i]) {
          path := patterns[i];
          break;
        }
        i := i + 1;
      }
      if path == "" {
        return None;
      }
      return Some(path);
    }

    /**
     Makes sure one tool is resolved: a cached path is kept; otherwise the
     version-qualified file is looked up, and failing that the tool is
     installed, found under its plain name and renamed to the qualified name
     next to where it was found. The outcome is the one InstallStep specifies.
     */
    method InstallTool(fs: FileSystem, host: Host, tool: Tool) returns (err: Option<ToolError>)
      modifies this`tools, fs`files
      ensures var s := InstallStep(old(tools), old(fs.files), fs.locked, host, goos, arch, tool);
        err == s.err && tools == s.tools && fs.files == s.files
    {
      if Lookup(tools, tool.name) != "" {
        return None;
      }
      var filename := tool.name;
      var filenameWithVersion := tool.name + "-" + tool.version;
      if goos == "windows" {
        filename := filename + ".exe";
        filenameWithVersion := filenameWithVersion + ".exe";
      }
      assert filename == PlainName(tool, goos) && filenameWithVersion == QualifiedName(tool, goos);

      var path := LocateBinPath(fs, host.gobin, host.gopath, filenameWithVersion);
      if path.Some? {
        tools := tools[tool.name := path.value];
        return None;
      }

      if !tool.isRepo && !host.fetch(tool.address) {
        return Some(ToolError(tool.name, FetchFailed));
      }
      var added := host.install(tool);
      if added.None? {
        return Some(ToolError(tool.name, InstallFailed));
      }
      fs.Write(added.value);

      path := LocateBinPath(fs, host.gobin, host.gopath, filename);
      if path.None? {
        return Some(ToolError(tool.name, NotFoundAfterInstall));
      }
      var pathWithVersion := Join(Dir(path.value), filenameWithVersion);
      var ok := fs.Rename(path.value, pathWithVersion);
      if !ok {
        return Some(ToolError(tool.name, RenameFailed(path.value, pathWithVersion)));
      }
      tools := tools[tool.name := pathWithVersion];
      return None;
    }

    /**
     Resolves every tool in ToolInfo in order and returns the first error.
     On success every tool has a cached path.
     */
    method InstallTools(fs: FileSystem, host: Host) returns (err: Option<ToolError>)
      modifies this`tools, fs`files
      ensures var r := InstallAll(old(tools), old(fs.files), fs.locked, host, goos, arch, ToolInfo);
        err == r.err && tools == r.tools && fs.files == r.files
      ensures err.None? ==> forall k :: 0 <= k < |ToolInfo| ==> Lookup(tools, ToolInfo[k].name) != ""
    {
      ghost var tools0, files0 := tools, fs.files;
      InstallAllResolvesEvery(tools0, files0, fs.locked, host, goos, arch, ToolInfo);
      var i := 0;
      while i < |ToolInfo|
        invariant 0 <= i <= |ToolInfo|
        invariant InstallAll(tools0, files0, fs.locked, host, goos, arch, ToolInfo)
               == InstallAll(tools, fs.files, fs.locked, host, goos, arch, ToolInfo[i..])
      {
        assert ToolInfo[i..][1..] == ToolInfo[i + 1..];
        err := InstallTool(fs, host, ToolInfo[i]);
        if err.Some? {
          return;
        }
        i := i + 1;
      }
      return None;
    }

    /**
     Expands each cleanup pattern against the current files and removes
     every match, returning the first glob or remove error. On success exactly
     the matched files are gone.
     */
    method Clean(fs: FileSystem, glob: Glob) returns (err: Option<CleanError>)
      modifies fs`files
      ensures var r := CleanAll(CleanupFiles, old(fs.files), fs.locked, glob);
        err == r.err && fs.files == r.files
      ensures fs.files <= old(fs.files)
      ensures err.None? ==> fs.files == old(fs.files) - Matched(CleanupFiles, old(fs.files), glob)
    {
      ghost var files0 := fs.files;
      CleanRemovesOnlyMatched(CleanupFiles, files0, fs.locked, glob);
      CleanSuccessRemovesExactlyMatched(CleanupFiles, files0, fs.locked, glob);
      var i := 0;
      while i < |CleanupFiles|
        invariant 0 <= i <= |CleanupFiles|
        invariant CleanAll(CleanupFiles, files0, fs.locked, glob) == CleanAll(CleanupFiles[i..], fs.files, fs.locked, glob)
      {
        assert CleanupFiles[i..][1..] == CleanupFiles[i + 1..];
        var pattern := CleanupFiles[i];
        var matches := glob(pattern, fs.files);
        if matches.None? {
          return Some(GlobFailed(pattern));
        }
        var found := matches.value;
        ghost var before := fs.files;
        var j := 0;
        while j < |found|
          invariant 0 <= j <= |found|
          invariant RemoveAll(found, before, fs.locked) == RemoveAll(found[j..], fs.files, fs.locked)
        {
          assert found[j..][1..] == found[j + 1..];
          var ok := fs.Remove(found[j]);
          if !ok {
            return Some(RemoveFailed(found[j]));
          }
          j := j + 1;
        }
        i := i + 1;
      }
      return None;
    }

    /**
     The `go test` arguments. The tags argument is the extra linker flags
     followed by the tags, as shipped; the race detector is requested when the
     configured architecture (`go env GOARCH`, looked up again rather than read
     from the builder) is not "386" and ENABLE_TEST_RACE is "1".
     */
    method TestArgs(goarch: string, buildEnv: string, enableRace: string) returns (args: seq<string>)
      ensures |args| == 9 + |extraFlags| + (if goarch != "386" && enableRace == "1" then 1 else 0)
      ensures args[4] == "-tags" && args[5] == extraLdflags + Tags(buildEnv)
      ensures args[7] == "-coverprofile=" + goos + "-cover.out"
      ensures args[|args| - 1] == "./..."
      ensures args[..4] == ["test", "-v", "-count=1", "-failfast"] && args[6] == "-coverpkg=./..."
      ensures args[8..|args| - 1] == (if goarch != "386" && enableRace == "1" then ["-race"] else []) + extraFlags
      ensures "-race" !in extraFlags ==> ("-race" in args <==> goarch != "386" && enableRace == "1")
    {
      var coverFile := goos + "-cover.out";
      args := ["test", "-v", "-count=1", "-failfast",
               "-tags", extraLdflags + Tags(buildEnv),
               "-coverpkg=./...", "-coverprofile=" + coverFile];
      ghost var fixed := args;
      if goarch != "386" && enableRace == "1" {
        args := args + ["-race"];
      }
      args := args + extraFlags;
      args := args + ["./..."];
      assert "-race" !in fixed by {
        assert |extraLdflags + Tags(buildEnv)| >= 15;
      }
    }
  }
}
