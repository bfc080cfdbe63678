# go-mage build script, modelled in Dafny

go-mage is a mage build script for a small Go program. The script is
`magefile.go`; the program reports its build metadata (`pkg/buildvars`,
`cmd/go-mage`). This project models the parts of the repository that are
logic rather than glue around external commands. It proves what those parts
promise.

- **Tool resolver** (modules `Tools`, `Magefile`). A `Builder` keeps a cache from
  tool names to executable paths, over a filesystem of path names.
  - `InstallTool` keeps a cached path if there is one.
  - Otherwise it probes four candidate places for the version-qualified file.
  - If that fails, it installs the tool, finds the plain installed file and
    renames it to the version-qualified name in the same directory.
  - `InstallTools` does this for the fixed tool list and stops at the first
    error.
  - The methods are proved equal to the pure specifications `InstallStep` and
    `InstallAll`. The properties are lemmas about those specifications.
- **Clean** (modules `Cleanup`, `Magefile`). Each cleanup pattern is expanded
  against the files as they are at that moment, and every match is removed.
  The loop stops at the first expansion or removal error. The method is proved
  equal to `CleanAll`.
- **Naming and build mode** (module `Magefile`): the output file name, the
  `BUILD_ENV` selection, the tags, the static-linking flag, the Windows
  resource arguments and the `go test` arguments.
- **Build metadata** (module `BuildVars`): the four compiled-in values and
  their accessors, including the empty-build-mode fallback.
- **Hello message** (module `Hello`): the five-line message built from the
  accessors.

Supporting modules:

- `Wrappers` holds `Option`.
- `Text` holds string searching, splitting and joining.
- `FilePath` models `filepath.Join` and `filepath.Dir` with `/` as the separator and without path cleaning.
  Non-empty parts are joined with `/`, and `Dir` is the prefix before the last
  `/`.
- `Disk` holds the filesystem class. Its `locked` set stands for the paths the
  host refuses to remove or rename (permissions, files in use). The empty path
  never exists.

The host is an input, the `Tools.Host` datatype. It gives the `GOPATH` and
`GOBIN` directories, whether fetching an install script succeeds, and the
installer's outcome (failure, or the set of files it wrote). Globbing is
handled in two ways:

- In `locateBinPath` the patterns are literal paths, so a glob there is a
  membership test.
- For `Clean`, globbing is an oracle from a pattern and the current files to
  the matches, or to a failure.

Oddities of the source are reproduced, not fixed:

- The icon's key in `assets` is `"icon'"` (magefile.go:33), but `ensureSyso`
  reads `assets["icon"]` (magefile.go:365). The icon argument is therefore
  always `-icon=` (`Magefile.SysoIconEmpty`).
- The resource file path is `cmd/tactical/resource_<arch>.syso`
  (magefile.go:356), not under `cmd/go-mage`.
- `Test` passes the extra linker flags followed by the tags as the `-tags`
  value (magefile.go:132).
- The linker writes `dev` or `prod` into `BuildMode` (magefile.go:384). The
  compiled-in default, and the fallback for an empty value, is `production`
  (pkg/buildvars/buildvars.go:12, 29). A built binary therefore never reports
  `production` (`Magefile.InjectedBuildModeReported`).

## Model

| member | source | states |
|---|---|---|
| Tools.ToolInfoWellFormed | magefile.go:52-57 | The four tools have non-empty, distinct, slash-free names, and their versions are slash-free. |
| Tools.FileNames | magefile.go:263-268 | The plain name starts with the tool name and the qualified name with name-version. The plain name is four characters longer than the tool name exactly on Windows, where both end in ".exe", so on Windows they are exactly name + ".exe" and name-version + ".exe". Off Windows they are exactly name and name-version. The qualified name is longer by the version plus one, so the two names differ. |
| Tools.PlainName | magefile.go:263-268 | Defines the file name the installer writes: the tool name followed by ".exe" on Windows. Its properties are in `Tools.FileNames`. |
| Tools.QualifiedName | magefile.go:263-268 | Defines the version-qualified file name: name, "-", version, then ".exe" on Windows. Its properties are in `Tools.FileNames` and `Tools.NamesSlashFree`. |
| Tools.ExeSuffix | magefile.go:265-268 | The suffix is ".exe" exactly when goos is "windows", and empty exactly otherwise. |
| Tools.Candidates | magefile.go:314-323 | There are exactly four candidate paths for a file name. |
| Tools.CandidateDirs | magefile.go:314-323 | Each of the four candidates is its directory joined with the file name. With a non-empty GOBIN all four directories are non-empty. |
| Tools.CandidatesEndWith | magefile.go:314-323 | Every candidate for a non-empty file name ends with that name. |
| Tools.FirstMatch | magefile.go:325-336 | The result is the first index whose path exists; every earlier path is missing. There is no result exactly when no path exists. |
| Tools.Locate | magefile.go:313-340 | A located path exists and is one of the four candidates. Nothing is located if and only if none of the four exists. `Tools.LocateFirstExisting` adds that it is the first existing one. |
| Tools.LocateFirstExisting | magefile.go:313-340 | The located path is one of the four candidates, exists, and follows only missing candidates. Nothing is located exactly when all four are missing. |
| Magefile.Builder.constructor | magefile.go:449-474 | A builder for a target platform has that goos and arch, empty extra tags and flags, and an empty tool cache, as each mage target creates it. |
| Magefile.Builder.LocateBinPath | magefile.go:313-340 | The loop-with-break method returns what `Locate` specifies. A returned path exists and is a candidate. The result is None if and only if none of the four candidates exists. |
| Tools.InstallStep | magefile.go:249-311 | Defines one resolution step. On success the tool has a non-empty entry. On failure the cache is unchanged, the tool had no entry, and the error names the tool. When no installer ran, the files are unchanged. The lemmas below carry the rest. |
| Tools.CacheHitChangesNothing | magefile.go:250-252 | With a non-empty cache entry, resolving returns success, changes neither the cache nor the files, and runs no installer. |
| Tools.QualifiedFoundSkipsInstall | magefile.go:270-275 | With no cache entry and the qualified file at some candidate, the step succeeds and runs no installer. Files are unchanged and only this tool's key is added. The recorded path is an existing candidate no later than the given one. |
| Tools.FailureLeavesCacheUnset | magefile.go:279-305 | On any failure (fetch, install, not found after install, rename) the cache is unchanged and the tool's entry stays empty. No file is removed, and the error names the tool. |
| Tools.StepTouchesOnlyItsEntry | magefile.go:249-311 | One step changes only the resolved tool's cache entry, and only from empty to non-empty. |
| Tools.SuccessRecordsQualifiedPath | magefile.go:270-307 | After a successful step the tool's entry is non-empty. A path resolved in this step ends with the version-qualified name. |
| Tools.InstallBranchShape | magefile.go:277-307 | A successful step that ran the installer had no cache entry and found no qualified file. The installer succeeded, the plain file was located at p, p was renamed to Dir(p)/qualified, and that path was recorded. |
| Tools.SiblingCandidate | magefile.go:302-323 | Renaming the i-th candidate for one slash-free name to another name in the same directory gives the i-th candidate for the other name. |
| FilePath.Join | magefile.go:302 | The joined path is empty if and only if both parts are. `FilePath.JoinEndsWith` and `FilePath.DirOfJoin` carry the rest. |
| FilePath.Dir | magefile.go:302 | The directory is never empty, and it is "." for a path without a separator. |
| FilePath.JoinEndsWith | magefile.go:316-322 | A path joined with a non-empty name ends with that name. |
| FilePath.DirOfJoin | magefile.go:302 | The directory of a non-empty directory joined with a slash-free name is that directory. This is the rename step that keeps a tool in its candidate directory. |
| Tools.NamesSlashFree | magefile.go:263-268 | A tool with a non-empty, slash-free name and a slash-free version has non-empty, slash-free plain and qualified names. |
| Tools.RenameTargetIsCandidate | magefile.go:297-302 | The file located for one name, renamed within its directory to a second name, lands at the matching candidate for the second name. |
| Tools.RenameStaysApart | magefile.go:297-303 | Renaming the file located for a slash-free name to a longer name in its directory lands at the same-index candidate for the longer name, which is a different path. |
| Tools.InstallRenamesIntoCandidate | magefile.go:297-307 | After an install, the recorded path is the i-th qualified candidate and exists. The i-th plain candidate, where the file was found, no longer exists. |
| Tools.InstalledToolFoundNextTime | magefile.go:270-307 | After a successful install, resolving the same tool again with an empty cache succeeds without running an installer and leaves the files unchanged. |
| Magefile.Builder.InstallTool | magefile.go:249-311 | The method's error, new cache and new files are exactly those of `InstallStep` on the old cache and files. |
| Tools.InstallAll | magefile.go:236-247 | Defines resolving a list of tools in order, stopping at the first error. A reported tool has an empty entry. The stop at the first failure is `Tools.RunStopsAtFirstFailure`, and the success properties are the lemmas below. |
| Tools.InstallAllKeepsEntries | magefile.go:240-245 | A non-empty cache entry survives resolving any list of tools. |
| Tools.InstallAllResolvesEvery | magefile.go:236-247 | After a successful run every listed tool has a non-empty cache entry. |
| Tools.CachedRunIsNoOp | magefile.go:240-252 | When every listed tool is cached, the run succeeds, changes nothing and runs no installer. |
| Tools.SecondRunInstallsNothing | magefile.go:236-252 | A run after a successful run succeeds and changes neither the cache nor the files. |
| Tools.FailedRunNamesUnresolvedTool | magefile.go:240-245 | A failed run names a listed tool, and that tool's entry is empty. The tool is at some index k; the run over the first k tools succeeded, and the run's error, cache and files are exactly those of step k from there, so no later tool was processed. |
| Tools.RunStopsAtFirstFailure | magefile.go:240-245 | A failed run has an index k such that the first k tools resolve without error, step k fails, and the run's outcome is exactly that step's. |
| Magefile.Builder.InstallTools | magefile.go:236-247 | The loop returns the error, cache and files `InstallAll` specifies over the tool list, and stops at the first error. On success every tool in the list has a non-empty cache entry. |
| Cleanup.RemoveAll | magefile.go:225-230 | Defines the inner remove loop. It never adds files, and a failure names a path that cannot be removed in the resulting files. It is characterised by `Cleanup.RemoveAllSucceedsIff` and `Cleanup.RemoveAllFailureNamesListed`. |
| Cleanup.RemoveAllSucceedsIff | magefile.go:225-230 | Removing a list of files succeeds if and only if each file exists, is not locked and repeats no earlier entry. On success exactly the listed files are removed. |
| Cleanup.RemoveAllOnlyRemovesListed | magefile.go:225-230 | Removing a list never adds files and removes only listed ones. |
| Cleanup.RemoveAllFailureNamesListed | magefile.go:225-230 | A removal failure names a listed file that cannot be removed. It is the file at some index k: the first k files were removed, exactly that outcome is reported, and no later file was tried. |
| Cleanup.CleanAll | magefile.go:218-234 | Defines Clean over a pattern list: each pattern is expanded against the current files and its matches are removed, stopping at the first error. It never adds files. |
| Cleanup.Matched | magefile.go:220-230 | Defines the files the patterns match, each against the files left by the earlier patterns, up to the first pattern that cannot be expanded. `Cleanup.CleanRemovesOnlyMatched` and `Cleanup.CleanSuccessRemovesExactlyMatched` relate it to Clean. |
| Cleanup.CleanRemovesOnlyMatched | magefile.go:218-234 | Cleaning never creates files and removes only files that a pattern matched when it was expanded. |
| Cleanup.CleanSuccessRemovesExactlyMatched | magefile.go:218-234 | A successful clean removes exactly the matched files, and each match existed. |
| Cleanup.CleanErrorIsAttributed | magefile.go:220-230 | A glob failure names one of the patterns; a removal failure names a matched file. The failure is at some pattern index k: the first k patterns were cleaned without error, then pattern k could not be expanded or removing its matches failed. That outcome is reported unchanged, so no later pattern was expanded. |
| Cleanup.CleanStopsAtFirstFailure | magefile.go:220-230 | A failed clean has a pattern index k such that the first k patterns were cleaned without error and pattern k failed, either in its expansion or in removing its matches. The clean's outcome is exactly that failure. |
| Magefile.Builder.Clean | magefile.go:218-234 | The nested loops return the error and files `CleanAll` specifies over the cleanup patterns. Files only shrink, and on success exactly the matched files are gone. |
| Disk.FileSystem.Write | magefile.go:279-295 | An installer that succeeds adds the files it wrote and keeps every existing file. |
| Disk.FileSystem.Remove | magefile.go:227 | Removal succeeds exactly when the file exists and is not locked. It then removes that file and nothing else; otherwise nothing changes. |
| Disk.FileSystem.Rename | magefile.go:303 | Renaming succeeds exactly when the source exists and neither path is locked. The files are then renamed; otherwise nothing changes. |
| Disk.Renamed | magefile.go:303 | After a rename the target exists, the source is gone unless it was the target, and every other file is unchanged. |
| Magefile.BuildEnv | magefile.go:517-527 | The mode is "dev" if and only if BUILD_ENV is exactly "dev", and "prod" if and only if it is anything else. |
| Magefile.Tags | magefile.go:393-395 | The tags are "netgo osusergo " followed by the selected build mode. |
| Magefile.TagsIff | magefile.go:393-395 | The tags are "netgo osusergo dev" if and only if BUILD_ENV is "dev", otherwise "netgo osusergo prod". |
| Magefile.TargetFilename | magefile.go:342-349 | The output name starts with go-mage_goos_arch and is four characters longer exactly on Windows. |
| Magefile.TargetFilenameExeIff | magefile.go:342-349 | For an architecture not ending in ".exe", the output name ends in ".exe" if and only if goos is "windows". Off Windows it is exactly go-mage_goos_arch. |
| Magefile.BaseLdflags | magefile.go:380-384 | The flags start with "-s -w" and end with the setting that overwrites the binary's build mode with the selected mode. |
| Magefile.Ldflags | magefile.go:377-391 | The flags start with the base flags. The static-linking suffix is `Magefile.LdflagsStaticIff`. |
| Magefile.LdflagsStaticIff | magefile.go:377-391 | The linker flags end with the static-linking flag if and only if goos is "linux" or "windows". |
| Magefile.InjectedBuildModeReported | magefile.go:384 | A binary whose build mode the linker set from BUILD_ENV reports that mode, "dev" or "prod", and never "production". |
| Magefile.SysoPath | magefile.go:356 | The resource file lies under "cmd/tactical/resource_" and ends in ".syso". |
| Magefile.SysoArgs | magefile.go:351-370 | There is nothing to generate if and only if goos is not "windows". Otherwise there are five arguments, and the output path is the resource file. |
| Magefile.SysoIconEmpty | magefile.go:365 | On Windows the icon argument is "-icon=" with an empty value, because the icon's key is stored as "icon'". |
| Magefile.Builder.TestArgs | magefile.go:125-140 | The arguments start with test -v -count=1 -failfast, and between the cover profile and the trailing "./..." come "-race" (when requested) followed by the extra flags, in that order. The tags argument is the extra linker flags followed by the tags. The cover profile is named after goos, and the last argument is "./...". When the extra flags lack "-race", it is present if and only if the architecture looked up again with `go env GOARCH` (`goarch()`, the same call that sets the builder's arch) is not "386" and ENABLE_TEST_RACE is "1"; the argument count reflects this. |
| BuildVars.GetVersion | pkg/buildvars/buildvars.go:15-17 | Returns the stored version unchanged. |
| BuildVars.GetCommitID | pkg/buildvars/buildvars.go:19-21 | Returns the stored commit id unchanged. |
| BuildVars.GetBuildTime | pkg/buildvars/buildvars.go:23-25 | Returns the stored build time unchanged. |
| BuildVars.GetBuildMode | pkg/buildvars/buildvars.go:27-32 | Never empty. An empty stored mode gives "production"; a non-empty one is returned unchanged. |
| BuildVars.BuildModeProductionIff | pkg/buildvars/buildvars.go:27-32 | "production" is reported if and only if the stored mode is "" or "production". |
| BuildVars.BuildModeStable | pkg/buildvars/buildvars.go:27-32 | Storing the reported mode and asking again gives the same mode. |
| BuildVars.DefaultsShape | pkg/buildvars/buildvars.go:4-13 | The compiled-in commit id is forty '0' characters. The version is "3.16.0", the build time "2021-01-01T00:00:00" and the build mode "production". |
| Hello.HelloMessage | cmd/go-mage/main.go:15-19 | Defines the message: the project name, then the version, commit id, build time and build mode, each on its own labelled line. Its properties are the three lemmas below. |
| Hello.HelloIsJoinedLines | cmd/go-mage/main.go:9-19 | The message is the project name and the four labelled values joined by newlines. |
| Hello.HelloHasFiveLines | cmd/go-mage/main.go:17-18 | If no value contains a newline, the message splits into exactly five lines, the first being "go-mage". |
| Hello.BuildModeLineNeverBlank | cmd/go-mage/main.go:18 | Under the same condition, the last line is never exactly "Build Mode: ". |
| Hello.DefaultHelloMessage | cmd/go-mage/main.go:17-18 | With the compiled-in values, the message is the five fixed lines joined by newlines. |

## Left out

- Running external commands is not modelled: `go install`, the install script
  run through `sh`, `go generate`, `go build`, `go test`, the linter,
  govulncheck and the gocov pipeline. Installing a tool is an oracle that fails
  or writes a set of files. `Generate`, `Linter`, `Vulncheck`, `Build` and
  `convertCoverage` are not modelled beyond the pieces above.
- The network is not modelled: the `http.Get` of the install script is the
  host's `fetch` oracle, and closing the response body is left out.
- Host queries become inputs: `gopath()`, `gobin()`, `goos()`, `goarch()`,
  `os.Getenv`, `user.Current`, `macosSDK`, the mingw compiler probes and
  `isAdmin`. The error returns of `gopath()` and `gobin()` and their `MkdirAll`
  side effects are not modelled. Their results are the host's `gopath` and
  `gobin`, and some lemmas assume a non-empty `gobin`, which `gobin()`
  guarantees.
- The path of the built binary (magefile.go:188) is not modelled. Go's
  `filepath.Join` cleans its result (`build/go-mage_linux_amd64`, without the
  leading `./`), and the model's `Join` does not clean.
- `FilePath` fixes the separator to `/`. On a Windows host, `filepath.Join`
  and `filepath.Dir` use `\`, as the example paths in magefile.go:315-321 show.
  The model does not cover Windows separators.
- `env()` is not modelled. It is a map handed to external commands.
- Glob syntax is not modelled. In `locateBinPath`, a literal path matches
  exactly when it exists, and a malformed-pattern error cannot happen. In
  `Clean`, the glob is an oracle. The model's `Join` does not clean `..`, `.` or
  repeated slashes.
- `ensureSyso` is modelled up to the arguments it passes. Removing an old
  resource file and running goversioninfo are not modelled.
- `Magefile.SysoIconEmpty`: it does not state the manifest and versioninfo
  arguments as literals, because comparing those long strings is too costly
  for the solver. `Magefile.SysoArgs` fixes their construction.
- The model's cache has no nil state. In Go, `installTool` writes to the map
  (magefile.go:273, 307), and writing to a nil map panics. `installTool` is
  reached only through `installTools`, which allocates the map first
  (magefile.go:237-239). The model starts every builder with an empty map and
  does not model the panic.
- The Go targets create a fresh `Builder` each time, and several methods take
  it by value. The model has one `Builder` object; sharing the map between
  copies is not modelled.
- Printing is not modelled: progress messages, `printGoenv` and `main`'s
  `fmt.Println`.
- Errors are modelled by kind and by the tool, pattern or file they name.
  Their message texts are not modelled.
- `Hello.DefaultHelloMessage`: it states the default message as the five fixed
  lines joined by newlines, not as one string literal, because comparing one
  literal of that length is too costly for the solver.
