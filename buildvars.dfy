/**
 The build metadata compiled into the binary: four strings that the linker
 may overwrite at build time, and read-only accessors over them. Being
 functions of the stored values, no accessor can change them.
 */
module BuildVars {

  datatype Vars = Vars(version: string, commitID: string, buildTime: string, buildMode: string)

  /** The compiled-in values, used when the linker substitutes nothing. */
  const Defaults: Vars := Vars(
    "3.16.0",
    "0000000000000000000000000000000000000000",
    "2021-01-01T00:00:00",
    "production")

  /** The replacement for an empty build mode. */
  const FallbackBuildMode: string := "production"

  function GetVersion(v: Vars): (r: string)
    ensures r == v.version
  {
    v.version
  }

  function GetCommitID(v: Vars): (r: string)
    ensures r == v.commitID
  {
    v.commitID
  }

  function GetBuildTime(v: Vars): (r: string)
    ensures r == v.buildTime
  {
    v.buildTime
  }

  /** The stored build mode, or "production" when it is empty; never empty. */
  function GetBuildMode(v: Vars): (r: string)
    ensures r != ""
    ensures v.buildMode == "" ==> r == FallbackBuildMode
    ensures v.buildMode != "" ==> r == v.buildMode
  {
    if v.buildMode == "" then FallbackBuildMode else v.buildMode
  }

  /** "production" is reported exactly when the stored mode is "production" or empty. */
  lemma BuildModeProductionIff(v: Vars)
    ensures GetBuildMode(v) == "production" <==> v.buildMode in {"", "production"}
  {
  }

  /** Asking twice, or storing what was reported and asking again, gives the same answer. */
  lemma BuildModeStable(v: Vars)
    ensures GetBuildMode(v.(buildMode := GetBuildMode(v))) == GetBuildMode(v)
  {
  }

  /** The compiled-in commit id is forty '0' characters; the other defaults are as shipped. */
  lemma DefaultsShape()
    ensures |Defaults.commitID| == 40
    ensures forall k :: 0 <= k < |Defaults.commitID| ==> Defaults.commitID[k] == '0'
    ensures GetVersion(Defaults) == "3.16.0"
    ensures GetBuildTime(Defaults) == "2021-01-01T00:00:00"
    ensures GetBuildMode(Defaults) == "production"
  {
  }
}
