/** The greeting the go-mage binary prints: its name and the four build values, one per line. */
module Hello {
  import opened Text
  import opened BuildVars

  const ProjectName: string := "go-mage"

  /** The five lines of the greeting, before they are joined with newlines. */
  function HelloLines(v: Vars): seq<string> {
    [ProjectName,
     "Version: " + GetVersion(v),
     "Commit ID: " + GetCommitID(v),
     "Build Time: " + GetBuildTime(v),
     "Build Mode: " + GetBuildMode(v)]
  }

  /** The greeting: the program name, then version, commit id, build time and build mode under labels. */
  function HelloMessage(v: Vars): string {
    ProjectName + "\nVersion: " + GetVersion(v) + "\nCommit ID: " + GetCommitID(v)
    + "\nBuild Time: " + GetBuildTime(v) + "\nBuild Mode: " + GetBuildMode(v)
  }

  /** The labelled format, for arbitrary field values, is a newline join of five lines. */
  lemma FormatIsJoin(n: string, v: string, c: string, t: string, m: string)
    ensures n + "\nVersion: " + v + "\nCommit ID: " + c + "\nBuild Time: " + t + "\nBuild Mode: " + m
      == JoinWith([n, "Version: " + v, "Commit ID: " + c, "Build Time: " + t, "Build Mode: " + m], '\n')
  {
    var p1 := n + "\nVersion: " + v;
    assert "\nVersion: " == ['\n'] + "Version: ";
    Regroup(n, "Version: ", v, '\n');
    var p2 := p1 + "\nCommit ID: " + c;
    assert "\nCommit ID: " == ['\n'] + "Commit ID: ";
    Regroup(p1, "Commit ID: ", c, '\n');
    var p3 := p2 + "\nBuild Time: " + t;
    assert "\nBuild Time: " == ['\n'] + "Build Time: ";
    Regroup(p2, "Build Time: ", t, '\n');
    assert "\nBuild Mode: " == ['\n'] + "Build Mode: ";
    Regroup(p3, "Build Mode: ", m, '\n');
    JoinFive(n, "Version: " + v, "Commit ID: " + c, "Build Time: " + t, "Build Mode: " + m, '\n');
  }

  /** The greeting is its five lines joined with newlines. */
  lemma HelloIsJoinedLines(v: Vars)
    ensures HelloMessage(v) == JoinWith(HelloLines(v), '\n')
  {
    FormatIsJoin(ProjectName, GetVersion(v), GetCommitID(v), GetBuildTime(v), GetBuildMode(v));
  }

  predicate NoNewline(s: string) {
    '\n' !in s
  }

  /** With no newline inside the four values, the greeting has exactly five lines, the first "go-mage". */
  lemma {:induction false} HelloHasFiveLines(v: Vars)
    requires NoNewline(v.version) && NoNewline(v.commitID) && NoNewline(v.buildTime) && NoNewline(v.buildMode)
    ensures var lines := Split(HelloMessage(v), '\n');
      |lines| == 5 && lines[0] == ProjectName && lines == HelloLines(v)
  {
    var ls := HelloLines(v);
    assert NoNewline(GetBuildMode(v));
    forall k | 0 <= k < |ls| ensures '\n' !in ls[k] {
      if k == 4 {
        assert ls[4] == "Build Mode: " + GetBuildMode(v);
      }
    }
    SplitJoin(ls, '\n');
    HelloIsJoinedLines(v);
  }

  /** The greeting never ends in an empty "Build Mode: " field: the mode falls back to "production". */
  lemma BuildModeLineNeverBlank(v: Vars)
    requires NoNewline(v.version) && NoNewline(v.commitID) && NoNewline(v.buildTime) && NoNewline(v.buildMode)
    ensures var lines := Split(HelloMessage(v), '\n');
      lines[|lines| - 1] != "Build Mode: "
  {
    HelloHasFiveLines(v);
  }

  /** The greeting of a binary built without substitutions, line by line. */
  const DefaultLines: seq<string> := [
    "go-mage",
    "Version: 3.16.0",
    "Commit ID: 0000000000000000000000000000000000000000",
    "Build Time: 2021-01-01T00:00:00",
    "Build Mode: production"]

  /** With the compiled-in values the greeting is fully determined: exactly the five default lines. */
  lemma DefaultHelloMessage()
    ensures HelloMessage(Defaults) == JoinWith(DefaultLines, '\n')
  {
    DefaultsShape();
    assert "Version: " + "3.16.0" == DefaultLines[1];
    assert "Commit ID: " + "0000000000000000000000000000000000000000" == DefaultLines[2];
    assert "Build Time: " + "2021-01-01T00:00:00" == DefaultLines[3];
    assert "Build Mode: " + "production" == DefaultLines[4];
    assert HelloLines(Defaults) == DefaultLines;
    HelloIsJoinedLines(Defaults);
  }
}
