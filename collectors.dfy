/**
  The metadata collectors of the build client.  Each one runs a command and
  applies a fixed text rule to what the command printed; here the command is
  replaced by the text it printed, held in a `Workspace`.
 */
module Collectors {
  import opened Lines

  /**
    The text runCommand returned for each command in the build checkout: for
    `cat` of the ffmpeg VERSION file; for the ffmpeg binary run with no
    arguments, whose standard output and standard error chunks are kept in
    the order they arrived; and, per directory, for
    `git show -s --format=%cd --date=local HEAD` and for `ls` run there.
   */
  datatype Workspace = Workspace(
    versionFile: string,
    ffmpegOutput: string,
    gitShow: string -> string,
    listing: string -> string)

  const GitPrefix := "master ("
  const GitSuffix := " UTC)"
  const SnapshotPrefix := "snapshot ("
  const SnapshotSuffix := ")"

  /** getFFmpegVersion: the VERSION file up to its first newline. */
  function FFmpegVersion(versionFile: string): (version: string)
    ensures version == versionFile[..LineEnd(versionFile)]
    ensures '\n' !in version
  {
    FirstLine(versionFile)
  }

  /**
    getFFmpegConfig: segments 1 and 2 of the binary's output joined by a
    newline.  With fewer than three segments JavaScript reads `undefined` for
    the missing ones.
   */
  function FFmpegConfig(output: string): (config: string)
    ensures NewlineCount(output) >= 2 ==>
      Split(config) == [Split(output)[1], Split(output)[2]]
    ensures NewlineCount(output) == 1 ==>
      config == Split(output)[1] + "\nundefined"
    ensures NewlineCount(output) == 0 ==> config == "undefined\nundefined"
  {
    var config := Segment(output, 1) + "\n" + Segment(output, 2);
    if NewlineCount(output) >= 2 then
      SplitJoin([Segment(output, 1), Segment(output, 2)]);
      config
    else
      config
  }

  /** getGitVersion: the first line of the commit date, labelled as a master build in UTC. */
  function GitVersion(gitShowOutput: string): (desc: string)
    ensures |desc| == |GitPrefix| + LineEnd(gitShowOutput) + |GitSuffix|
    ensures desc[..|GitPrefix|] == GitPrefix
    ensures desc[|desc| - |GitSuffix|..] == GitSuffix
    ensures desc[|GitPrefix|..|desc| - |GitSuffix|] == gitShowOutput[..LineEnd(gitShowOutput)]
    ensures '\n' !in desc
  {
    GitPrefix + FirstLine(gitShowOutput) + GitSuffix
  }

  /** getSnapshotVersion: the first entry of a directory listing, labelled as a snapshot. */
  function SnapshotVersion(listingOutput: string): (desc: string)
    ensures |desc| == |SnapshotPrefix| + LineEnd(listingOutput) + |SnapshotSuffix|
    ensures desc[..|SnapshotPrefix|] == SnapshotPrefix
    ensures desc[|desc| - |SnapshotSuffix|..] == SnapshotSuffix
    ensures desc[|SnapshotPrefix|..|desc| - |SnapshotSuffix|] == listingOutput[..LineEnd(listingOutput)]
    ensures '\n' !in desc
  {
    SnapshotPrefix + FirstLine(listingOutput) + SnapshotSuffix
  }

  /** With at least three segments the config is segment 1, one newline, segment 2. */
  lemma ConfigIsSecondAndThird(output: string)
    requires NewlineCount(output) >= 2
    ensures FFmpegConfig(output) == Split(output)[1] + "\n" + Split(output)[2]
  {
  }

  /** Output of three or more lines: the config is exactly the second and third line. */
  lemma {:induction false} ConfigOfLines(first: string, second: string, third: string, rest: seq<string>)
    requires '\n' !in first && '\n' !in second && '\n' !in third
    requires forall i :: 0 <= i < |rest| ==> '\n' !in rest[i]
    ensures FFmpegConfig(Join([first, second, third] + rest)) == second + "\n" + third
  {
    var parts := [first, second, third] + rest;
    assert forall i :: 0 <= i < |parts| ==> '\n' !in parts[i] by {
      forall i | 0 <= i < |parts| ensures '\n' !in parts[i] {
        if i >= 3 { assert parts[i] == rest[i - 3]; }
      }
    }
    SplitJoin(parts);
    ConfigIsSecondAndThird(Join(parts));
  }

  /** A binary that prints four lines: lines 2 and 3 are kept, lines 1 and 4 dropped. */
  lemma ConfigOfFourLines(l1: string, l2: string, l3: string, l4: string)
    requires '\n' !in l1 && '\n' !in l2 && '\n' !in l3 && '\n' !in l4
    ensures FFmpegConfig(l1 + "\n" + l2 + "\n" + l3 + "\n" + l4) == l2 + "\n" + l3
  {
    ConfigOfLines(l1, l2, l3, [l4]);
    assert Join([l4]) == l4;
    assert Join([l3, l4]) == l3 + "\n" + l4;
    assert Join([l2, l3, l4]) == l2 + "\n" + (l3 + "\n" + l4);
    assert [l1, l2, l3] + [l4] == [l1, l2, l3, l4];
    assert Join([l1, l2, l3, l4]) == l1 + "\n" + (l2 + "\n" + (l3 + "\n" + l4));
    assert l1 + "\n" + (l2 + "\n" + (l3 + "\n" + l4)) == l1 + "\n" + l2 + "\n" + l3 + "\n" + l4;
  }

  /** A VERSION file holding "6.0\n" yields the version "6.0". */
  lemma VersionOfReleaseFile()
    ensures FFmpegVersion("6.0\n") == "6.0"
  {
  }
}
