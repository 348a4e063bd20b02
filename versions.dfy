/**
  getVersions: the library map of the build record.  The source builds a
  JavaScript object literal; its keys are not integer-like, so property order
  is insertion order and the map is modelled as an ordered sequence.
 */
module Versions {
  import opened Lines
  import opened Collectors

  /** A library of the build and the text shown as its version. */
  datatype Lib = Lib(name: string, version: string)

  /** Where a library's version comes from. */
  datatype Origin =
    | GitCheckout(dir: string)   // commit date of the checkout in `dir`
    | Fixed(version: string)     // no discoverable revision
    | Snapshot(dir: string)      // first entry of a directory listing

  /** The libraries in the order the object literal lists them. */
  const Libraries: seq<(string, Origin)> := [
    ("aom", GitCheckout("./aom/aom")),
    ("openh264", GitCheckout("./openh264/openh264")),
    ("x264", GitCheckout("./x264/x264")),
    ("x265", GitCheckout("./x265/x265_git")),
    ("vpx", GitCheckout("./vpx/libvpx")),
    ("lame", Fixed("3.100")),
    ("opus", Fixed("1.3.1")),
    ("vorbis", GitCheckout("./vorbis/vorbis")),
    ("svt-av1", GitCheckout("./svt-av1/SVT-AV1")),
    ("libass", GitCheckout("./libass/libass")),
    ("soxr", GitCheckout("./soxr/soxr")),
    ("openjpeg", GitCheckout("./openjpeg/openjpeg")),
    ("avisynth+", GitCheckout("./avisynthplus/AviSynthPlus")),
    ("xvid", Snapshot("./xvid"))
  ]

  const LibraryNames: seq<string> := [
    "aom", "openh264", "x264", "x265", "vpx", "lame", "opus",
    "vorbis", "svt-av1", "libass", "soxr", "openjpeg", "avisynth+", "xvid"
  ]

  /**
    The version text of one library: a checkout's commit date labelled as a
    master build, a fixed literal as it stands, or a directory's first entry
    labelled as a snapshot.  Only a fixed literal can hold a newline.
   */
  function Describe(origin: Origin, ws: Workspace): (desc: string)
    ensures origin.GitCheckout? ==>
      |desc| >= |GitPrefix| + |GitSuffix| && desc[..|GitPrefix|] == GitPrefix &&
      desc[|desc| - |GitSuffix|..] == GitSuffix &&
      desc[|GitPrefix|..|desc| - |GitSuffix|] == FirstLine(ws.gitShow(origin.dir))
    ensures origin.Snapshot? ==>
      |desc| >= |SnapshotPrefix| + |SnapshotSuffix| && desc[..|SnapshotPrefix|] == SnapshotPrefix &&
      desc[|desc| - |SnapshotSuffix|..] == SnapshotSuffix &&
      desc[|SnapshotPrefix|..|desc| - |SnapshotSuffix|] == FirstLine(ws.listing(origin.dir))
    ensures origin.Fixed? ==> desc == origin.version
    ensures !origin.Fixed? ==> '\n' !in desc
  {
    match origin
    case GitCheckout(dir) => GitVersion(ws.gitShow(dir))
    case Fixed(version) => version
    case Snapshot(dir) => SnapshotVersion(ws.listing(dir))
  }

  function Names(libs: seq<Lib>): (names: seq<string>)
    ensures |names| == |libs|
    ensures forall i :: 0 <= i < |libs| ==> names[i] == libs[i].name
  {
    if libs == [] then [] else [libs[0].name] + Names(libs[1..])
  }

  predicate Distinct(names: seq<string>)
  {
    forall i, j :: 0 <= i < j < |names| ==> names[i] != names[j]
  }

  /**
    `libs[name]`: a version stored under that name.  Names in the map are
    distinct (see `LookupDistinct`), so it is the version of the one entry
    with that name.
   */
  function Lookup(libs: seq<Lib>, name: string): (version: string)
    requires name in Names(libs)
    ensures exists i :: 0 <= i < |libs| && libs[i] == Lib(name, version)
  {
    if libs[0].name == name then libs[0].version else Lookup(libs[1..], name)
  }

  /** getVersions: one newline-free entry per library, in the fixed order, under distinct names. */
  function GetVersions(ws: Workspace): (libs: seq<Lib>)
    ensures Names(libs) == LibraryNames
    ensures Distinct(Names(libs))
    ensures forall i :: 0 <= i < |libs| ==> '\n' !in libs[i].version
  {
    var libs := seq(|Libraries|, i requires 0 <= i < |Libraries| =>
      Lib(Libraries[i].0, Describe(Libraries[i].1, ws)));
    LibraryTable();
    assert forall i :: 0 <= i < |libs| ==> '\n' !in libs[i].version by {
      forall i | 0 <= i < |libs| ensures '\n' !in libs[i].version {
        DescribeOneLine(Libraries[i].1, ws);
      }
    }
    assert Names(libs) == LibraryNames;
    libs
  }

  /** Facts about the fixed table of libraries. */
  lemma LibraryTable()
    ensures |Libraries| == |LibraryNames|
    ensures forall i :: 0 <= i < |Libraries| ==> Libraries[i].0 == LibraryNames[i]
    ensures forall i :: 0 <= i < |Libraries| && Libraries[i].1.Fixed? ==> '\n' !in Libraries[i].1.version
    ensures Distinct(LibraryNames)
  {
  }

  lemma DescribeOneLine(origin: Origin, ws: Workspace)
    requires origin.Fixed? ==> '\n' !in origin.version
    ensures '\n' !in Describe(origin, ws)
  {
  }

  /**
    Each library's version comes from its own source: the first line of
    `git show` in its own checkout, its fixed literal, or the first line of
    `ls` in its own directory.
   */
  lemma VersionForms(ws: Workspace)
    ensures forall i :: 0 <= i < |Libraries| ==> GetVersions(ws)[i].name == Libraries[i].0
    ensures forall i :: 0 <= i < |Libraries| && Libraries[i].1.GitCheckout? ==>
      GetVersions(ws)[i].version == GitVersion(ws.gitShow(Libraries[i].1.dir))
    ensures forall i :: 0 <= i < |Libraries| && Libraries[i].1.Fixed? ==>
      GetVersions(ws)[i].version == Libraries[i].1.version
    ensures forall i :: 0 <= i < |Libraries| && Libraries[i].1.Snapshot? ==>
      GetVersions(ws)[i].version == SnapshotVersion(ws.listing(Libraries[i].1.dir))
    ensures GetVersions(ws)[3] == Lib("x265", GitVersion(ws.gitShow("./x265/x265_git")))
    ensures GetVersions(ws)[13] == Lib("xvid", SnapshotVersion(ws.listing("./xvid")))
  {
    forall i | 0 <= i < |Libraries|
      ensures GetVersions(ws)[i] == Lib(Libraries[i].0, Describe(Libraries[i].1, ws))
    {
      Entry(ws, i);
    }
  }

  /** Entry `i` of the map is library `i` of the table, described from the workspace. */
  lemma Entry(ws: Workspace, i: nat)
    requires i < |Libraries|
    ensures |GetVersions(ws)| == |Libraries|
    ensures GetVersions(ws)[i] == Lib(Libraries[i].0, Describe(Libraries[i].1, ws))
  {
  }

  /** Looking a fixed library up in the map gives its literal version. */
  lemma {:induction false} FixedVersions(ws: Workspace)
    ensures "lame" in Names(GetVersions(ws)) && Lookup(GetVersions(ws), "lame") == "3.100"
    ensures "opus" in Names(GetVersions(ws)) && Lookup(GetVersions(ws), "opus") == "1.3.1"
  {
    var libs := GetVersions(ws);
    assert Names(libs)[5] == "lame" && Names(libs)[6] == "opus";
    LookupDistinct(libs, 5);
    LookupDistinct(libs, 6);
  }

  /** With distinct names, looking up an entry's name finds that entry. */
  lemma {:induction false} LookupDistinct(libs: seq<Lib>, k: nat)
    requires k < |libs| && Distinct(Names(libs))
    ensures libs[k].name in Names(libs) && Lookup(libs, libs[k].name) == libs[k].version
  {
    assert Names(libs)[k] == libs[k].name;
    if k > 0 {
      assert Names(libs)[0] != Names(libs)[k];
      assert Distinct(Names(libs[1..])) by {
        forall i, j | 0 <= i < j < |libs| - 1
          ensures Names(libs[1..])[i] != Names(libs[1..])[j]
        {
          assert Names(libs)[i + 1] != Names(libs)[j + 1];
        }
      }
      LookupDistinct(libs[1..], k - 1);
    }
  }
}
