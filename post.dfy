/**
  The blog post the build client publishes: its title, its content (a file
  download block, a code block with the build configuration and a table of
  library versions) and its fixed status and category list.
 */
module Post {
  import opened Lines
  import opened Collectors
  import opened Versions

  /** POST_STATUS: every post is published immediately. */
  const PostStatus := "publish"

  /** The fixed text of the content template, around the interpolated values. */
  datatype Template = Template(
    fileOpen: string,    // before the attachment id
    fileHref: string,    // between the id and the first URL
    fileButton: string,  // between the two URLs
    codeOpen: string,    // between the second URL and the build configuration
    tableOpen: string,   // between the configuration and the table rows
    tableClose: string)  // after the table rows

  /** The template literal of getPostContent, cut at its interpolations. */
  const PostTemplate := Template(
    "<!-- wp:file {\"id\":",
    ",\"href\":\"",
    "\"} -->\n<div class=\"wp-block-file\"><a href=\"",
    "\" class=\"wp-block-file__button\" download>Download</a></div>\n<!-- /wp:file -->\n\n<!-- wp:code -->\n<pre class=\"wp-block-code\"><code>",
    "</code></pre>\n<!-- /wp:code -->\n\n<!-- wp:table {\"className\":\"is-style-stripes\"} -->\n<figure class=\"wp-block-table is-style-stripes\"><table><thead><tr><th>Library</th><th>Version</th></tr></thead><tbody>",
    "</tbody></table></figure>\n<!-- /wp:table -->")

  const RowOpen := "<tr>"
  const CellOpen := "<td>"
  const CellSep := "</td><td>"
  const RowClose := "</td></tr>"

  datatype Post = Post(title: string, content: string, status: string, categories: seq<int>)

  /** getPostTitle: "FFmpeg " followed by the first line of the VERSION file. */
  function PostTitle(versionFile: string): (title: string)
    ensures |title| == 7 + LineEnd(versionFile)
    ensures title[..7] == "FFmpeg "
    ensures title[7..] == versionFile[..LineEnd(versionFile)]
    ensures '\n' !in title
  {
    "FFmpeg " + FFmpegVersion(versionFile)
  }

  /** One table row: the library name in the first cell, its version in the second. */
  function Row(lib: Lib): (row: string)
    ensures |row| == |RowOpen| + |CellOpen| + |lib.name| + |CellSep| + |lib.version| + |RowClose|
    ensures OpensRow(row) && ClosesRow(row)
  {
    RowOpen + CellOpen + (lib.name + (CellSep + (lib.version + RowClose)))
  }

  /** The rows of all libraries, in map order: empty exactly when there are none, else opening and closing a row. */
  function Rows(libs: seq<Lib>): (table: string)
    ensures table == [] <==> libs == []
    ensures libs != [] ==> OpensRow(table) && ClosesRow(table)
  {
    if libs == [] then "" else Rows(libs[..|libs| - 1]) + Row(libs[|libs| - 1])
  }

  function DigitChar(d: nat): (c: char)
    requires d < 10
    ensures '0' <= c <= '9'
  {
    (('0' as int) + d) as char
  }

  /** A number interpolated into a template string: its decimal digits. */
  function Decimal(n: nat): (digits: string)
    ensures |digits| >= 1
    ensures forall i :: 0 <= i < |digits| ==> '0' <= digits[i] <= '9'
    ensures |digits| > 1 ==> digits[0] != '0'
  {
    if n < 10 then [DigitChar(n)] else Decimal(n / 10) + [DigitChar(n % 10)]
  }

  /** The value a string of decimal digits denotes. */
  function DecimalValue(digits: string): nat
  {
    if digits == [] then 0
    else
      var d := digits[|digits| - 1] as int - '0' as int;
      DecimalValue(digits[..|digits| - 1]) * 10 + (if 0 <= d then d else 0)
  }

  /**
    The template with the attachment, the config and the table filled in:
    each fixed fragment and each value sits at its own place, in the order
    id, URL, URL, config, rows.
   */
  function Content(t: Template, id: nat, url: string, config: string, table: string): (content: string)
    ensures |content| == |t.fileOpen| + |Decimal(id)| + |t.fileHref| + |url| + |t.fileButton| + |url|
                         + |t.codeOpen| + |config| + |t.tableOpen| + |table| + |t.tableClose|
    ensures var idAt := |t.fileOpen|;
      var hrefAt := idAt + |Decimal(id)| + |t.fileHref|;
      var buttonAt := hrefAt + |url| + |t.fileButton|;
      var configAt := buttonAt + |url| + |t.codeOpen|;
      var tableAt := configAt + |config| + |t.tableOpen|;
      At(content, 0, t.fileOpen) && At(content, idAt, Decimal(id)) &&
      At(content, idAt + |Decimal(id)|, t.fileHref) && At(content, hrefAt, url) &&
      At(content, hrefAt + |url|, t.fileButton) && At(content, buttonAt, url) &&
      At(content, buttonAt + |url|, t.codeOpen) && At(content, configAt, config) &&
      At(content, configAt + |config|, t.tableOpen) && At(content, tableAt, table) &&
      At(content, tableAt + |table|, t.tableClose)
  {
    t.fileOpen + (Decimal(id) + (t.fileHref + (url + (t.fileButton + (url + (t.codeOpen
      + (config + (t.tableOpen + (table + t.tableClose)))))))))
  }

  /**
    getPostContent: the loop appends one row per library, in map order, and
    the rows are placed in the table body of the template.
   */
  method GetPostContent(t: Template, config: string, libs: seq<Lib>, id: nat, url: string)
    returns (content: string)
    ensures content == Content(t, id, url, config, Rows(libs))
  {
    var table := "";
    for i := 0 to |libs|
      invariant table == Rows(libs[..i])
    {
      assert libs[..i + 1][..i] == libs[..i];
      table := table + Row(libs[i]);
    }
    assert libs[..|libs|] == libs;
    content := Content(t, id, url, config, table);
  }

  /**
    getPost: the title and content are computed from fresh runs of the
    collectors; the status and the single category are fixed.
   */
  method GetPost(ws: Workspace, id: nat, url: string, category: int) returns (post: Post)
    ensures post.title == PostTitle(ws.versionFile)
    ensures post.content == Content(PostTemplate, id, url, FFmpegConfig(ws.ffmpegOutput), Rows(GetVersions(ws)))
    ensures post.status == PostStatus && post.categories == [category]
  {
    var content := GetPostContent(PostTemplate, FFmpegConfig(ws.ffmpegOutput), GetVersions(ws), id, url);
    post := Post(PostTitle(ws.versionFile), content, PostStatus, [category]);
  }

  /** The number the digits of `Decimal(n)` denote is `n`. */
  lemma {:induction false} DecimalRoundTrip(n: nat)
    ensures DecimalValue(Decimal(n)) == n
  {
    if n >= 10 {
      DecimalRoundTrip(n / 10);
      var digits := Decimal(n);
      assert digits[..|digits| - 1] == Decimal(n / 10);
    }
  }

  /** The rows of two consecutive parts of the map are the rows of each part, in order. */
  lemma {:induction false} RowsConcat(first: seq<Lib>, second: seq<Lib>)
    ensures Rows(first + second) == Rows(first) + Rows(second)
    decreases |second|
  {
    if second == [] {
      assert first + second == first;
    } else {
      var init, last := second[..|second| - 1], second[|second| - 1];
      DropLast(first, second);
      RowsConcat(first, init);
      Regroup(Rows(first + init), Rows(first), Rows(init), Row(last));
    }
  }

  /** The last library of `first + second` is the last of `second`; what precedes it is `first` and the rest of `second`. */
  lemma DropLast(first: seq<Lib>, second: seq<Lib>)
    requires second != []
    ensures (first + second)[..|first + second| - 1] == first + second[..|second| - 1]
    ensures (first + second)[|first + second| - 1] == second[|second| - 1]
  {
  }

  /** Regrouping a three-part concatenation whose first two parts make up `x`. */
  lemma Regroup(x: string, a: string, b: string, c: string)
    requires x == a + b
    ensures x + c == a + (b + c)
  {
  }

  /** The name sits in the first cell of its row, the version in the second. */
  lemma RowCells(lib: Lib)
    ensures var nameAt := |RowOpen| + |CellOpen|;
      var versionAt := nameAt + |lib.name| + |CellSep|;
      At(Row(lib), 0, RowOpen + CellOpen) && At(Row(lib), nameAt, lib.name) &&
      At(Row(lib), nameAt + |lib.name|, CellSep) && At(Row(lib), versionAt, lib.version) &&
      At(Row(lib), versionAt + |lib.version|, RowClose)
  {
  }

  /** Appending a library appends exactly its row. */
  lemma RowsAppend(libs: seq<Lib>, lib: Lib)
    ensures Rows(libs + [lib]) == Rows(libs) + Row(lib)
  {
  }

  /** Number of places where a row starts ("<tr>") in `s`. */
  function RowOpenCount(s: string): nat
  {
    if |s| < |RowOpen| then 0
    else (if OpensRow(s) then 1 else 0) + RowOpenCount(s[1..])
  }

  /** `s` starts with "<tr>". */
  predicate OpensRow(s: string)
  {
    |s| >= 4 && s[0] == '<' && s[1] == 't' && s[2] == 'r' && s[3] == '>'
  }

  /** `s` ends with "</tr>". */
  predicate ClosesRow(s: string)
  {
    var n := |s|;
    n >= 5 && s[n - 5] == '<' && s[n - 4] == '/' && s[n - 3] == 't' && s[n - 2] == 'r' && s[n - 1] == '>'
  }

  /** No '<' in the last three characters: no "<tr>" can straddle the end of `s`. */
  predicate QuietEnd(s: string)
  {
    forall i :: 0 <= i < |s| && |s| - 3 <= i ==> s[i] != '<'
  }

  lemma {:induction false} RowOpenCountNoAngle(s: string)
    requires '<' !in s
    ensures RowOpenCount(s) == 0
  {
    if |s| >= |RowOpen| {
      assert s[0] != '<';
      RowOpenCountNoAngle(s[1..]);
    }
  }

  lemma {:induction false} RowOpenCountConcat(a: string, b: string)
    requires QuietEnd(a)
    ensures RowOpenCount(a + b) == RowOpenCount(a) + RowOpenCount(b)
  {
    if a != [] {
      assert (a + b)[1..] == a[1..] + b;
      assert QuietEnd(a[1..]) by {
        forall i | 0 <= i < |a[1..]| && |a[1..]| - 3 <= i ensures a[1..][i] != '<' {
          assert a[1..][i] == a[i + 1];
        }
      }
      if |a| < |RowOpen| {
        assert a[0] != '<' && (a + b)[0] == a[0];
        assert RowOpenCount(a[1..]) == 0;
        RowOpenCountConcat(a[1..], b);
      } else {
        RowOpenCountConcat(a[1..], b);
        assert OpensRow(a + b) == OpensRow(a);
      }
    } else {
      assert a + b == b;
    }
  }

  /** Of the fixed pieces of a row only its opening tag opens a row. */
  lemma RowPiecesCount()
    ensures RowOpenCount(RowOpen + CellOpen) == 1
    ensures RowOpenCount(CellSep) == 0
    ensures RowOpenCount(RowClose) == 0
    ensures QuietEnd(RowOpen + CellOpen) && QuietEnd(CellSep)
  {
    var open := RowOpen + CellOpen;
    assert RowOpenCount(open[5..]) == 0;
    assert RowOpenCount(open[4..]) == 0;
    assert RowOpenCount(open[3..]) == 0;
    assert RowOpenCount(open[2..]) == 0;
    assert RowOpenCount(open[1..]) == 0;
    assert RowOpenCount(CellSep[5..]) == 0;
    assert RowOpenCount(CellSep[4..]) == 0;
    assert RowOpenCount(CellSep[3..]) == 0;
    assert RowOpenCount(CellSep[2..]) == 0;
    assert RowOpenCount(CellSep[1..]) == 0;
    assert RowOpenCount(RowClose[6..]) == 0;
    assert RowOpenCount(RowClose[5..]) == 0;
    assert RowOpenCount(RowClose[4..]) == 0;
    assert RowOpenCount(RowClose[3..]) == 0;
    assert RowOpenCount(RowClose[2..]) == 0;
    assert RowOpenCount(RowClose[1..]) == 0;
  }

  /** A row of a library whose name and version hold no '<' opens exactly one row. */
  lemma RowOpenCountRow(lib: Lib)
    requires '<' !in lib.name && '<' !in lib.version
    ensures RowOpenCount(Row(lib)) == 1
  {
    RowPiecesCount();
    CellsOpenNoRow(lib);
    RowOpenCountConcat(RowOpen + CellOpen, lib.name + (CellSep + (lib.version + RowClose)));
  }

  /** After its opening tag, a row opens no further row. */
  lemma CellsOpenNoRow(lib: Lib)
    requires '<' !in lib.name && '<' !in lib.version
    ensures RowOpenCount(lib.name + (CellSep + (lib.version + RowClose))) == 0
  {
    RowPiecesCount();
    RowOpenCountNoAngle(lib.version);
    RowOpenCountConcat(lib.version, RowClose);
    RowOpenCountConcat(CellSep, lib.version + RowClose);
    RowOpenCountNoAngle(lib.name);
    RowOpenCountConcat(lib.name, CellSep + (lib.version + RowClose));
  }

  /** The table has exactly one row per library. */
  lemma {:induction false} RowCount(libs: seq<Lib>)
    requires forall i :: 0 <= i < |libs| ==> '<' !in libs[i].name && '<' !in libs[i].version
    ensures RowOpenCount(Rows(libs)) == |libs|
  {
    if libs != [] {
      var init := libs[..|libs| - 1];
      RowCount(init);
      RowsQuietEnd(init);
      RowOpenCountConcat(Rows(init), Row(libs[|libs| - 1]));
      RowOpenCountRow(libs[|libs| - 1]);
    }
  }

  /** The table ends with a row's closing tag, so no "<tr>" straddles its end. */
  lemma RowsQuietEnd(libs: seq<Lib>)
    ensures QuietEnd(Rows(libs))
  {
  }
}
