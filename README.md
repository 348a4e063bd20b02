# ffmpeg-apple-arm64-build-client — a model of its metadata and publishing rules

The build client clones a build-script repository, builds ffmpeg for Apple
arm64, gathers version information about the result, uploads the archive to a
WordPress media endpoint and publishes a post about it. Almost all of this is
process spawning and HTTP. This project models the deterministic part of
`index.js`. Each shell-out is replaced by the text it printed, so every
collector becomes a function of that text.

- `Lines` (lines.dfy): JavaScript's `split("\n")` and the first-line rule that
  every collector applies. A split always yields one more segment than there
  are newlines. An index past the last segment reads `undefined`, which string
  concatenation renders as the text "undefined".
- `Collectors` (collectors.dfy): `getFFmpegVersion`, `getFFmpegConfig`,
  `getGitVersion` and `getSnapshotVersion`. They run over a `Workspace` value
  that holds the captured outputs:
  - the VERSION file, as `cat` printed it on standard output;
  - the text `runCommand` returned for the binary run with no arguments: its
    standard output and standard error chunks, in the order they arrived;
  - for each directory, the standard output of `git show … HEAD` run there;
  - for each directory, the standard output of `ls` run there.
- `Versions` (versions.dfy): `getVersions`. The object literal becomes an
  ordered sequence of `Lib(name, version)` in insertion order. JavaScript's
  `for…in` visits keys in that order because none of the keys looks like an
  integer.
- `Post` (post.dfy): the post title, the table loop of `getPostContent`
  (a method with a loop invariant, proved against the `Rows` function),
  the content template, and `getPost`.
- `Record` (record.dfy): the attachment descriptor, the record file name,
  and the build record as a class:
  - `getBuildInfo` is a constructor;
  - `sendAttachment` returns a fresh copy, which is what the object spread does;
  - `sendPost` assigns `post` in place.

Two behaviours of the code worth noting:
- `getFFmpegConfig` always reads segments 1 and 2. With fewer than three
  segments it splices the text "undefined" into the result (index.js:213).
- The snapshot version is the first line `ls` prints, in whatever order `ls`
  lists (index.js:258-260).

## Model

| member | source | states |
|---|---|---|
| `Lines.Split` | index.js:212 | the split has exactly one more segment than the text has newlines, and no segment holds a newline |
| `Lines.JoinSplit` | index.js:212 | joining the segments with "\n" gives back the captured text |
| `Lines.SplitJoin` | index.js:212 | newline-free lines joined with "\n" split back into the same lines (the other direction of the round trip) |
| `Lines.FirstLine` | index.js:219 | segment 0 is the prefix before the first newline and holds no newline; it is the whole text when there is no newline |
| `Lines.FirstLineIdempotent` | index.js:219 | the first line of a first line is that first line |
| `Lines.Segment` | index.js:213 | `splitted[i]` is segment `i` of the split (newline-free) while `i` is within the split; past the end it is "undefined" |
| `Collectors.FFmpegVersion` | index.js:216-220 | the version is the VERSION file up to its first newline and holds no newline |
| `Collectors.VersionOfReleaseFile` | index.js:218-219 | a VERSION file holding "6.0\n" gives the version "6.0" |
| `Collectors.FFmpegConfig` | index.js:209-214 | with three or more segments the config splits into exactly segments 1 and 2; with two segments it is segment 1, a newline and "undefined"; with one segment it is "undefined\nundefined" |
| `Collectors.ConfigIsSecondAndThird` | index.js:212-213 | with three or more segments the config is segment 1, exactly one "\n", then segment 2 |
| `Collectors.ConfigOfLines` | index.js:211-213 | for output made of lines l0, l1, l2 and any further lines, the config is l1 + "\n" + l2; line 0 and lines from 3 on are dropped |
| `Collectors.ConfigOfFourLines` | index.js:211-213 | a four-line output yields its second and third lines, joined by a newline |
| `Collectors.GitVersion` | index.js:245-252 | the description starts with "master (", ends with " UTC)", holds exactly the first line of the `git show` output in between, and holds no newline |
| `Collectors.SnapshotVersion` | index.js:254-261 | the description starts with "snapshot (", ends with ")", holds exactly the first line of the `ls` output in between, and holds no newline |
| `Versions.GetVersions` | index.js:222-243 | the map has the 14 names aom … xvid in the literal's order, the names are pairwise distinct, and no version holds a newline |
| `Versions.Describe` | index.js:228-241 | a git-checkout entry is "master (", the first line of `git show` in that checkout, " UTC)"; a snapshot entry is "snapshot (", the first line of `ls` in that directory, ")"; a fixed entry is its literal; only a literal can hold a newline |
| `Versions.VersionForms` | index.js:228-241 | entry `i` carries the `i`-th name; each git-checkout library's version is `getGitVersion` of its own directory (x265 reads ./x265/x265_git), each fixed library's is its literal, and xvid's is `getSnapshotVersion` of ./xvid |
| `Versions.FixedVersions` | index.js:233-234 | looking up lame gives "3.100" and opus gives "1.3.1", whatever the checkouts print |
| `Versions.Lookup` | index.js:184 | `libs[libName]` returns a version stored under that name |
| `Versions.LookupDistinct` | index.js:182-184 | with distinct names, looking up an entry's name returns that entry's version, so walking the entries equals walking the keys |
| `Post.PostTitle` | index.js:173-177 | the title is "FFmpeg " followed by exactly the first line of the VERSION file, and holds no newline |
| `Post.Decimal` | index.js:188 | the id is rendered as a non-empty string of decimal digits with no leading zero |
| `Post.DecimalRoundTrip` | index.js:188 | the rendered digits denote the id itself |
| `Post.Row` | index.js:185 | a row is as long as its tags, name and version together, opens with "<tr>" and closes with "</tr>" |
| `Post.RowCells` | index.js:185 | the name sits right after "<tr><td>", then "</td><td>", then the version, then "</td></tr>" |
| `Post.Rows` | index.js:181-187 | the accumulated table is empty exactly when there are no libraries; otherwise it opens with "<tr>" and closes with "</tr>" |
| `Post.Content` | index.js:188-198 | the filled template has exactly the length of its pieces, and each piece sits right after the previous one: opening text, attachment id, href text, URL, button text, URL again, code-block text, build config, table-head text, table rows, closing text |
| `Post.GetPostContent` | index.js:179-199 | the result is the template filled with `Rows(libs)`: the loop appends one row per library, in map order (`GetPost` passes the source's template, `PostTemplate`) |
| `Post.RowsConcat` | index.js:181-187 | the rows of `a + b` are the rows of `a` followed by the rows of `b` |
| `Post.RowsAppend` | index.js:186 | appending a library appends exactly its row |
| `Post.RowOpenCountRow` | index.js:185 | one row opens exactly one "<tr>" when name and version hold no '<' |
| `Post.RowCount` | index.js:181-187 | the table holds exactly one "<tr>" per library when names and versions hold no '<' |
| `Post.GetPost` | index.js:163-171 | the title comes from the VERSION file; the content uses the config and the versions from fresh collector runs; the status is "publish"; the categories are exactly the one configured category |
| `Record.GetAttachmentData` | index.js:201-207 | the path is always "./ffmpeg-success.zip"; the file name is "ffmpeg-apple-arm64-" + the version's first line + ".zip"; nothing is uploaded yet |
| `Record.RecordPath` | index.js:97 | the record file is the root directory, "/", the attachment file name, then ".json" |
| `Record.RecordNamedAfterVersion` | index.js:97 | the record file name is the archive name built from the version, followed by ".json" |
| `Record.TitleMatchesFilename` | index.js:173-177 | the post title and the archive name carry the same version text |
| `Record.ReleaseNames` | index.js:203-206 | VERSION "6.0\n" gives the archive "ffmpeg-apple-arm64-6.0.zip" and the title "FFmpeg 6.0" |
| `Record.ReleaseRecordPath` | index.js:97 | VERSION "6.0\n" gives the record file "ffmpeg-apple-arm64-6.0.zip.json" |
| `Record.BuildRecord.GetBuildInfo` | index.js:78-85 | the new record holds the collectors' version, config, library map and attachment; it has no post |
| `Record.BuildRecord.Copy` | index.js:137 | the spread copies every property into a new object |
| `Record.BuildRecord.SendAttachment` | index.js:119-144 | the result is a fresh record; only `attachment` differs, gaining the answered id and URL; path, file name, ffmpeg data, libraries and post are unchanged, and so is the original record |
| `Record.BuildRecord.SendPost` | index.js:146-148 | the record's `post` becomes the post for the uploaded id and URL; no other property changes |

## Left out

- `runCommand` (process spawning, stream callbacks, console echo, log-file
  appends): each invocation is replaced by the text it returned. The order in
  which stdout and stderr chunks interleave is part of that text.
- `runCommand` resolves on the process's "exit" event, which can fire before
  the last output chunks arrive, so the text it returns may be cut short.
  The model takes whatever text was returned; it does not model the
  truncation.
- `chdir` and the `process.env.TZ` assignment: the working directory and the
  timezone are process state. The captured `git show` and `ls` outputs are
  taken as already produced in the right directory and timezone. The `pwd`
  call that saves the directory is not modelled.
- The `curl` requests to the media and posts endpoints and `JSON.parse` of
  the upload answer: the answer enters as an already parsed id and URL. A
  malformed answer, which aborts the run, is not modelled.
- `readConfig`: the category is a parameter, and the credentials and URL
  appear only in the HTTP calls. `config.category` is whatever JSON value
  config.json holds (index.js:17, :169); the model narrows it to an `int`
  (`Post.GetPost`, `Record.BuildRecord.SendPost`).
- Repeated runs of one command: the source reads the VERSION file three
  times (index.js:114, :175, :205), runs the ffmpeg binary twice (:115,
  :167) and every `git show` and `ls` twice, because `getVersions` runs at
  :82 and again at :167. The model holds one text per command, so every
  repeated run is taken to return the same text; the build tree does not
  change during a run. `Record.TitleMatchesFilename`,
  `Record.RecordNamedAfterVersion`, `Record.BuildRecord.GetBuildInfo` and
  `Record.BuildRecord.SendPost` rely on this: the agreement they state
  between the title, the archive name, the record's `ffmpeg` and `libs` and
  the post content holds only when the repeated runs agree.
- `main`, `setupRepo`, `build`, `cleanUp`: I/O sequencing, the git clone,
  the build script, and the archive move and delete.
- `writeBuildInformation`: only the file name is modelled. JSON
  serialisation and the append-mode write are not, so writing twice to the
  same file is not modelled either.
- Git's date formatting and `ls`'s ordering: external. The model takes the
  first line as printed.
- `Post.Decimal`: renders a natural number. JavaScript numbers beyond 2^53,
  negative ids and non-integer ids are not modelled.
- `Post.Content`: the template's fixed HTML text is kept as six constant
  fragments (`PostTemplate`). What it means as WordPress block markup is not
  modelled.
- `Post.RowCount`: counts rows only when no library name or version contains
  '<'. A version holding "<tr>" would add a row to the rendered HTML.
- Record: the record is shared by reference. `ffmpeg` and `libs` are
  immutable values here. In the source, the copy made by `sendAttachment`
  shares those objects with the original, but nothing mutates them, so the
  difference cannot be observed.
