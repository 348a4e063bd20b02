/**
  The build record: the ffmpeg version and configuration, the library map,
  the attachment descriptor and, once the post is created, the post.  The
  source keeps it in a plain JavaScript object: getBuildInfo creates it,
  sendAttachment copies it with a spread, and sendPost assigns its `post`
  property in place.
 */
module Record {
  import opened Lines
  import opened Collectors
  import opened Versions
  import opened Post

  datatype Option<T> = None | Some(value: T)

  datatype FFmpegData = FFmpegData(version: string, config: string)

  /** What the media endpoint answered: the media id and its URL. */
  datatype Upload = Upload(id: nat, url: string)

  /** The archive to upload; `upload` is filled in by sendAttachment. */
  datatype Attachment = Attachment(path: string, filename: string, upload: Option<Upload>)

  /** The archive the build leaves in the build checkout. */
  const AttachmentPath := "./ffmpeg-success.zip"
  const FilenamePrefix := "ffmpeg-apple-arm64-"
  const FilenameSuffix := ".zip"
  const RecordSuffix := ".json"

  /** getAttachmentData: the fixed archive path and a file name carrying the ffmpeg version. */
  function GetAttachmentData(versionFile: string): (a: Attachment)
    ensures a.path == AttachmentPath && a.upload == None
    ensures |a.filename| == |FilenamePrefix| + LineEnd(versionFile) + |FilenameSuffix|
    ensures a.filename[..|FilenamePrefix|] == FilenamePrefix
    ensures a.filename[|a.filename| - |FilenameSuffix|..] == FilenameSuffix
    ensures a.filename[|FilenamePrefix|..|a.filename| - |FilenameSuffix|] == versionFile[..LineEnd(versionFile)]
  {
    var version := FFmpegVersion(versionFile);
    var filename := FilenamePrefix + version + FilenameSuffix;
    assert filename[|FilenamePrefix|..|filename| - |FilenameSuffix|] == version;
    Attachment(AttachmentPath, filename, None)
  }

  /** writeBuildInformation: the record is written next to the client, named after the archive. */
  function RecordPath(rootDir: string, filename: string): (path: string)
    ensures |path| == |rootDir| + 1 + |filename| + |RecordSuffix|
    ensures path[..|rootDir| + 1] == rootDir + "/"
    ensures path[|rootDir| + 1..|path| - |RecordSuffix|] == filename
    ensures path[|path| - |RecordSuffix|..] == RecordSuffix
  {
    var path := rootDir + "/" + filename + RecordSuffix;
    assert path[|rootDir| + 1..|path| - |RecordSuffix|] == filename;
    path
  }

  class BuildRecord {
    var ffmpeg: FFmpegData
    var libs: seq<Lib>
    var attachment: Attachment
    var post: Option<Post>

    /** getBuildInfo: every collector runs once against the same checkout. */
    constructor GetBuildInfo(ws: Workspace)
      ensures ffmpeg == FFmpegData(FFmpegVersion(ws.versionFile), FFmpegConfig(ws.ffmpegOutput))
      ensures libs == GetVersions(ws)
      ensures attachment == GetAttachmentData(ws.versionFile)
      ensures post == None
    {
      ffmpeg := FFmpegData(FFmpegVersion(ws.versionFile), FFmpegConfig(ws.ffmpegOutput));
      libs := GetVersions(ws);
      attachment := GetAttachmentData(ws.versionFile);
      post := None;
    }

    /**
      sendAttachment: a new record equal to this one except that the
      attachment carries the media id and URL the upload answered with.
      This record is left as it was.
     */
    method SendAttachment(id: nat, url: string) returns (next: BuildRecord)
      ensures fresh(next)
      ensures next.ffmpeg == ffmpeg && next.libs == libs && next.post == post
      ensures next.attachment.path == attachment.path
      ensures next.attachment.filename == attachment.filename
      ensures next.attachment.upload == Some(Upload(id, url))
    {
      next := new BuildRecord.Copy(this);
      next.attachment := Attachment(attachment.path, attachment.filename, Some(Upload(id, url)));
    }

    /** The spread `{...data}`: a new object with the same properties. */
    constructor Copy(from: BuildRecord)
      ensures ffmpeg == from.ffmpeg && libs == from.libs
      ensures attachment == from.attachment && post == from.post
    {
      ffmpeg, libs, attachment, post := from.ffmpeg, from.libs, from.attachment, from.post;
    }

    /**
      sendPost: builds the post from fresh runs of the collectors and the
      uploaded attachment, and stores it in this record; nothing else changes.
     */
    method SendPost(ws: Workspace, category: int)
      requires attachment.upload.Some?
      modifies this`post
      ensures post.Some?
      ensures post.value.title == PostTitle(ws.versionFile)
      ensures post.value.content == Content(PostTemplate, old(attachment).upload.value.id, old(attachment).upload.value.url,
                                            FFmpegConfig(ws.ffmpegOutput), Rows(GetVersions(ws)))
      ensures post.value.status == PostStatus && post.value.categories == [category]
    {
      var upload := attachment.upload.value;
      var p := GetPost(ws, upload.id, upload.url, category);
      post := Some(p);
    }
  }

  /** The post title and the archive name carry the same version text. */
  lemma TitleMatchesFilename(versionFile: string)
    ensures var filename := GetAttachmentData(versionFile).filename;
      PostTitle(versionFile)[7..] == filename[|FilenamePrefix|..|filename| - |FilenameSuffix|]
  {
  }

  /** The record file of a run is the archive name followed by ".json". */
  lemma RecordNamedAfterVersion(rootDir: string, versionFile: string)
    ensures RecordPath(rootDir, GetAttachmentData(versionFile).filename)
      == rootDir + "/" + FilenamePrefix + FFmpegVersion(versionFile) + FilenameSuffix + RecordSuffix
  {
  }

  /** A VERSION file holding "6.0\n" names the archive and the post after 6.0. */
  lemma ReleaseNames()
    ensures GetAttachmentData("6.0\n").filename == "ffmpeg-apple-arm64-6.0.zip"
    ensures PostTitle("6.0\n") == "FFmpeg 6.0"
  {
  }

  /** ... and the record file after that archive. */
  lemma ReleaseRecordPath(rootDir: string)
    ensures RecordPath(rootDir, GetAttachmentData("6.0\n").filename)
      == rootDir + "/" + "ffmpeg-apple-arm64-6.0.zip" + RecordSuffix
  {
    ReleaseNames();
  }
}
