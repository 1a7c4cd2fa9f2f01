/** The attachment a webhook message can carry (octoprint_octorant/media.py): a
    record saying what kind of media it is, filled in by one of three setters, and
    a dispatch that turns it into the multipart file to upload.

    The file system is a parameter: a map from path to the file's text lines and
    bytes. So is the variant of the thumbnail scanner: `Thumbnail.AsWritten` gives
    `get` as the program has it. Fetching a webcam snapshot and transforming it with Pillow are outside the
    model: `Get` answers with the request it would make. */
module Media {
  import opened Common
  import Thumbnail

  datatype MediaType = GcodeThumbnail | WebcamSnapshot | TimelapseFile

  /** The fields of a `Media` object; `kind` is `None` until a setter is called. */
  datatype Media = Media(
    kind: Option<MediaType>,
    filePath: string,
    url: string,
    flipH: bool,
    flipV: bool,
    rotate: bool,
    maxAcceptedSize: int)

  /** A freshly constructed `Media`. */
  const NEW_MEDIA: Media := Media(None, "", "", false, false, false, 0)

  /** What a file holds: its text lines (with their newlines, as iteration over a
      text-mode file yields them) and its bytes. */
  datatype FileEntry = FileEntry(lines: seq<string>, bytes: seq<bv8>)

  type FileSystem = map<string, FileEntry>

  /** The payload of an attachment. The thumbnail stays as its base64 text; decoding
      it is outside the model. */
  datatype Content = Base64Text(text: string) | Bytes(data: seq<bv8>)

  datatype Got =
    | NoAttachment
    | Attachment(filename: string, content: Content)
      /** The snapshot to fetch from `url`, with the transpositions to apply. */
    | FetchSnapshot(url: string, flipH: bool, flipV: bool, rotate: bool)

  // ---------------------------------------------------------------- setters

  function SetThumbnail(m: Media, filePath: string): (r: Media)
    ensures r.kind == Some(GcodeThumbnail) && r.filePath == filePath
    ensures r.url == m.url && r.flipH == m.flipH && r.flipV == m.flipV && r.rotate == m.rotate
    ensures r.maxAcceptedSize == m.maxAcceptedSize
  {
    m.(kind := Some(GcodeThumbnail), filePath := filePath)
  }

  function SetSnapshot(m: Media, url: string, flipH: bool, flipV: bool, rotate: bool): (r: Media)
    ensures r.kind == Some(WebcamSnapshot) && r.url == url
    ensures r.flipH == flipH && r.flipV == flipV && r.rotate == rotate
    ensures r.filePath == m.filePath && r.maxAcceptedSize == m.maxAcceptedSize
  {
    m.(kind := Some(WebcamSnapshot), url := url, flipH := flipH, flipV := flipV, rotate := rotate)
  }

  /** `set_timelapse(filePath, maxAcceptedSize=0)`. */
  function SetTimelapse(m: Media, filePath: string, maxAcceptedSize: int): (r: Media)
    ensures r.kind == Some(TimelapseFile) && r.filePath == filePath
    ensures r.maxAcceptedSize == maxAcceptedSize
    ensures r.url == m.url && r.flipH == m.flipH && r.flipV == m.flipV && r.rotate == m.rotate
  {
    m.(kind := Some(TimelapseFile), filePath := filePath, maxAcceptedSize := maxAcceptedSize)
  }

  // ---------------------------------------------------------------- paths

  /** `os.path.basename(p)`: the text after the last '/', the whole path when it
      has none, and empty when the path ends with '/'. */
  function Basename(p: string): (r: string)
    ensures |r| <= |p| && r == p[|p| - |r|..]
    ensures forall k :: 0 <= k < |r| ==> r[k] != '/'
    ensures |r| < |p| ==> p[|p| - |r| - 1] == '/'
    decreases |p|
  {
    if |p| == 0 || p[|p| - 1] == '/' then ""
    else
      var r := Basename(p[..|p| - 1]) + [p[|p| - 1]];
      assert p[..|p| - 1][|p| - |r|..] + [p[|p| - 1]] == p[|p| - |r|..];
      r
  }

  /** The name of a file in a directory is its base name. */
  lemma {:induction false} BasenameOfJoin(dir: string, name: string)
    requires forall k :: 0 <= k < |name| ==> name[k] != '/'
    ensures Basename(dir + "/" + name) == name
    decreases |name|
  {
    var p := dir + "/" + name;
    if |name| == 0 {
      assert p[|p| - 1] == '/';
    } else {
      var init := name[..|name| - 1];
      assert p[..|p| - 1] == dir + "/" + init;
      BasenameOfJoin(dir, init);
      assert init + [name[|name| - 1]] == name;
    }
  }

  // ---------------------------------------------------------------- grabbing

  /** `__grab_gcode_thumbnail`: nothing for a missing file, otherwise the thumbnail
      the scanner finds, as `thumbnail.png`. */
  function GrabThumbnail(v: Thumbnail.Variant, path: string, fs: FileSystem): (r: Got)
    ensures r.NoAttachment? || r.Attachment?
    ensures r.Attachment? <==> path in fs && Thumbnail.Grab(v, fs[path].lines).Some?
    ensures r.Attachment? ==>
              r.filename == "thumbnail.png" && r.content == Base64Text(Thumbnail.Grab(v, fs[path].lines).value)
  {
    if path !in fs then NoAttachment
    else match Thumbnail.Grab(v, fs[path].lines)
      case None => NoAttachment
      case Some(text) => Attachment("thumbnail.png", Base64Text(text))
  }

  /** The size cap of a timelapse: a positive cap rejects larger files, any other
      cap accepts every size. */
  predicate WithinCap(size: nat, maxAcceptedSize: int) {
    !(maxAcceptedSize > 0 && size > maxAcceptedSize)
  }

  /** `__grab_file`: nothing for a missing file or one above the cap, otherwise the
      file's bytes under its base name. */
  function GrabFile(path: string, maxAcceptedSize: int, fs: FileSystem): (r: Got)
    ensures r.NoAttachment? || r.Attachment?
    ensures r.Attachment? <==>
              path in fs && (maxAcceptedSize <= 0 || |fs[path].bytes| <= maxAcceptedSize)
    ensures r.Attachment? ==> r.filename == Basename(path) && r.content == Bytes(fs[path].bytes)
  {
    if path !in fs then NoAttachment
    else if !WithinCap(|fs[path].bytes|, maxAcceptedSize) then NoAttachment
    else Attachment(Basename(path), Bytes(fs[path].bytes))
  }

  /** `get`: dispatch on the media type; no type means no attachment. */
  function Get(v: Thumbnail.Variant, m: Media, fs: FileSystem): (r: Got)
    ensures m.kind.None? ==> r.NoAttachment?
    ensures r.FetchSnapshot? <==> m.kind == Some(WebcamSnapshot)
    ensures r.FetchSnapshot? ==>
              r.url == m.url && r.flipH == m.flipH && r.flipV == m.flipV && r.rotate == m.rotate
    ensures m.kind == Some(GcodeThumbnail) ==> r == GrabThumbnail(v, m.filePath, fs)
    ensures m.kind == Some(TimelapseFile) ==> r == GrabFile(m.filePath, m.maxAcceptedSize, fs)
  {
    match m.kind
    case None => NoAttachment
    case Some(GcodeThumbnail) => GrabThumbnail(v, m.filePath, fs)
    case Some(WebcamSnapshot) => FetchSnapshot(m.url, m.flipH, m.flipV, m.rotate)
    case Some(TimelapseFile) => GrabFile(m.filePath, m.maxAcceptedSize, fs)
  }

  // ---------------------------------------------------------------- properties

  /** A new `Media` yields nothing, whatever the file system holds. */
  lemma NewMediaHasNoAttachment(v: Thumbnail.Variant, fs: FileSystem)
    ensures Get(v, NEW_MEDIA, fs) == NoAttachment
  {
  }

  /** The last setter called decides what `get` does: a thumbnail set after a
      timelapse (or the other way round) reads the new path with the new rule. */
  lemma LastSetterDecides(v: Thumbnail.Variant, m: Media, path: string, max: int, fs: FileSystem)
    ensures Get(v, SetThumbnail(SetTimelapse(m, "", max), path), fs) == GrabThumbnail(v, path, fs)
    ensures Get(v, SetTimelapse(SetThumbnail(m, ""), path, max), fs) == GrabFile(path, max, fs)
  {
  }

  /** Raising the cap never loses an attachment, and a cap of zero or less accepts
      every file that exists. */
  lemma CapMonotone(path: string, cap: int, larger: int, fs: FileSystem)
    requires cap > 0 && cap <= larger
    ensures GrabFile(path, cap, fs).Attachment? ==> GrabFile(path, larger, fs).Attachment?
    ensures path in fs ==> GrabFile(path, 0, fs).Attachment?
  {
  }

  /** A timelapse in a directory is uploaded under its own file name. */
  lemma TimelapseName(dir: string, name: string, max: int, fs: FileSystem)
    requires forall k :: 0 <= k < |name| ==> name[k] != '/'
    requires dir + "/" + name in fs && WithinCap(|fs[dir + "/" + name].bytes|, max)
    ensures GrabFile(dir + "/" + name, max, fs) == Attachment(name, Bytes(fs[dir + "/" + name].bytes))
  {
    BasenameOfJoin(dir, name);
  }

  /** A g-code file whose larger thumbnail comes first is sent without an attachment
      by the program as written, and with the larger thumbnail by the corrected
      scanner. */
  lemma LargerFirstAttachment(m: Media, fs: FileSystem)
    requires m.kind == Some(GcodeThumbnail) && m.filePath in fs
    requires fs[m.filePath].lines == Thumbnail.LargerFirst(16, 16, 8, "QUJD", 8, 8, 4, "QQ==")
    ensures Get(Thumbnail.AsWritten, m, fs) == NoAttachment
    ensures Get(Thumbnail.Corrected, m, fs) == Attachment("thumbnail.png", Base64Text("QUJD"))
  {
    Thumbnail.LargerFirstExample();
  }
}
