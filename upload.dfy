/**
 * The upload handler: a media message sent while an upload folder is set is
 * copied to the storage channel and recorded in the drive index under the
 * current folder, with a file name derived from the original message and a
 * size taken from the copy.
 */
module Upload {
  import opened Wrappers
  import opened PyStr
  import BotSession

  /** The media object of one kind, with the attributes the handler reads. */
  datatype MediaFile = MediaFile(fileName: Option<string>, fileSize: Option<nat>)

  /** A message with at most one media object of each kind (None when absent). */
  datatype MediaMessage = MediaMessage(
    id: nat,
    document: Option<MediaFile>,
    video: Option<MediaFile>,
    audio: Option<MediaFile>,
    photo: Option<MediaFile>,
    sticker: Option<MediaFile>)

  datatype MediaKind = Document | Video | Audio | Photo | Sticker

  /** The arguments of `new_file`: folder, file name (possibly None), copied message id, size. */
  datatype NewFile = NewFile(folder: string, name: Option<string>, storageRef: nat, size: nat)

  datatype UploadOutcome =
    | NoFolderSet               // reported before anything is copied or recorded
    | Failed(copyMade: bool)    // an exception caught by the handler; a copy may be left behind
    | Uploaded(record: NewFile)

  /** The media object of kind `k`, if the message has one. */
  function MediaOf(m: MediaMessage, k: MediaKind): Option<MediaFile> {
    match k
    case Document => m.document
    case Video => m.video
    case Audio => m.audio
    case Photo => m.photo
    case Sticker => m.sticker
  }

  /** The position of a kind in the handler's order document, video, audio, photo, sticker. */
  function Rank(k: MediaKind): nat {
    match k
    case Document => 0
    case Video => 1
    case Audio => 2
    case Photo => 3
    case Sticker => 4
  }

  /** The first media kind present, in the order document, video, audio, photo, sticker. */
  function KindOf(m: MediaMessage): (r: Option<MediaKind>)
    ensures r.None? ==> forall k: MediaKind :: MediaOf(m, k).None?
    ensures r.Some? ==> MediaOf(m, r.value).Some?
    ensures r.Some? ==> forall k: MediaKind :: Rank(k) < Rank(r.value) ==> MediaOf(m, k).None?
  {
    if m.document.Some? then Some(Document)
    else if m.video.Some? then Some(Video)
    else if m.audio.Some? then Some(Audio)
    else if m.photo.Some? then Some(Photo)
    else if m.sticker.Some? then Some(Sticker)
    else
      assert MediaOf(m, Document).None? && MediaOf(m, Video).None? && MediaOf(m, Audio).None?;
      None
  }

  /** `copied.document or copied.video or copied.audio or copied.photo or copied.sticker`. */
  function PrimaryMedia(m: MediaMessage): (f: Option<MediaFile>)
    ensures f.Some? <==> KindOf(m).Some?
    ensures f == if KindOf(m).Some? then MediaOf(m, KindOf(m).value) else None
  {
    if m.document.Some? then m.document
    else if m.video.Some? then m.video
    else if m.audio.Some? then m.audio
    else if m.photo.Some? then m.photo
    else m.sticker
  }

  /** A name made up from the message id: `prefix_<id>.ext`. */
  function Synthesized(prefix: string, id: nat, ext: string): (r: string)
    ensures prefix + "_" <= r
    ensures |r| >= |prefix| + |ext| + 3
  {
    prefix + "_" + NatToString(id) + "." + ext
  }

  /** Python `name or fallback`: None and the empty name both fall back. */
  function OrElse(name: Option<string>, fallback: string): (r: string)
    ensures r == fallback <== name.None? || name.value == ""
    ensures name.Some? && name.value != "" ==> r == name.value
    ensures r == "" ==> fallback == ""
  {
    if name.Some? && name.value != "" then name.value else fallback
  }

  /**
   * The file name of lines `if message.document: ... elif message.sticker:`.
   * None when no branch is taken (the name is then unbound); Some(None) for
   * a document without a declared name, which is passed on as it is.
   */
  function FileName(m: MediaMessage): (r: Option<Option<string>>)
    ensures r.None? <==> KindOf(m).None?
  {
    if m.document.Some? then Some(m.document.value.fileName)
    else if m.video.Some? then Some(Some(OrElse(m.video.value.fileName, Synthesized("video", m.id, "mp4"))))
    else if m.audio.Some? then Some(Some(OrElse(m.audio.value.fileName, Synthesized("audio", m.id, "mp3"))))
    else if m.photo.Some? then Some(Some(Synthesized("photo", m.id, "jpg")))
    else if m.sticker.Some? then Some(Some(Synthesized("sticker", m.id, "webp")))
    else None
  }

  /**
   * The recorded size: the `file_size` of the copy's media object of its
   * first-priority kind, or 0 when the copy has no media or that object no size.
   */
  function RecordedSize(copy: MediaMessage): (size: nat)
    ensures KindOf(copy).None? ==> size == 0
    ensures KindOf(copy).Some? ==>
              var f := MediaOf(copy, KindOf(copy).value).value;
              size == if f.fileSize.Some? then f.fileSize.value else 0
  {
    match PrimaryMedia(copy)
    case Some(MediaFile(_, Some(size))) => size
    case _ => 0
  }

  /**
   * The handler. `currentFolder` is the folder tested before the copy and
   * `folderAfterCopy` the folder read again for the record once the copy has
   * been awaited (a folder choice may complete in between); `copy` is the
   * copy the transport made (None when copying raised) and `indexAccepts`
   * whether `new_file` accepts the record. With no folder set nothing is
   * copied or recorded; otherwise a record is made exactly when the copy
   * succeeded, a file name was derived and the index accepted it.
   */
  function FileHandler(currentFolder: string, folderAfterCopy: string, m: MediaMessage,
                       copy: Option<MediaMessage>, indexAccepts: bool): (r: UploadOutcome)
    ensures r.NoFolderSet? <==> currentFolder == ""
    ensures r.Uploaded? <==> currentFolder != "" && copy.Some? && KindOf(m).Some? && indexAccepts
    ensures r.Uploaded? ==>
              r.record == NewFile(folderAfterCopy, FileName(m).value, copy.value.id, RecordedSize(copy.value))
    ensures r.Failed? ==> (r.copyMade <==> copy.Some?)
  {
    if currentFolder == "" then NoFolderSet
    else if copy.None? then Failed(false)
    else
      match FileName(m)
      case None => Failed(true)
      case Some(name) =>
        if indexAccepts then Uploaded(NewFile(folderAfterCopy, name, copy.value.id, RecordedSize(copy.value)))
        else Failed(true)
  }

  /**
   * The folder is read twice: a folder choice that completes while the copy
   * is awaited files the upload under the new folder, although the old one
   * was tested.
   */
  lemma FolderChangedDuringCopy(m: MediaMessage, copy: MediaMessage)
    requires KindOf(m).Some?
    ensures FileHandler("/f1", "/f2", m, Some(copy), true).record.folder == "/f2"
  {
  }

  /** The message's name is made up from its id rather than declared. */
  predicate NameIsSynthesized(m: MediaMessage) {
    match KindOf(m)
    case Some(Photo) => true
    case Some(Sticker) => true
    case Some(Video) => OrElse(m.video.value.fileName, "") == ""
    case Some(Audio) => OrElse(m.audio.value.fileName, "") == ""
    case _ => false
  }

  /** The prefix and extension of the name made up for a kind that has one. */
  function NamePrefix(k: MediaKind): string {
    match k
    case Document => "document"
    case Video => "video"
    case Audio => "audio"
    case Photo => "photo"
    case Sticker => "sticker"
  }

  function NameExtension(k: MediaKind): string {
    match k
    case Document => ""
    case Video => "mp4"
    case Audio => "mp3"
    case Photo => "jpg"
    case Sticker => "webp"
  }

  /**
   * The naming rule: the kind chosen by priority decides the name. A made-up
   * name is `<kind>_<id>.<ext>`; otherwise the declared name of that kind's
   * media object is used as it is.
   */
  lemma FileNameRule(m: MediaMessage)
    requires KindOf(m).Some?
    ensures NameIsSynthesized(m) ==>
              FileName(m) == Some(Some(Synthesized(NamePrefix(KindOf(m).value), m.id, NameExtension(KindOf(m).value))))
    ensures !NameIsSynthesized(m) ==> FileName(m) == Some(MediaOf(m, KindOf(m).value).value.fileName)
  {
  }

  lemma SynthesizedInjective(prefix: string, a: nat, b: nat, ext: string)
    requires Synthesized(prefix, a, ext) == Synthesized(prefix, b, ext)
    ensures a == b
  {
    var s := Synthesized(prefix, a, ext);
    var sa, sb := NatToString(a), NatToString(b);
    assert |sa| == |sb|;
    assert s[|prefix| + 1..|prefix| + 1 + |sa|] == sa;
    assert Synthesized(prefix, b, ext)[|prefix| + 1..|prefix| + 1 + |sb|] == sb;
    NatToStringInjective(a, b);
  }

  /**
   * Made-up names never collide across messages: two messages whose names are
   * both synthesized get the same name only when they have the same kind and id.
   */
  lemma SynthesizedNamesUnique(m1: MediaMessage, m2: MediaMessage)
    requires NameIsSynthesized(m1) && NameIsSynthesized(m2)
    requires FileName(m1) == FileName(m2)
    ensures m1.id == m2.id && KindOf(m1) == KindOf(m2)
  {
    var n1, n2 := FileName(m1).value.value, FileName(m2).value.value;
    assert n1[0] == n2[0];
    match KindOf(m1)
    case Some(Video) => SynthesizedInjective("video", m1.id, m2.id, "mp4");
    case Some(Audio) => SynthesizedInjective("audio", m1.id, m2.id, "mp3");
    case Some(Photo) => SynthesizedInjective("photo", m1.id, m2.id, "jpg");
    case Some(Sticker) => SynthesizedInjective("sticker", m1.id, m2.id, "webp");
  }

  /** A declared document name is used even when it is empty or absent. */
  lemma DocumentNameHasNoFallback(m: MediaMessage)
    requires m.document.Some?
    ensures FileName(m) == Some(m.document.value.fileName)
  {
  }

  /** A document "report.pdf" of 2048 bytes sent while "/f1" is set is recorded as such. */
  lemma ReportUpload(ref: nat)
    ensures var doc := Some(MediaFile(Some("report.pdf"), Some(2048)));
            var m := MediaMessage(10, doc, None, None, None, None);
            var copy := MediaMessage(ref, doc, None, None, None, None);
            FileHandler("/f1", "/f1", m, Some(copy), true) == Uploaded(NewFile("/f1", Some("report.pdf"), ref, 2048))
  {
  }

  /** A copy with a video and a photo records the video's size, not the photo's. */
  lemma VideoSizeRecorded(id: nat, video: MediaFile, photo: MediaFile)
    requires video.fileSize == Some(99)
    ensures RecordedSize(MediaMessage(id, None, Some(video), None, Some(photo), None)) == 99
  {
  }

  /**
   * `/current_folder` tests the folder NAME while the upload handler tests its
   * PATH: with a path but no name, the bot reports no folder and still uploads.
   */
  lemma UploadWithoutName(m: MediaMessage, copy: MediaMessage)
    requires KindOf(m).Some?
    ensures BotSession.CurrentFolderReport("/f1", "").NoFolderSet?
    ensures FileHandler("/f1", "/f1", m, Some(copy), true).Uploaded?
  {
  }
}
