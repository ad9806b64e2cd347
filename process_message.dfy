/** Files sent to the bot: which file a message carries, the size gate, the
    comment made for a single message, and the buffering of albums (messages
    sharing a `media_group_id`) until a timer flushes them as one comment.

    Fetching a file from Telegram and uploading it to Pyrus is the oracle
    `upload(fileId, filename)`, the GUID Pyrus gives back, `None` on failure;
    the three-second timer is an explicit `Flush` call. */
module ProcessMessage {
  import opened Wrappers
  import opened Python
  import opened Utils

  /** One size of a photo; `fileSize` is `None` when Telegram does not give it. */
  datatype PhotoSize = PhotoSize(fileId: string, fileUniqueId: string, fileSize: Option<int>)
  datatype Document = Document(fileId: string, fileName: Option<string>, fileSize: Option<int>)
  /** An audio, voice or video attachment. */
  datatype Media = Media(fileId: string, fileSize: Option<int>)
  datatype Sticker = Sticker(fileId: string, fileUniqueId: string, isAnimated: bool, isVideo: bool, fileSize: Option<int>)

  /** The parts of a Telegram message the bot reads; `photo` is [] when absent. */
  datatype Message = Message(messageId: int, mediaGroupId: Option<string>, caption: Option<string>,
                             text: Option<string>, photo: seq<PhotoSize>, document: Option<Document>,
                             audio: Option<Media>, voice: Option<Media>, video: Option<Media>,
                             sticker: Option<Sticker>)

  /** The triple `identify_file_data` returns when it finds a file. */
  datatype FileData = FileData(fileId: string, filename: string, size: Option<int>)

  /** The kinds of file, in the order `identify_file_data` tries them. */
  datatype Kind = Photo | Doc | Audio | Voice | Video | StickerFile | NoFile

  /** The first kind of file the message carries. */
  function KindOf(msg: Message): Kind {
    if msg.photo != [] then Photo
    else if msg.document.Some? then Doc
    else if msg.audio.Some? then Audio
    else if msg.voice.Some? then Voice
    else if msg.video.Some? then Video
    else if msg.sticker.Some? then StickerFile
    else NoFile
  }

  /** The extension of a sticker file: animated first, then video. */
  function StickerExtension(s: Sticker): (ext: string)
    ensures ext == "tgs" <==> s.isAnimated
    ensures ext == "webm" <==> !s.isAnimated && s.isVideo
    ensures ext in {"tgs", "webm", "webp"}
  {
    if s.isAnimated then "tgs" else if s.isVideo then "webm" else "webp"
  }

  /** `identify_file_data`: the file of the first kind present (the largest,
      that is last, photo size), `None` for a message without a file. */
  function IdentifyFileData(msg: Message): (r: Option<FileData>)
    ensures r.None? <==> KindOf(msg) == NoFile
    ensures r.Some? ==> r.value.filename != ""
  {
    match KindOf(msg)
    case Photo =>
      var p := msg.photo[|msg.photo| - 1];
      Some(FileData(p.fileId, p.fileUniqueId + ".jpg", p.fileSize))
    case Doc =>
      var d := msg.document.value;
      Some(FileData(d.fileId, if HasText(d.fileName) then d.fileName.value else "document", d.fileSize))
    case Audio => Some(FileData(msg.audio.value.fileId, "audio_" + msg.audio.value.fileId + ".mp3", msg.audio.value.fileSize))
    case Voice => Some(FileData(msg.voice.value.fileId, "voice_" + msg.voice.value.fileId + ".ogg", msg.voice.value.fileSize))
    case Video => Some(FileData(msg.video.value.fileId, "video_" + msg.video.value.fileId + ".mp4", msg.video.value.fileSize))
    case StickerFile =>
      var s := msg.sticker.value;
      Some(FileData(s.fileId, "sticker_" + s.fileUniqueId + "." + StickerExtension(s),
                    Some(if s.fileSize.None? then 0 else s.fileSize.value)))
    case NoFile => None
  }

  predicate EndsWith(s: string, suffix: string) {
    |suffix| <= |s| && s[|s| - |suffix|..] == suffix
  }

  /** The file of a message is the one of its first kind: the kinds after it
      are not looked at, and the name ends with the kind's extension. */
  lemma IdentifyFirstMatch(msg: Message, other: Message)
    requires KindOf(msg) != NoFile
    requires msg.photo == other.photo
    requires KindOf(msg) != Photo ==> msg.document == other.document
    requires KindOf(msg) !in {Photo, Doc} ==> msg.audio == other.audio
    requires KindOf(msg) !in {Photo, Doc, Audio} ==> msg.voice == other.voice
    requires KindOf(msg) !in {Photo, Doc, Audio, Voice} ==> msg.video == other.video
    requires KindOf(msg) == StickerFile ==> msg.sticker == other.sticker
    ensures IdentifyFileData(other) == IdentifyFileData(msg)
    ensures KindOf(msg) == Photo ==> var p := msg.photo[|msg.photo| - 1];
      IdentifyFileData(msg) == Some(FileData(p.fileId, p.fileUniqueId + ".jpg", p.fileSize))
    ensures KindOf(msg) == Doc ==> var d := msg.document.value;
      && IdentifyFileData(msg).value.fileId == d.fileId && IdentifyFileData(msg).value.size == d.fileSize
      && (d.fileName.Some? && d.fileName.value != "" ==> IdentifyFileData(msg).value.filename == d.fileName.value)
      && (d.fileName.None? || d.fileName.value == "" ==> IdentifyFileData(msg).value.filename == "document")
    ensures KindOf(msg) == Audio ==> var a := msg.audio.value;
      IdentifyFileData(msg) == Some(FileData(a.fileId, "audio_" + a.fileId + ".mp3", a.fileSize))
    ensures KindOf(msg) == Voice ==> var v := msg.voice.value;
      IdentifyFileData(msg) == Some(FileData(v.fileId, "voice_" + v.fileId + ".ogg", v.fileSize))
    ensures KindOf(msg) == Video ==> var v := msg.video.value;
      IdentifyFileData(msg) == Some(FileData(v.fileId, "video_" + v.fileId + ".mp4", v.fileSize))
    ensures KindOf(msg) == StickerFile ==> var t := msg.sticker.value;
      && IdentifyFileData(msg).value.fileId == t.fileId
      && IdentifyFileData(msg).value.filename == "sticker_" + t.fileUniqueId + "." + StickerExtension(t)
      && IdentifyFileData(msg).value.size == Some(t.fileSize.GetOr(0))
    ensures KindOf(msg) == Photo ==> EndsWith(IdentifyFileData(msg).value.filename, ".jpg")
    ensures KindOf(msg) == Audio ==> EndsWith(IdentifyFileData(msg).value.filename, ".mp3")
    ensures KindOf(msg) == Voice ==> EndsWith(IdentifyFileData(msg).value.filename, ".ogg")
    ensures KindOf(msg) == Video ==> EndsWith(IdentifyFileData(msg).value.filename, ".mp4")
    ensures KindOf(msg) == StickerFile ==>
      EndsWith(IdentifyFileData(msg).value.filename, "." + StickerExtension(msg.sticker.value))
  {
    assert KindOf(other) == KindOf(msg);
  }

  /** The name given to an audio, voice or video file determines the kind and
      the file id: the id is the name without its six-letter prefix and its
      four-letter extension. */
  lemma MediaNameRecoversId(msg: Message)
    requires KindOf(msg) in {Audio, Voice, Video}
    ensures var f := IdentifyFileData(msg).value;
      && |f.filename| == |f.fileId| + 10
      && f.filename[6..|f.filename| - 4] == f.fileId
      && (KindOf(msg) == Audio <==> f.filename[..6] == "audio_")
      && (KindOf(msg) == Voice <==> f.filename[..6] == "voice_")
      && (KindOf(msg) == Video <==> f.filename[..6] == "video_")
  {
    var f := IdentifyFileData(msg).value;
    var prefix := f.filename[..6];
    assert f.filename == prefix + f.fileId + f.filename[|f.filename| - 4..];
    assert f.filename[6..|f.filename| - 4] == f.fileId;
  }

  /** A sticker without a size counts as size 0, which the size gate never rejects. */
  lemma StickerSizeDefaultsToZero(msg: Message, maxFileSize: int)
    requires KindOf(msg) == StickerFile && msg.sticker.value.fileSize.None?
    ensures IdentifyFileData(msg).value.size == Some(0)
    ensures CheckFile(msg, maxFileSize).Accepted? <==> msg.sticker.value.fileId != ""
  {
  }

  // ---------------------------------------------------------------------------
  // process_single_file_for_comment

  const UnsupportedFile := "⚠️ Неподдерживаемый тип файла"
  const FileTooLarge := "⚠️ Файл слишком большой! Максимум 20МБ"

  /** The result of `process_single_file_for_comment`: an error string, or the
      file id and name. */
  datatype FileCheck = Rejected(reason: string) | Accepted(fileId: string, filename: string)

  /** A size that is truthy and above the limit. */
  predicate TooLarge(size: Option<int>, maxFileSize: int) {
    size.Some? && size.value != 0 && size.value > maxFileSize
  }

  /** `process_single_file_for_comment`: a message without a file, or whose
      file id is empty, is unsupported; a file whose size is known, non-zero
      and above the limit is too large; any other file is accepted. */
  function CheckFile(msg: Message, maxFileSize: int): (r: FileCheck)
    ensures r.Accepted? <==> IdentifyFileData(msg).Some? && IdentifyFileData(msg).value.fileId != ""
                             && !TooLarge(IdentifyFileData(msg).value.size, maxFileSize)
    ensures r.Accepted? ==> r.fileId == IdentifyFileData(msg).value.fileId && r.fileId != ""
                            && r.filename == IdentifyFileData(msg).value.filename && r.filename != ""
    ensures r.Rejected? ==> (r.reason == UnsupportedFile <==> IdentifyFileData(msg).None? || IdentifyFileData(msg).value.fileId == "")
    ensures r.Rejected? ==> r.reason in {UnsupportedFile, FileTooLarge}
  {
    match IdentifyFileData(msg)
    case None => Rejected(UnsupportedFile)
    case Some(FileData(fileId, filename, size)) =>
      if fileId == "" then Rejected(UnsupportedFile)
      else if TooLarge(size, maxFileSize) then Rejected(FileTooLarge)
      else Accepted(fileId, filename)
  }

  // ---------------------------------------------------------------------------
  // process_single_comment

  /** `msg.caption or msg.text or None`. */
  function CommentText(msg: Message): (t: Option<string>)
    ensures HasText(t) <==> HasText(msg.caption) || HasText(msg.text)
    ensures HasText(msg.caption) ==> t == msg.caption
    ensures !HasText(msg.caption) && HasText(msg.text) ==> t == msg.text
    ensures !HasText(t) ==> t == None
  {
    if HasText(msg.caption) then msg.caption else if HasText(msg.text) then msg.text else None
  }

  /** What handling one message did: the comment posted to the task, if any,
      and whether an error reply was built for the user. */
  datatype SingleOutcome = SingleOutcome(comment: Option<CommentPayload>, errorReply: bool)

  /** `process_single_comment(msg, task_id)` as written: the file must pass the
      gate and be uploaded, then one comment carrying it is posted, and a
      failed post (`posted` false) only builds an error reply. */
  function SingleComment(msg: Message, maxFileSize: int, upload: (string, string) -> Option<string>,
                         posted: bool): (r: SingleOutcome)
    ensures r.comment.Some? <==> CheckFile(msg, maxFileSize).Accepted?
                                 && HasText(upload(CheckFile(msg, maxFileSize).fileId, CheckFile(msg, maxFileSize).filename))
    ensures r.comment.Some? ==>
      var c := CheckFile(msg, maxFileSize);
      r.comment.value == BuildPayload(CommentText(msg), [upload(c.fileId, c.filename).value])
    ensures r.errorReply <==> r.comment.None? || !posted
  {
    match CheckFile(msg, maxFileSize)
    case Rejected(_) => SingleOutcome(None, true)
    case Accepted(fileId, filename) =>
      var guid := upload(fileId, filename);
      if !HasText(guid) then SingleOutcome(None, true)
      else SingleOutcome(Some(BuildPayload(CommentText(msg), [guid.value])), !posted)
  }

  /** A posted comment carries exactly one attachment, and its text is the
      caption, else the text, else "...". */
  lemma SingleCommentShape(msg: Message, maxFileSize: int, upload: (string, string) -> Option<string>, posted: bool)
    requires SingleComment(msg, maxFileSize, upload, posted).comment.Some?
    ensures var c := SingleComment(msg, maxFileSize, upload, posted).comment.value;
      && c.attachments.Some? && |c.attachments.value| == 1 && c.channelType == "telegram"
      && (HasText(msg.caption) ==> c.text == msg.caption.value)
      && (!HasText(msg.caption) && HasText(msg.text) ==> c.text == msg.text.value)
      && (!HasText(msg.caption) && !HasText(msg.text) ==> c.text == "...")
  {
  }

  /** A text message without a file never becomes a comment: it is rejected
      as an unsupported file type, although its text is what `comment_text`
      would have used. */
  lemma TextOnlyMessageDropped(msg: Message, maxFileSize: int, upload: (string, string) -> Option<string>, posted: bool)
    requires KindOf(msg) == NoFile && HasText(msg.text)
    ensures SingleComment(msg, maxFileSize, upload, posted) == SingleOutcome(None, true)
    ensures CheckFile(msg, maxFileSize) == Rejected(UnsupportedFile)
  {
  }

  /** `process_single_comment` as it is evidently meant: a message without a
      file but with text is posted as a text comment; everything else is as written. */
  function SingleCommentIntended(msg: Message, maxFileSize: int, upload: (string, string) -> Option<string>,
                                 posted: bool): (r: SingleOutcome)
    ensures KindOf(msg) == NoFile && HasText(CommentText(msg)) ==>
      r == SingleOutcome(Some(BuildPayload(CommentText(msg), [])), !posted)
    ensures !(KindOf(msg) == NoFile && HasText(CommentText(msg))) ==>
      r == SingleComment(msg, maxFileSize, upload, posted)
  {
    if KindOf(msg) == NoFile && HasText(CommentText(msg)) then SingleOutcome(Some(BuildPayload(CommentText(msg), [])), !posted)
    else SingleComment(msg, maxFileSize, upload, posted)
  }

  /** With the intended behaviour every message that has text or a file that
      passes the gate and uploads gives a comment, and the text of a text
      message reaches the task unchanged. */
  lemma IntendedPostsEveryText(msg: Message, maxFileSize: int, upload: (string, string) -> Option<string>, posted: bool)
    requires KindOf(msg) == NoFile && HasText(msg.text)
    ensures var r := SingleCommentIntended(msg, maxFileSize, upload, posted);
      && r.comment.Some? && r.comment.value.attachments.None?
      && r.comment.value.text == CommentText(msg).value
      && (!HasText(msg.caption) ==> r.comment.value.text == msg.text.value)
  {
  }

  // ---------------------------------------------------------------------------
  // Album buffering: process_media_group

  /** `media_groups_data` (buffers), `processing_tasks` (pending) and the flush
      timers that are scheduled and have not fired yet, in scheduling order. */
  datatype GroupState = GroupState(buffers: map<string, seq<Message>>, pending: set<string>, timers: seq<string>)

  /** Buffered keys are exactly the pending ones, no buffer is empty, and each
      pending key has exactly one timer. */
  predicate GroupValid(s: GroupState) {
    && s.buffers.Keys == s.pending
    && (forall k :: k in s.buffers ==> s.buffers[k] != [])
    && (forall i :: 0 <= i < |s.timers| ==> s.timers[i] in s.pending)
    && (forall k :: k in s.pending ==> k in s.timers)
    && Distinct(s.timers)
  }

  const EmptyGroups := GroupState(map[], {}, [])

  /** The album key of a message, when it has one. */
  function GroupKey(msg: Message): Option<string> {
    if HasText(msg.mediaGroupId) then msg.mediaGroupId else None
  }

  /** `process_media_group`: a message with a key is appended to that key's
      buffer; a flush is scheduled (the `bool`) only if none is pending. */
  function AddStep(s: GroupState, msg: Message): (r: (GroupState, bool))
  {
    match GroupKey(msg)
    case None => (s, false)
    case Some(key) =>
      var buf := if key in s.buffers then s.buffers[key] else [];
      var appended := s.(buffers := s.buffers[key := buf + [msg]]);
      if key in s.pending then (appended, false)
      else (appended.(pending := s.pending + {key}, timers := s.timers + [key]), true)
  }

  /** `timers` without the one occurrence of `key`. */
  function Without(timers: seq<string>, key: string): (r: seq<string>)
    ensures forall x :: x in r <==> x in timers && x != key
    ensures |r| <= |timers|
  {
    if timers == [] then []
    else if timers[0] == key then Without(timers[1..], key)
    else [timers[0]] + Without(timers[1..], key)
  }

  /** No element occurs twice. */
  predicate Distinct(xs: seq<string>) {
    forall i, j :: 0 <= i < j < |xs| ==> xs[i] != xs[j]
  }

  /** Removing elements keeps the elements distinct. */
  lemma {:induction false} WithoutDistinct(timers: seq<string>, key: string)
    requires Distinct(timers)
    ensures Distinct(Without(timers, key))
  {
    if timers != [] {
      WithoutDistinct(timers[1..], key);
      var rest := Without(timers[1..], key);
      assert timers[0] !in timers[1..];
      assert timers[0] !in rest;
      if timers[0] != key {
        var r := [timers[0]] + rest;
        assert r == Without(timers, key);
        forall i, j | 0 <= i < j < |r| ensures r[i] != r[j] {
          if i == 0 {
            assert r[j] == rest[j - 1] && rest[j - 1] in rest;
          } else {
            assert r[i] == rest[i - 1] && r[j] == rest[j - 1];
          }
        }
      } else {
        assert Without(timers, key) == rest;
      }
    }
  }

  /** The timer of `key` fires: its buffer is popped and the key stops being
      pending in the same step. */
  function FlushStep(s: GroupState, key: string): (r: (GroupState, seq<Message>))
  {
    (GroupState(s.buffers - {key}, s.pending - {key}, Without(s.timers, key)),
     if key in s.buffers then s.buffers[key] else [])
  }

  /** Adding a message keeps the bookkeeping consistent; it schedules exactly
      when its key has a key that was not pending, and then the key's buffer
      holds that message alone. */
  lemma AddKeepsValid(s: GroupState, msg: Message)
    requires GroupValid(s)
    ensures GroupValid(AddStep(s, msg).0)
    ensures AddStep(s, msg).1 <==> GroupKey(msg).Some? && GroupKey(msg).value !in s.pending
    ensures AddStep(s, msg).1 ==> AddStep(s, msg).0.buffers[GroupKey(msg).value] == [msg]
    ensures GroupKey(msg).None? ==> AddStep(s, msg).0 == s
  {
    if GroupKey(msg).Some? && GroupKey(msg).value !in s.pending {
      var key := GroupKey(msg).value;
      var t := AddStep(s, msg).0;
      assert key !in s.timers;
      forall i, j | 0 <= i < j < |t.timers| ensures t.timers[i] != t.timers[j] {
        if j == |s.timers| {
          assert t.timers[i] == s.timers[i];
        }
      }
    }
  }

  /** Firing a scheduled timer keeps the bookkeeping consistent and returns
      the non-empty buffer of its key. */
  lemma FlushKeepsValid(s: GroupState, key: string)
    requires GroupValid(s) && key in s.timers
    ensures GroupValid(FlushStep(s, key).0)
    ensures FlushStep(s, key).1 == s.buffers[key] && FlushStep(s, key).1 != []
    ensures key !in FlushStep(s, key).0.pending && key !in FlushStep(s, key).0.timers
  {
    WithoutDistinct(s.timers, key);
    var r := Without(s.timers, key);
    forall i | 0 <= i < |r| ensures r[i] in s.pending - {key} {
      assert r[i] in r;
    }
    forall k | k in s.pending - {key} ensures k in r {
      assert k in s.timers;
    }
    var t := FlushStep(s, key).0;
    assert t.buffers.Keys == t.pending;
    assert forall k :: k in t.buffers ==> t.buffers[k] != [];
  }

  /** Messages added one after the other, and the flushes they schedule. */
  function AddAll(s: GroupState, msgs: seq<Message>): (r: (GroupState, seq<bool>))
    ensures |r.1| == |msgs|
    decreases |msgs|
  {
    if msgs == [] then (s, [])
    else
      var first := AddStep(s, msgs[0]);
      var rest := AddAll(first.0, msgs[1..]);
      (rest.0, [first.1] + rest.1)
  }

  /** Further messages of an album whose flush is pending only extend its
      buffer, in arrival order, and schedule nothing. */
  lemma {:induction false} AddToPending(s: GroupState, key: string, msgs: seq<Message>)
    requires GroupValid(s) && key in s.pending
    requires forall i :: 0 <= i < |msgs| ==> GroupKey(msgs[i]) == Some(key)
    decreases |msgs|
    ensures var r := AddAll(s, msgs);
      && GroupValid(r.0) && key in r.0.buffers && r.0.buffers[key] == s.buffers[key] + msgs
      && r.0.pending == s.pending && r.0.timers == s.timers
      && forall i :: 0 <= i < |msgs| ==> !r.1[i]
  {
    if msgs != [] {
      AddKeepsValid(s, msgs[0]);
      var first := AddStep(s, msgs[0]).0;
      AddToPending(first, key, msgs[1..]);
      assert s.buffers[key] + [msgs[0]] + msgs[1..] == s.buffers[key] + msgs;
    }
  }

  /** An album that arrives while no flush is pending for its key schedules
      exactly one flush, on its first message, and that flush returns all of
      its messages in arrival order. */
  lemma AlbumFlushedOnce(s: GroupState, key: string, msgs: seq<Message>)
    requires GroupValid(s) && key !in s.pending && msgs != []
    requires forall i :: 0 <= i < |msgs| ==> GroupKey(msgs[i]) == Some(key)
    ensures var r := AddAll(s, msgs);
      && (forall i :: 0 <= i < |msgs| ==> (r.1[i] <==> i == 0))
      && key in r.0.timers
      && FlushStep(r.0, key).1 == msgs
  {
    AddKeepsValid(s, msgs[0]);
    var first := AddStep(s, msgs[0]).0;
    AddToPending(first, key, msgs[1..]);
    assert [msgs[0]] + msgs[1..] == msgs;
  }

  /** A message that arrives after its album was flushed starts a new buffer
      and schedules a new flush. */
  lemma LateMessageStartsNewAlbum(s: GroupState, key: string, msg: Message)
    requires GroupValid(s) && key in s.timers && GroupKey(msg) == Some(key)
    ensures var after := FlushStep(s, key).0;
      AddStep(after, msg).1 && AddStep(after, msg).0.buffers[key] == [msg]
  {
    FlushKeepsValid(s, key);
    AddKeepsValid(FlushStep(s, key).0, msg);
  }

  // ---------------------------------------------------------------------------
  // Album processing: process_group

  /** The GUIDs collected for an album: one per message that passes the gate
      and uploads, in album order. */
  function GroupFileIds(group: seq<Message>, maxFileSize: int, upload: (string, string) -> Option<string>): seq<string>
  {
    if group == [] then []
    else
      var init := GroupFileIds(group[..|group| - 1], maxFileSize, upload);
      var c := CheckFile(group[|group| - 1], maxFileSize);
      if c.Accepted? && HasText(upload(c.fileId, c.filename)) then init + [upload(c.fileId, c.filename).value]
      else init
  }

  /** A message whose file passes the gate and uploads. */
  predicate Uploads(msg: Message, maxFileSize: int, upload: (string, string) -> Option<string>) {
    var c := CheckFile(msg, maxFileSize);
    c.Accepted? && HasText(upload(c.fileId, c.filename))
  }

  /** Every collected GUID is the upload of an album message that passed the
      gate, and every such message contributes its GUID. */
  lemma {:induction false} GroupFileIdsSpec(group: seq<Message>, maxFileSize: int, upload: (string, string) -> Option<string>)
    ensures |GroupFileIds(group, maxFileSize, upload)| <= |group|
    ensures forall g :: g in GroupFileIds(group, maxFileSize, upload) ==>
      exists m :: m in group && Uploads(m, maxFileSize, upload)
                && g == upload(CheckFile(m, maxFileSize).fileId, CheckFile(m, maxFileSize).filename).value
    ensures forall m :: m in group && Uploads(m, maxFileSize, upload) ==>
      upload(CheckFile(m, maxFileSize).fileId, CheckFile(m, maxFileSize).filename).value in GroupFileIds(group, maxFileSize, upload)
  {
    if group != [] {
      var init := group[..|group| - 1];
      GroupFileIdsSpec(init, maxFileSize, upload);
      assert group == init + [group[|group| - 1]];
    }
  }

  /** The GUIDs of a concatenation of messages are those of each part, in
      order: with `GroupFileIdsOne`, the GUIDs follow the buffer's order, one
      per message that uploads. */
  lemma {:induction false} GroupFileIdsAppend(a: seq<Message>, b: seq<Message>, maxFileSize: int,
                                              upload: (string, string) -> Option<string>)
    ensures GroupFileIds(a + b, maxFileSize, upload)
      == GroupFileIds(a, maxFileSize, upload) + GroupFileIds(b, maxFileSize, upload)
    decreases |b|
  {
    if b == [] {
      assert a + b == a;
    } else {
      var init := b[..|b| - 1];
      assert (a + b)[..|a + b| - 1] == a + init;
      assert (a + b)[|a + b| - 1] == b[|b| - 1];
      GroupFileIdsAppend(a, init, maxFileSize, upload);
    }
  }

  /** One message contributes its GUID exactly when it passes the gate and uploads. */
  lemma GroupFileIdsOne(m: Message, maxFileSize: int, upload: (string, string) -> Option<string>)
    ensures var c := CheckFile(m, maxFileSize);
      GroupFileIds([m], maxFileSize, upload)
        == if Uploads(m, maxFileSize, upload) then [upload(c.fileId, c.filename).value] else []
  {
    assert [m][..0] == [];
  }

  /** The text of an album's comment: the first message's caption. */
  function AlbumText(group: seq<Message>): (t: Option<string>)
    requires group != []
    ensures HasText(group[0].caption) ==> t == group[0].caption
    ensures !HasText(group[0].caption) ==> t == None
  {
    if HasText(group[0].caption) then group[0].caption else None
  }

  /** `process_group` after the buffer was popped: the comment it posts and
      the ids of the messages an error reply was built for. Every message
      either contributes a GUID or gets a reply. */
  method ProcessGroup(group: seq<Message>, maxFileSize: int, upload: (string, string) -> Option<string>)
    returns (comment: CommentPayload, replied: seq<int>)
    requires group != []
    ensures comment == BuildPayload(AlbumText(group), GroupFileIds(group, maxFileSize, upload))
    ensures |GroupFileIds(group, maxFileSize, upload)| + |replied| == |group|
    ensures forall i :: 0 <= i < |group| && !Uploads(group[i], maxFileSize, upload) ==> group[i].messageId in replied
  {
    var ids: seq<string> := [];
    replied := [];
    var k := 0;
    while k < |group|
      invariant 0 <= k <= |group|
      invariant ids == GroupFileIds(group[..k], maxFileSize, upload)
      invariant |ids| + |replied| == k
      invariant forall i :: 0 <= i < k && !Uploads(group[i], maxFileSize, upload) ==> group[i].messageId in replied
    {
      assert group[..k + 1][..k] == group[..k];
      var msg := group[k];
      var check := CheckFile(msg, maxFileSize);
      if check.Rejected? {
        replied := replied + [msg.messageId];
      } else {
        var guid := upload(check.fileId, check.filename);
        if HasText(guid) {
          ids := ids + [guid.value];
        } else {
          replied := replied + [msg.messageId];
        }
      }
      k := k + 1;
    }
    assert group[..k] == group;
    comment := BuildPayload(AlbumText(group), ids);
  }

  /** An album in which no file uploads still posts a comment: the first
      caption, or "...", with no attachments. */
  lemma FailedAlbumStillPosts(group: seq<Message>, maxFileSize: int, upload: (string, string) -> Option<string>)
    requires group != []
    requires forall i :: 0 <= i < |group| ==> !Uploads(group[i], maxFileSize, upload)
    ensures GroupFileIds(group, maxFileSize, upload) == []
    ensures BuildPayload(AlbumText(group), GroupFileIds(group, maxFileSize, upload)).attachments.None?
  {
    GroupFileIdsSpec(group, maxFileSize, upload);
  }

  /** The module-level album state, with the flush timers made explicit. */
  class MediaGroups {
    var buffers: map<string, seq<Message>>
    var pending: set<string>
    var timers: seq<string>

    function State(): GroupState
      reads this
    {
      GroupState(buffers, pending, timers)
    }

    predicate Valid()
      reads this
    {
      GroupValid(State())
    }

    constructor ()
      ensures Valid() && State() == EmptyGroups
    {
      buffers := map[];
      pending := {};
      timers := [];
    }

    /** `process_media_group(message)`: buffer the message under its album key
        and report whether a flush timer was scheduled. */
    method Add(msg: Message) returns (scheduleFlush: bool)
      requires Valid()
      modifies this
      ensures Valid()
      ensures (State(), scheduleFlush) == AddStep(old(State()), msg)
    {
      AddKeepsValid(State(), msg);
      if !HasText(msg.mediaGroupId) {
        return false;
      }
      var key := msg.mediaGroupId.value;
      var buf := if key in buffers then buffers[key] else [];
      buffers := buffers[key := buf + [msg]];
      if key in pending {
        return false;
      }
      pending := pending + {key};
      timers := timers + [key];
      return true;
    }

    /** The timer of `key` fires: pop its buffer and clear the key. */
    method Flush(key: string) returns (group: seq<Message>)
      requires Valid() && key in timers
      modifies this
      ensures Valid()
      ensures (State(), group) == FlushStep(old(State()), key)
      ensures group != []
    {
      FlushKeepsValid(State(), key);
      group := if key in buffers then buffers[key] else [];
      buffers := buffers - {key};
      pending := pending - {key};
      timers := Without(timers, key);
    }

    /** The timer of `key` fires and the album is processed: the comment to post. */
    method FlushAndProcess(key: string, maxFileSize: int, upload: (string, string) -> Option<string>)
      returns (comment: CommentPayload, replied: seq<int>)
      requires Valid() && key in timers
      modifies this
      ensures Valid()
      ensures State() == FlushStep(old(State()), key).0
      ensures comment == BuildPayload(AlbumText(old(buffers)[key]), GroupFileIds(old(buffers)[key], maxFileSize, upload))
    {
      var group := Flush(key);
      comment, replied := ProcessGroup(group, maxFileSize, upload);
    }
  }
}
