/** The helpers of `utils.py`: the Pyrus JSON shapes they read, payload
    building, field lookup, attachment download guards, reply unwrapping, and
    the forwarding of a comment to a Telegram chat. */
module Utils {
  import opened Wrappers
  import opened Python
  import opened PyrusApi

  /** A scalar JSON value as Pyrus sends it in fields; `VNull` also stands for
      a missing key, which `dict.get` turns into `None` as well. */
  datatype Value = VNull | VBool(b: bool) | VInt(i: int) | VStr(s: string)

  /** Python truthiness of a value. */
  predicate Truthy(v: Value) {
    match v
    case VNull => false
    case VBool(b) => b
    case VInt(i) => i != 0
    case VStr(s) => s != ""
  }

  /** Python's `str(v)`. */
  function PyStr(v: Value): string {
    match v
    case VNull => "None"
    case VBool(b) => if b then "True" else "False"
    case VInt(i) => IntToString(i)
    case VStr(s) => s
  }

  /** One entry of a task's `fields` list; either key may be missing. */
  datatype Field = Field(id: Option<int>, value: Option<Value>)

  /** A task as the register lookup or the task creation returns it. */
  datatype CrmTask = CrmTask(id: Value, fields: seq<Field>)

  /** The `{}` that `create_*_task` returns when the reply has no task. */
  const NoTask := CrmTask(VNull, [])

  /** A Pyrus attachment descriptor; "" and 0 stand for a missing key. */
  datatype Attachment = Attachment(id: Value, url: string, size: int, name: string)

  /** What `download_one` returns: `{"filename", "content"}` on success and
      `{"error"}` otherwise; unused keys are empty. */
  datatype AttachData = AttachData(content: Bytes, filename: string, error: string)

  /** A file ready to be sent to Telegram (`BufferedInputFile`). */
  datatype InputFile = InputFile(content: Bytes, filename: string)

  /** The body of a comment posted to a Pyrus task. */
  datatype CommentPayload = CommentPayload(channelType: string, text: string, attachments: Option<seq<string>>)

  /** A Python string argument that is truthy. */
  predicate HasText(s: Option<string>) { s.Some? && s.value != "" }

  /** The ids of the request-form fields the bot reads and writes. */
  const RequestFio := 26
  const RequestTelephone := 27
  const RequestTgAccount := 28
  const RequestTgId := 29

  // ---------------------------------------------------------------------------
  // build_payload

  /** `build_payload(text, files)`. */
  function BuildPayload(text: Option<string>, files: seq<string>): (p: CommentPayload)
    ensures p.channelType == "telegram"
    ensures HasText(text) ==> p.text == text.value
    ensures !HasText(text) ==> p.text == "..."
    ensures p.text != ""
    ensures p.attachments.Some? <==> files != []
    ensures p.attachments.Some? ==> p.attachments.value == files
  {
    CommentPayload("telegram", if HasText(text) then text.value else "...",
                   if files != [] then Some(files) else None)
  }

  // ---------------------------------------------------------------------------
  // chunk_list

  /** `chunk_list(items, size)`: consecutive slices of `size` items, the last
      one possibly shorter. */
  function Chunks<T>(items: seq<T>, size: nat): seq<seq<T>>
    requires size > 0
    decreases |items|
  {
    if items == [] then []
    else if |items| <= size then [items]
    else [items[..size]] + Chunks(items[size..], size)
  }

  function Flatten<T>(chunks: seq<seq<T>>): seq<T> {
    if chunks == [] then [] else chunks[0] + Flatten(chunks[1..])
  }

  /** Chunking loses nothing and reorders nothing. */
  lemma {:induction false} ChunksFlatten<T>(items: seq<T>, size: nat)
    requires size > 0
    ensures Flatten(Chunks(items, size)) == items
    decreases |items|
  {
    var c := Chunks(items, size);
    if items == [] {
    } else if |items| <= size {
      assert c == [items];
      assert Flatten(c) == items + Flatten(c[1..]);
    } else {
      var rest := Chunks(items[size..], size);
      ChunksFlatten(items[size..], size);
      assert c[1..] == rest;
      assert Flatten(c) == items[..size] + Flatten(rest);
      assert items == items[..size] + items[size..];
    }
  }

  /** Every chunk is non-empty and at most `size` long, all but the last are
      exactly `size` long, and there are ceil(|items| / size) of them. */
  lemma {:induction false} ChunksShape<T>(items: seq<T>, size: nat)
    requires size > 0
    ensures forall i :: 0 <= i < |Chunks(items, size)| ==> 0 < |Chunks(items, size)[i]| <= size
    ensures forall i :: 0 <= i < |Chunks(items, size)| - 1 ==> |Chunks(items, size)[i]| == size
    ensures |Chunks(items, size)| == (|items| + size - 1) / size
    decreases |items|
  {
    var c := Chunks(items, size);
    if items == [] {
    } else if |items| <= size {
      assert c == [items];
      DivBounds(|items| + size - 1, size, 1);
    } else {
      var rest := Chunks(items[size..], size);
      ChunksShape(items[size..], size);
      assert c == [items[..size]] + rest;
      forall i | 1 <= i < |c| ensures c[i] == rest[i - 1] {}
      DivShift(|items| - 1, size);
    }
  }

  lemma MulMonotone(a: int, b: int, n: nat)
    requires a <= b
    ensures a * n <= b * n
  {
    assert b * n - a * n == (b - a) * n;
  }

  lemma DivBounds(x: int, n: int, q: int)
    requires n > 0 && q * n <= x < q * n + n
    ensures x / n == q
  {
    var d := x / n;
    assert x == d * n + x % n && 0 <= x % n < n;
    if d > q {
      MulMonotone(q + 1, d, n);
    } else if d < q {
      MulMonotone(d + 1, q, n);
    }
  }

  lemma DivShift(x: nat, n: nat)
    requires n > 0
    ensures (x + n) / n == x / n + 1
  {
    DivBounds(x + n, n, x / n + 1);
  }

  // ---------------------------------------------------------------------------
  // prepare_fields_to_dict and find_value

  /** Field `i` has an "id" equal to `k` and a "value". */
  predicate Entry(fields: seq<Field>, i: int, k: int)
    requires 0 <= i < |fields|
  {
    fields[i].id == Some(k) && fields[i].value.Some?
  }

  /** `prepare_fields_to_dict(fields)`: a later field with the same id overwrites an earlier one. */
  function FieldsToDict(fields: seq<Field>): map<int, Value>
  {
    if fields == [] then map[]
    else
      var last := fields[|fields| - 1];
      var m := FieldsToDict(fields[..|fields| - 1]);
      if last.id.Some? && last.value.Some? then m[last.id.value := last.value.value] else m
  }

  /** The dictionary has a key exactly for the ids of fields that carry both
      an id and a value, and maps it to the value of the last such field. */
  lemma {:induction false} FieldsToDictSpec(fields: seq<Field>, k: int)
    ensures k in FieldsToDict(fields) <==> exists i :: 0 <= i < |fields| && Entry(fields, i, k)
    ensures k in FieldsToDict(fields) ==>
      exists i :: (0 <= i < |fields| && Entry(fields, i, k)
        && FieldsToDict(fields)[k] == fields[i].value.value
        && forall j :: i < j < |fields| ==> !Entry(fields, j, k))
  {
    if fields != [] {
      var n := |fields| - 1;
      var init := fields[..n];
      FieldsToDictSpec(init, k);
      assert forall i :: 0 <= i < n ==> (Entry(init, i, k) <==> Entry(fields, i, k));
      if Entry(fields, n, k) {
        assert FieldsToDict(fields)[k] == fields[n].value.value;
      } else if k in FieldsToDict(init) {
        var i :| 0 <= i < n && Entry(init, i, k) && FieldsToDict(init)[k] == init[i].value.value
          && forall j :: i < j < n ==> !Entry(init, j, k);
        assert Entry(fields, i, k) && FieldsToDict(fields)[k] == fields[i].value.value;
      }
    }
  }

  /** `find_value(fields, field_id)`: the "value" of the first field whose
      "id" matches, `None` (here `VNull`) when no field matches or the first
      match has no value. */
  function FindValue(fields: seq<Field>, fieldId: int): Value
  {
    if fields == [] then VNull
    else if fields[0].id == Some(fieldId) then fields[0].value.GetOr(VNull)
    else FindValue(fields[1..], fieldId)
  }

  /** First match wins: the result is that of the first field carrying the id,
      and `VNull` when none does. */
  lemma {:induction false} FindValueSpec(fields: seq<Field>, fieldId: int)
    ensures (forall i :: 0 <= i < |fields| ==> fields[i].id != Some(fieldId)) ==> FindValue(fields, fieldId) == VNull
    ensures forall i :: (0 <= i < |fields| && fields[i].id == Some(fieldId)
      && (forall j :: 0 <= j < i ==> fields[j].id != Some(fieldId))
      ==> FindValue(fields, fieldId) == fields[i].value.GetOr(VNull))
  {
    if fields != [] {
      FindValueSpec(fields[1..], fieldId);
      forall i | 0 < i < |fields| && fields[i].id == Some(fieldId)
        && (forall j :: 0 <= j < i ==> fields[j].id != Some(fieldId))
        ensures FindValue(fields, fieldId) == fields[i].value.GetOr(VNull)
      {
        assert fields[0].id != Some(fieldId);
        assert fields[1..][i - 1] == fields[i];
      }
    }
  }

  /** When an id occurs once, with a value, the dictionary and `find_value`
      agree on it, although one keeps the last match and the other the first. */
  lemma SingleFieldLookupsAgree(fields: seq<Field>, i: nat, k: int)
    requires i < |fields| && Entry(fields, i, k)
    requires forall j :: 0 <= j < |fields| && j != i ==> fields[j].id != Some(k)
    ensures k in FieldsToDict(fields) && FieldsToDict(fields)[k] == FindValue(fields, k)
  {
    FieldsToDictSpec(fields, k);
    FindValueSpec(fields, k);
  }

  // ---------------------------------------------------------------------------
  // download_one and download_files

  /** The guards of `download_one`, in their order: the error it returns
      before issuing any download request, or `None` when it goes on. */
  function DownloadGuard(att: Attachment, maxFileSize: int): (err: Option<string>)
    ensures att.name == "" ==> err == Some("No filename")
    ensures att.name != "" && (att.url == "" || att.size == 0) ==> err == Some("No URL or size")
    ensures err.None? <==> att.name != "" && att.url != "" && att.size != 0 && att.size <= maxFileSize
  {
    if att.name == "" then Some("No filename")
    else if att.url == "" || att.size == 0 then Some("No URL or size")
    else if att.size > maxFileSize then Some("File too large")
    else None
  }

  /** The URL `download_one` fetches: built from the attachment's id, not from its "url". */
  function DownloadUrl(att: Attachment): string {
    "https://api.pyrus.com/v4/files/download/" + PyStr(att.id)
  }

  function ErrorData(msg: string): AttachData { AttachData([], "", msg) }

  /** The text of the exception `download_one` catches; never empty. */
  function FailureText(f: Failure): (s: string)
    ensures s != ""
  {
    match f
    case RetryError(_) => "RetryError"
    case HttpStatusError(_) => "HTTPStatusError"
    case TransportError => "TransportError"
    case KeyError => "KeyError"
    case JsonDecodeError => "JSONDecodeError"
    case TokenNotSet => "RuntimeError"
    case TypeMismatch => "TypeError"
  }

  /** `download_one(attachment)`: the dictionary it returns, and the URL of
      the download request it issued, if any, whose outcome is `fetched`. */
  function DownloadOne<J>(att: Attachment, maxFileSize: int, fetched: Result<ApiBody<J>, Failure>): (r: (AttachData, Option<string>))
    ensures r.1.Some? <==> DownloadGuard(att, maxFileSize).None?
    ensures r.1.Some? ==> r.1.value == DownloadUrl(att)
    ensures r.1.None? ==> r.0 == ErrorData(DownloadGuard(att, maxFileSize).value)
    ensures r.1.Some? && fetched.Ok? && fetched.value.RawBytes? ==> r.0 == AttachData(fetched.value.content, att.name, "")
    ensures r.1.Some? && fetched.Ok? && fetched.value.JsonBody? ==> r.0 == ErrorData("Invalid response")
    ensures r.1.Some? && fetched.Err? ==> r.0.content == [] && r.0.error != ""
  {
    match DownloadGuard(att, maxFileSize)
    case Some(err) => (ErrorData(err), None)
    case None =>
      var url := Some(DownloadUrl(att));
      match fetched
      case Err(f) => (ErrorData(FailureText(f)), url)
      case Ok(RawBytes(content)) => (AttachData(content, att.name, ""), url)
      case Ok(JsonBody(_)) => (ErrorData("Invalid response"), url)
  }

  /** The attachment's "url" is only checked for being non-empty: two
      attachments that differ only in it are fetched from the same address,
      the one built from the attachment's id. */
  lemma DownloadIgnoresUrl<J>(att: Attachment, url: string, maxFileSize: int, fetched: Result<ApiBody<J>, Failure>)
    requires url != ""
    ensures att.url != "" ==> DownloadOne(att.(url := url), maxFileSize, fetched) == DownloadOne(att, maxFileSize, fetched)
  {
  }

  /** The "Invalid response" branch is dead: a request made with `download`
      set never comes back as parsed JSON. */
  lemma DownloadNeverInvalid<J>(att: Attachment, maxFileSize: int, token: Option<string>, calls: nat,
                                auth: nat -> AuthResponse, respond: nat -> HttpResponse<J>)
    ensures DownloadOne(att, maxFileSize, Api(token, calls, auth, respond, true).result).0.error != "Invalid response"
  {
    ApiFromSpec(token, calls, 0, auth, respond, true, 1);
    RawDownloadNeverInvalid(att, maxFileSize, Api(token, calls, auth, respond, true).result);
  }

  /** Whatever a download request returns other than parsed JSON, the result
      is not "Invalid response". */
  lemma RawDownloadNeverInvalid<J>(att: Attachment, maxFileSize: int, fetched: Result<ApiBody<J>, Failure>)
    requires fetched.Ok? ==> fetched.value.RawBytes?
    ensures DownloadOne(att, maxFileSize, fetched).0.error != "Invalid response"
  {
    var r := DownloadOne(att, maxFileSize, fetched).0;
    if DownloadGuard(att, maxFileSize).Some? {
      assert |r.error| < 16;
    } else if fetched.Err? {
      assert |r.error| < 16;
    }
  }

  /** `download_files`: one `download_one` per attachment, in order;
      `fetch(i)` is the outcome of the i-th download request. */
  function DownloadFiles<J>(atts: seq<Attachment>, maxFileSize: int, fetch: nat -> Result<ApiBody<J>, Failure>): (r: seq<AttachData>)
    ensures |r| == |atts|
    ensures forall i :: 0 <= i < |atts| ==> r[i] == DownloadOne(atts[i], maxFileSize, fetch(i)).0
  {
    seq(|atts|, i requires 0 <= i < |atts| => DownloadOne(atts[i], maxFileSize, fetch(i)).0)
  }

  // ---------------------------------------------------------------------------
  // process_file_data and send_message_to_telegram_chat

  /** `process_file_data(data)`: a file only for content and a name without an error. */
  function ProcessFileData(data: AttachData): (r: Option<InputFile>)
    ensures r.Some? <==> data.content != [] && data.filename != "" && data.error == ""
    ensures r.Some? ==> r.value == InputFile(data.content, data.filename)
  {
    if data.content == [] || data.filename == "" || data.error != "" then None
    else Some(InputFile(data.content, data.filename))
  }

  /** The files kept from a list of download results, in order. */
  function ProcessedFiles(atts: seq<AttachData>): seq<InputFile> {
    if atts == [] then []
    else
      var init := ProcessedFiles(atts[..|atts| - 1]);
      match ProcessFileData(atts[|atts| - 1])
      case Some(f) => init + [f]
      case None => init
  }

  /** A rejected attachment is dropped; every kept one is `process_file_data`
      of some attachment, and one that parses is never lost. */
  lemma {:induction false} ProcessedFilesSpec(atts: seq<AttachData>)
    ensures |ProcessedFiles(atts)| <= |atts|
    ensures forall f :: f in ProcessedFiles(atts) ==> exists a :: a in atts && ProcessFileData(a) == Some(f)
    ensures forall a :: a in atts && ProcessFileData(a).Some? ==> ProcessFileData(a).value in ProcessedFiles(atts)
  {
    if atts != [] {
      var init := atts[..|atts| - 1];
      ProcessedFilesSpec(init);
      assert atts == init + [atts[|atts| - 1]];
    }
  }

  /** The kept files of a concatenation are those of each part, in order:
      with `ProcessedFilesOne`, the kept files are the accepted ones in input
      order, each as often as it occurs. */
  lemma {:induction false} ProcessedFilesAppend(a: seq<AttachData>, b: seq<AttachData>)
    ensures ProcessedFiles(a + b) == ProcessedFiles(a) + ProcessedFiles(b)
    decreases |b|
  {
    if b == [] {
      assert a + b == a;
    } else {
      var init := b[..|b| - 1];
      assert (a + b)[..|a + b| - 1] == a + init;
      assert (a + b)[|a + b| - 1] == b[|b| - 1];
      ProcessedFilesAppend(a, init);
    }
  }

  /** A single download result is kept exactly when `process_file_data` accepts it. */
  lemma ProcessedFilesOne(a: AttachData)
    ensures ProcessedFiles([a]) == if ProcessFileData(a).Some? then [ProcessFileData(a).value] else []
  {
    assert [a][..0] == [];
  }

  /** A call made to the Telegram bot. */
  datatype BotCall = SendText(chatId: int, text: string) | SendDocuments(chatId: int, files: seq<InputFile>)

  /** The batches of documents sent for some attachments: at most ten per batch. */
  function DocumentBatches(chatId: int, atts: seq<AttachData>): seq<BotCall> {
    var chunks := Chunks(ProcessedFiles(atts), 10);
    seq(|chunks|, i requires 0 <= i < |chunks| => SendDocuments(chatId, chunks[i]))
  }

  /** What `send_message_to_telegram_chat` does: the calls it makes to the
      bot, in order, and whether it raises. A truthy text is sent first and is
      the only call whose failure (`textOk` false) makes it raise; then the
      files kept by `process_file_data` go out in batches of at most ten, and
      a batch that fails is logged while the next batch is still sent. */
  function ChatSendPlan(chatId: int, text: Option<string>, atts: seq<AttachData>, textOk: bool): (r: (seq<BotCall>, bool))
  {
    if HasText(text) && !textOk then ([SendText(chatId, text.value)], true)
    else if HasText(text) then ([SendText(chatId, text.value)] + DocumentBatches(chatId, atts), false)
    else (DocumentBatches(chatId, atts), false)
  }

  /** Every attachment that `process_file_data` accepts is sent exactly in one
      batch, in order, unless the text message failed first; nothing else is
      sent besides the text. */
  lemma ChatSendPlanSendsAllFiles(chatId: int, text: Option<string>, atts: seq<AttachData>, textOk: bool)
    requires !(HasText(text) && !textOk)
    ensures var calls := ChatSendPlan(chatId, text, atts, textOk).0;
      var batches := if HasText(text) then calls[1..] else calls;
      && (forall i :: 0 <= i < |batches| ==>
            (batches[i].SendDocuments? && batches[i].chatId == chatId && 0 < |batches[i].files| <= 10))
      && Flatten(seq(|batches|, i requires 0 <= i < |batches| => batches[i].files)) == ProcessedFiles(atts)
  {
    var calls := ChatSendPlan(chatId, text, atts, textOk).0;
    var batches := if HasText(text) then calls[1..] else calls;
    var chunks := Chunks(ProcessedFiles(atts), 10);
    assert batches == DocumentBatches(chatId, atts);
    ChunksFlatten(ProcessedFiles(atts), 10);
    ChunksShape(ProcessedFiles(atts), 10);
    assert seq(|batches|, i requires 0 <= i < |batches| => batches[i].files) == chunks;
  }

  /** `send_message_to_telegram_chat`, run against the bot's answers `textOk`
      and `batchOk(i)`; `delivered` are the calls the bot accepted. */
  method SendMessageToChat(chatId: int, text: Option<string>, atts: seq<AttachData>,
                           textOk: bool, batchOk: nat -> bool)
    returns (calls: seq<BotCall>, delivered: seq<BotCall>, raised: bool)
    ensures (calls, raised) == ChatSendPlan(chatId, text, atts, textOk)
    ensures forall c :: c in delivered ==> c in calls
  {
    calls, delivered, raised := [], [], false;
    if HasText(text) {
      calls := [SendText(chatId, text.value)];
      if !textOk {
        raised := true;
        return;
      }
      delivered := calls;
    }
    if atts == [] {
      assert DocumentBatches(chatId, atts) == [];
      assert calls + DocumentBatches(chatId, atts) == calls;
      return;
    }
    var processed: seq<InputFile> := [];
    var k := 0;
    while k < |atts|
      invariant 0 <= k <= |atts|
      invariant processed == ProcessedFiles(atts[..k])
    {
      assert atts[..k + 1][..k] == atts[..k];
      var file := ProcessFileData(atts[k]);
      if file.Some? {
        processed := processed + [file.value];
      }
      k := k + 1;
    }
    assert atts[..|atts|] == atts;
    if processed == [] {
      assert Chunks(ProcessedFiles(atts), 10) == [];
      assert calls + DocumentBatches(chatId, atts) == calls;
      return;
    }
    var chunks := Chunks(processed, 10);
    var head := calls;
    assert head == if HasText(text) then [SendText(chatId, text.value)] else [];
    assert |DocumentBatches(chatId, atts)| == |chunks|;
    var i := 0;
    while i < |chunks|
      invariant 0 <= i <= |chunks|
      invariant calls == head + DocumentBatches(chatId, atts)[..i]
      invariant forall c :: c in delivered ==> c in calls
    {
      var call := SendDocuments(chatId, chunks[i]);
      calls := calls + [call];
      if batchOk(i) {
        delivered := delivered + [call];
      }
      assert DocumentBatches(chatId, atts)[..i + 1] == DocumentBatches(chatId, atts)[..i] + [call];
      i := i + 1;
    }
    assert DocumentBatches(chatId, atts)[..i] == DocumentBatches(chatId, atts);
    assert calls == head + DocumentBatches(chatId, atts);
    if HasText(text) {
      assert calls == [SendText(chatId, text.value)] + DocumentBatches(chatId, atts);
      assert ChatSendPlan(chatId, text, atts, textOk).0 == [SendText(chatId, text.value)] + DocumentBatches(chatId, atts);
    } else {
      assert calls == DocumentBatches(chatId, atts);
    }
  }

  // ---------------------------------------------------------------------------
  // open_chat

  /** The endpoint `open_chat(task_id)` posts to. */
  function CommentsEndpoint(taskId: Value): (e: string)
    ensures StartsWith(e, "/tasks/")
    ensures |e| == 7 + |PyStr(taskId)| + 9 && e[7..7 + |PyStr(taskId)|] == PyStr(taskId)
  {
    "/tasks/" + PyStr(taskId) + "/comments"
  }

  /** The JSON of a reply: a JSON object or some other JSON value. */
  datatype ReplyDoc = ObjectDoc | NotObjectDoc

  /** `open_chat`: succeeds on a reply that is a JSON object; what it re-raises otherwise. */
  function OpenChatResult(reply: Result<ApiBody<ReplyDoc>, Failure>): (r: Result<ReplyDoc, Failure>)
    ensures r.Ok? <==> reply == Ok(JsonBody(ObjectDoc))
    ensures reply.Err? ==> r == Err(reply.error)
    ensures reply.Ok? && r.Err? ==> r.error == TypeMismatch
  {
    match reply
    case Err(f) => Err(f)
    case Ok(JsonBody(ObjectDoc)) => Ok(ObjectDoc)
    case Ok(_) => Err(TypeMismatch)
  }

  // ---------------------------------------------------------------------------
  // Replies of the task endpoints

  /** The endpoint `check_api_element(tg_id, form_id, field_id)` queries: the
      form's register filtered on the field holding the Telegram id. */
  function RegisterEndpoint(tgId: int, formId: int, fieldId: int): string {
    "/forms/" + IntToString(formId) + "/register?fld" + IntToString(fieldId) + "=" + IntToString(tgId)
  }

  /** The JSON of a register lookup: its "tasks" list ([] when missing), or
      something that is not a JSON object. */
  datatype LookupDoc = LookupDoc(tasks: seq<CrmTask>) | LookupNotObject

  /** `check_api_element`: the first task of the lookup, `None` when there is
      none, and what it raises on a failed request or a reply of the wrong type. */
  function CheckApiElement(reply: Result<ApiBody<LookupDoc>, Failure>): (r: Result<Option<CrmTask>, Failure>)
    ensures reply.Err? ==> r == Err(reply.error)
    ensures reply.Ok? && reply.value.JsonBody? && reply.value.doc.LookupDoc? ==>
      var tasks := reply.value.doc.tasks;
      r == Ok(if tasks == [] then None else Some(tasks[0]))
    ensures r.Err? && reply.Ok? ==> r.error == TypeMismatch
  {
    match reply
    case Err(f) => Err(f)
    case Ok(RawBytes(_)) => Err(TypeMismatch)
    case Ok(JsonBody(LookupNotObject)) => Err(TypeMismatch)
    case Ok(JsonBody(LookupDoc(tasks))) => if tasks == [] then Ok(None) else Ok(Some(tasks[0]))
  }

  /** The JSON of a task creation: its "task" (`None` when missing or empty),
      or something that is not a JSON object. */
  datatype CreateDoc = CreateDoc(task: Option<CrmTask>) | CreateNotObject

  /** `create_user_task` and `create_appeal_task` (the same code): the created
      task, `{}` when the reply has none, or what they re-raise. */
  function CreatedTask(reply: Result<ApiBody<CreateDoc>, Failure>): (r: Result<CrmTask, Failure>)
    ensures reply.Err? ==> r == Err(reply.error)
    ensures reply.Ok? && reply.value.JsonBody? && reply.value.doc.CreateDoc? ==>
      r == Ok(reply.value.doc.task.GetOr(NoTask))
    ensures r.Err? && reply.Ok? ==> r.error == TypeMismatch
  {
    match reply
    case Err(f) => Err(f)
    case Ok(RawBytes(_)) => Err(TypeMismatch)
    case Ok(JsonBody(CreateNotObject)) => Err(TypeMismatch)
    case Ok(JsonBody(CreateDoc(task))) => Ok(task.GetOr(NoTask))
  }

  // ---------------------------------------------------------------------------
  // get_unique_file_id

  /** The JSON of an upload reply: its "guid" (`None` when missing), or
      something that is not a JSON object. */
  datatype UploadDoc = UploadDoc(guid: Option<string>) | UploadNotObject

  /** `get_unique_file_id` given the outcome of its upload request: the GUID
      of an object reply, and `None` for any failure or other reply. */
  function UniqueFileId(reply: Result<ApiBody<UploadDoc>, Failure>): (g: Option<string>)
    ensures g.Some? <==> reply.Ok? && reply.value.JsonBody? && reply.value.doc.UploadDoc? && reply.value.doc.guid.Some?
    ensures g.Some? ==> g == reply.value.doc.guid
  {
    match reply
    case Ok(JsonBody(UploadDoc(guid))) => guid
    case _ => None
  }

  /** The retried `api_request` called with a keyword argument it does not
      declare, from its `attempt`-th attempt on: every attempt raises a
      TypeError when the call is made, before any token or request. It
      follows the retry of `ApiFrom` with an attempt that always fails. */
  function RetriedBadCall<J>(attempt: nat): (r: Result<ApiBody<J>, Failure>)
    requires 1 <= attempt <= MaxAttempts
    decreases MaxAttempts - attempt
  {
    if attempt == MaxAttempts then Err(RetryError(TypeMismatch)) else RetriedBadCall(attempt + 1)
  }

  /** As written, `get_unique_file_id` passes `files=` to `api_request`, which
      has no such parameter: the call ends in a `RetryError` and no file ever
      gets a GUID. */
  lemma {:induction false} UploadAsWrittenNeverSucceeds(attempt: nat)
    requires 1 <= attempt <= MaxAttempts
    decreases MaxAttempts - attempt
    ensures RetriedBadCall<UploadDoc>(attempt) == Err(RetryError(TypeMismatch))
    ensures UniqueFileId(RetriedBadCall(attempt)).None?
  {
    if attempt < MaxAttempts {
      UploadAsWrittenNeverSucceeds(attempt + 1);
    }
  }
}
