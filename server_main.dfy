/** The webhook server: the gate of the `/webhook` endpoint (User-Agent and
    HMAC signature), the guard chain of `process_webhook`, what it does for a
    comment, and the queue the endpoint fills and the worker drains.

    The HMAC-SHA1 hex digest is the oracle `hexHmac(securityKey, body)`, the
    JSON decoder the oracle `parse(body)`, and every reply from Pyrus or from
    Telegram is an input of `World`. */
module Webhook {
  import opened Wrappers
  import opened Python
  import opened PyrusApi
  import opened Utils

  /** The prefix a Pyrus User-Agent must start with. */
  const UserAgentPrefix := "Pyrus-Bot-"

  // ---------------------------------------------------------------------------
  // verify_signature

  /** `hmac.compare_digest` on two strings: it raises (`None` here) unless both
      are ASCII, and otherwise tells whether they are equal. */
  function CompareDigest(a: string, b: string): (r: Option<bool>)
    ensures r.None? <==> !(IsAscii(a) && IsAscii(b))
    ensures r.Some? ==> (r.value <==> a == b)
  {
    if IsAscii(a) && IsAscii(b) then Some(a == b) else None
  }

  /** `verify_signature(header_sig, body)`: a missing or empty header fails,
      an exception inside fails, and otherwise the lower-cased header must be
      the lower-cased hex digest. A "sha1=" prefix is not removed. */
  function VerifySignature(headerSig: Option<string>, body: Bytes, securityKey: string,
                           hexHmac: (string, Bytes) -> string): (ok: bool)
    ensures ok <==> HasText(headerSig) && IsAscii(headerSig.value)
                    && IsAscii(hexHmac(securityKey, body))
                    && Lower(headerSig.value) == Lower(hexHmac(securityKey, body))
  {
    if !HasText(headerSig) then false
    else
      match CompareDigest(Lower(headerSig.value), Lower(hexHmac(securityKey, body)))
      case None => false
      case Some(equal) => equal
  }

  /** A header written as "sha1=<digest>" is rejected, whatever the digest:
      it is five characters longer than the lower-cased digest it must equal. */
  lemma PrefixedSignatureRejected(digest: string, body: Bytes, securityKey: string,
                                  hexHmac: (string, Bytes) -> string)
    requires |hexHmac(securityKey, body)| == |digest|
    ensures !VerifySignature(Some("sha1=" + digest), body, securityKey, hexHmac)
  {
    assert |Lower("sha1=" + digest)| == |digest| + 5;
  }

  /** The digest is matched without regard to the case of its letters: the
      upper-cased form of a lower-case digest is accepted too. */
  lemma SignatureCaseInsensitive(headerSig: string, body: Bytes, securityKey: string,
                                 hexHmac: (string, Bytes) -> string)
    requires headerSig != "" && IsAscii(headerSig) && IsAscii(hexHmac(securityKey, body))
    requires Lower(headerSig) == hexHmac(securityKey, body)
    ensures VerifySignature(Some(headerSig), body, securityKey, hexHmac)
  {
    LowerAsciiIdempotent(headerSig);
  }

  /** Without a signature header nothing is accepted, whatever the key and the digest. */
  lemma MissingSignatureRejected(body: Bytes, securityKey: string, hexHmac: (string, Bytes) -> string)
    ensures !VerifySignature(None, body, securityKey, hexHmac)
    ensures !VerifySignature(Some(""), body, securityKey, hexHmac)
  {
  }

  /** A header that differs from the digest in one position by something other
      than the case of an ASCII letter is rejected. */
  lemma AlteredSignatureRejected(headerSig: string, body: Bytes, securityKey: string,
                                 hexHmac: (string, Bytes) -> string, i: nat)
    requires |headerSig| == |hexHmac(securityKey, body)| && i < |headerSig|
    requires LowerChar(headerSig[i]) != LowerChar(hexHmac(securityKey, body)[i])
    ensures !VerifySignature(Some(headerSig), body, securityKey, hexHmac)
  {
  }

  // ---------------------------------------------------------------------------
  // The /webhook endpoint

  /** What the endpoint queues: the body and three headers, each possibly missing. */
  datatype Event = Event(body: Bytes, sig: Option<string>, retry: Option<string>, userAgent: Option<string>)

  /** The endpoint's reply: an HTTP error, or 200 once the event is queued. */
  datatype GateReply = Refused(status: int, detail: string) | Queued(event: Event)

  predicate PyrusUserAgent(userAgent: Option<string>) {
    HasText(userAgent) && StartsWith(userAgent.value, UserAgentPrefix)
  }

  /** `pyrus_webhook`: the User-Agent is checked before the signature, and a
      bad signature is answered with status 500 "Request body is missing". */
  function Gate(ev: Event, securityKey: string, hexHmac: (string, Bytes) -> string): (r: GateReply)
    ensures r.Queued? <==> PyrusUserAgent(ev.userAgent) && VerifySignature(ev.sig, ev.body, securityKey, hexHmac)
    ensures r.Queued? ==> r.event == ev
    ensures !PyrusUserAgent(ev.userAgent) ==> r == Refused(400, "Bad User-Agent")
    ensures PyrusUserAgent(ev.userAgent) && r.Refused? ==> r == Refused(500, "Request body is missing")
  {
    if !PyrusUserAgent(ev.userAgent) then Refused(400, "Bad User-Agent")
    else if !VerifySignature(ev.sig, ev.body, securityKey, hexHmac) then Refused(500, "Request body is missing")
    else Queued(ev)
  }

  // ---------------------------------------------------------------------------
  // process_webhook: the guard chain

  /** A comment of the task; `text` is `None` when the key is missing, and
      `attachments` is [] when the key is missing or null. */
  datatype Comment = Comment(createDate: Value, channelType: Value, text: Option<string>, attachments: seq<Attachment>)

  /** A task object that has at least one key (an empty `{}` is `None` in `Payload`);
      [] stands for a missing or empty "fields" or "comments". */
  datatype TaskData = TaskData(fields: seq<Field>, comments: seq<Comment>, createDate: Value)

  /** The decoded body of a webhook; a missing scalar key is `VNull`. */
  datatype Payload = Payload(task: Option<TaskData>, accessToken: Value, event: Value, taskId: Value)

  /** What `json.loads` makes of a body: not JSON, a JSON value that is not an
      object (on which `data.get` raises), or an object. */
  datatype Parsed = Malformed | NotAnObject | Decoded(payload: Payload)

  /** What `process_webhook` raises: the `HTTPException` of `require` or of a
      failed decode, the `AttributeError` of `.get` on a non-object, or what
      `open_chat` re-raises. */
  datatype Raise = HttpError(status: int, detail: string) | AttributeError | Propagated(failure: Failure)

  /** Where the guard chain leads. */
  datatype Decision =
    | Stop(exc: Raise)
    | OpenChat(taskId: Value)
    | NotFromTelegram
    | Deliver(fields: seq<Field>, text: Option<string>, attachments: seq<Attachment>)

  /** The guard chain of `process_webhook`, in the source's order, up to the
      decision on the last comment. */
  function Decide(body: Bytes, parse: Bytes -> Parsed): (d: Decision)
    ensures body == [] ==> d == Stop(HttpError(500, "No body was found during request processing."))
    ensures body != [] && parse(body).Malformed? ==> d == Stop(HttpError(422, "Incorrect JSON"))
    ensures body != [] && parse(body).NotAnObject? ==> d == Stop(AttributeError)
    ensures !d.Stop? <==> body != [] && parse(body).Decoded? && Accepted(parse(body).payload)
    ensures d.OpenChat? || d.NotFromTelegram? || d.Deliver? ==>
      var p := parse(body).payload;
      var last := p.task.value.comments[|p.task.value.comments| - 1];
      && (d.OpenChat? <==> last.createDate == p.task.value.createDate)
      && (d.OpenChat? ==> d.taskId == p.taskId)
      && (d.Deliver? <==> last.createDate != p.task.value.createDate && last.channelType == VStr("telegram"))
      && (d.Deliver? ==> d == Deliver(p.task.value.fields, last.text, last.attachments))
  {
    if body == [] then Stop(HttpError(500, "No body was found during request processing."))
    else
      match parse(body)
      case Malformed => Stop(HttpError(422, "Incorrect JSON"))
      case NotAnObject => Stop(AttributeError)
      case Decoded(p) =>
        match Guard(p)
        case Some(detail) => Stop(HttpError(500, detail))
        case None =>
          var task := p.task.value;
          var last := task.comments[|task.comments| - 1];
          if last.createDate == task.createDate then OpenChat(p.taskId)
          else if last.channelType != VStr("telegram") then NotFromTelegram
          else Deliver(task.fields, last.text, last.attachments)
  }

  /** The `require` calls of `process_webhook` in order: the detail of the first
      that fails. The second "fields" check ("Unexpected User-Agent") repeats
      the first and can never fail. */
  function Guard(p: Payload): (detail: Option<string>)
    ensures detail.None? <==> Accepted(p)
    ensures p.task.None? ==> detail == Some("Task not found.")
    ensures p.task.Some? && !Truthy(p.accessToken) ==> detail == Some("token not found")
    ensures detail != Some("Unexpected User-Agent")
  {
    if p.task.None? then Some("Task not found.")
    else if !Truthy(p.accessToken) then Some("token not found")
    else if p.task.value.fields == [] then Some("fields not found")
    else if p.task.value.comments == [] then Some("No comments in task")
    else if p.task.value.fields == [] then Some("Unexpected User-Agent")
    else if !Truthy(p.event) then Some("No event field in payload")
    else if !Truthy(p.taskId) then Some("No task_id field in payload")
    else if !Truthy(p.task.value.createDate) then Some("No create_date field in payload")
    else None
  }

  /** A payload that passes every `require`. */
  predicate Accepted(p: Payload) {
    && p.task.Some? && Truthy(p.accessToken)
    && p.task.value.fields != [] && p.task.value.comments != []
    && Truthy(p.event) && Truthy(p.taskId) && Truthy(p.task.value.createDate)
  }

  /** `count_triggered` goes up once a payload gets past the task_id check. */
  predicate Triggers(body: Bytes, parse: Bytes -> Parsed) {
    && body != [] && parse(body).Decoded?
    && var p := parse(body).payload;
       && p.task.Some? && Truthy(p.accessToken)
       && p.task.value.fields != [] && p.task.value.comments != []
       && Truthy(p.event) && Truthy(p.taskId)
  }

  /** Every accepted payload is counted, and a counted one fails at most the create_date check. */
  lemma TriggersBeforeCreateDate(body: Bytes, parse: Bytes -> Parsed)
    ensures !Decide(body, parse).Stop? ==> Triggers(body, parse)
    ensures Triggers(body, parse) && Decide(body, parse).Stop? ==>
      Decide(body, parse) == Stop(HttpError(500, "No create_date field in payload"))
  {
  }

  // ---------------------------------------------------------------------------
  // process_webhook: the effects

  /** The answers of the outside world to one `process_webhook`: the auth
      endpoint as seen by the fresh `TokenManager()` it creates, the reply to
      the `open_chat` request, the outcome of the i-th download request, whether
      a bot instance exists, and whether Telegram accepts the text message. */
  datatype World = World(auth: nat -> AuthResponse, openChat: Result<ApiBody<ReplyDoc>, Failure>,
                         fetch: nat -> Result<ApiBody<ReplyDoc>, Failure>, botAvailable: bool, textOk: bool)

  /** What a run did: the `open_chat` requests (by endpoint), the auth requests
      of its own token manager, the download requests, and the bot calls. */
  datatype Effects = Effects(chatOpened: seq<string>, authCalls: nat, downloads: nat, botCalls: seq<BotCall>)

  const NoEffects := Effects([], 0, 0, [])

  /** The end of a run: a JSON response with its status and its "error", or an exception. */
  datatype Outcome = Responded(status: int, error: Option<string>, effects: Effects) | Raised(exc: Raise, effects: Effects)

  /** The number of attachments for which `download_one` issues a request. */
  function DownloadCount(atts: seq<Attachment>, maxFileSize: int): (n: nat)
    ensures n <= |atts|
  {
    if atts == [] then 0
    else DownloadCount(atts[..|atts| - 1], maxFileSize)
         + (if DownloadGuard(atts[|atts| - 1], maxFileSize).None? then 1 else 0)
  }

  /** The chat id read from the fields: `find_value` for "tg_id", which must be
      truthy, then `int(str(value).strip())`. */
  function ChatId(fields: seq<Field>): Option<int> {
    var v := FindValue(fields, RequestTgId);
    if !Truthy(v) then None else PyInt(Strip(PyStr(v)))
  }

  /** The `try` block of `process_webhook` for a comment to be delivered. */
  function DeliverComment(fields: seq<Field>, text: Option<string>, atts: seq<Attachment>,
                          maxFileSize: int, world: World): (o: Outcome)
  {
    var got := ObtainToken(None, world.auth, 0);
    var downloads := DownloadCount(atts, maxFileSize);
    match got.result
    case Err(e) => Responded(500, Some(FailureText(e)), Effects([], got.calls, 0, []))
    case Ok(_) =>
      var files := DownloadFiles(atts, maxFileSize, world.fetch);
      var effects := Effects([], got.calls, downloads, []);
      if !world.botAvailable then Responded(200, Some("Failed to get bot instance"), effects)
      else if !Truthy(FindValue(fields, RequestTgId)) then Responded(200, Some("Chat ID not found in task fields"), effects)
      else if ChatId(fields).None? then Responded(200, None, effects)
      else
        var plan := ChatSendPlan(ChatId(fields).value, text, files, world.textOk);
        var sent := effects.(botCalls := plan.0);
        if plan.1 then Responded(500, Some("TelegramAPIError"), sent)
        else Responded(200, None, sent)
  }

  /** `process_webhook(body, ...)` run against `world`. */
  function ProcessWebhook(body: Bytes, parse: Bytes -> Parsed, maxFileSize: int, world: World): (o: Outcome)
    ensures Decide(body, parse).Stop? ==> o == Raised(Decide(body, parse).exc, NoEffects)
    ensures Decide(body, parse).NotFromTelegram? ==> o == Responded(200, None, NoEffects)
  {
    match Decide(body, parse)
    case Stop(exc) => Raised(exc, NoEffects)
    case NotFromTelegram => Responded(200, None, NoEffects)
    case OpenChat(taskId) =>
      var posted := Effects([CommentsEndpoint(taskId)], 0, 0, []);
      if OpenChatResult(world.openChat).Ok? then Responded(200, None, posted)
      else Raised(Propagated(OpenChatResult(world.openChat).error), posted)
    case Deliver(fields, text, atts) => DeliverComment(fields, text, atts, maxFileSize, world)
  }

  // ---------------------------------------------------------------------------
  // Properties of process_webhook

  /** `download_one` issues no request at all exactly when every attachment
      fails a guard, and one per attachment exactly when none does. */
  lemma {:induction false} DownloadCountSpec(atts: seq<Attachment>, maxFileSize: int)
    ensures DownloadCount(atts, maxFileSize) == 0 <==>
      forall i :: 0 <= i < |atts| ==> DownloadGuard(atts[i], maxFileSize).Some?
    ensures DownloadCount(atts, maxFileSize) == |atts| <==>
      forall i :: 0 <= i < |atts| ==> DownloadGuard(atts[i], maxFileSize).None?
  {
    if atts != [] {
      var init := atts[..|atts| - 1];
      DownloadCountSpec(init, maxFileSize);
      assert forall i :: 0 <= i < |init| ==> init[i] == atts[i];
    }
  }

  /** An integer chat id, stored as a number or as its decimal text, is read back unchanged. */
  lemma ChatIdRoundTrip(fields: seq<Field>, id: int)
    requires id != 0
    requires FindValue(fields, RequestTgId) == VInt(id) || FindValue(fields, RequestTgId) == VStr(IntToString(id))
    ensures ChatId(fields) == Some(id)
  {
    StripNoSpace(IntToString(id));
    PyIntOfIntToString(id);
  }

  /** When the last comment is the one the task was created with, the chat is
      opened with one request and nothing is forwarded to Telegram. */
  lemma CreationCommentOpensChat(body: Bytes, parse: Bytes -> Parsed, maxFileSize: int, world: World)
    requires body != [] && parse(body).Decoded? && Accepted(parse(body).payload)
    requires var task := parse(body).payload.task.value;
      task.comments[|task.comments| - 1].createDate == task.createDate
    ensures var o := ProcessWebhook(body, parse, maxFileSize, world);
      && o.effects.chatOpened == [CommentsEndpoint(parse(body).payload.taskId)]
      && o.effects.botCalls == [] && o.effects.authCalls == 0 && o.effects.downloads == 0
      && (o.Responded? <==> OpenChatResult(world.openChat).Ok?)
  {
  }

  /** Something reaches Telegram only for an accepted payload whose last comment
      came from the Telegram channel and is not the creation comment, and every
      call goes to the chat id read from the "tg_id" field. */
  lemma OnlyTelegramCommentsForwarded(body: Bytes, parse: Bytes -> Parsed, maxFileSize: int, world: World)
    requires ProcessWebhook(body, parse, maxFileSize, world).effects.botCalls != []
    ensures body != [] && parse(body).Decoded? && Accepted(parse(body).payload)
    ensures var p := parse(body).payload;
      var last := p.task.value.comments[|p.task.value.comments| - 1];
      && last.channelType == VStr("telegram") && last.createDate != p.task.value.createDate
      && ChatId(p.task.value.fields).Some?
      && forall c :: c in ProcessWebhook(body, parse, maxFileSize, world).effects.botCalls ==>
           c.chatId == ChatId(p.task.value.fields).value
  {
    var d := Decide(body, parse);
    var o := ProcessWebhook(body, parse, maxFileSize, world);
    assert d.Deliver?;
    var atts := d.attachments;
    var chatId := ChatId(d.fields).value;
    var files := DownloadFiles(atts, maxFileSize, world.fetch);
    ChatSendPlanSendsAllFiles(chatId, d.text, files, true);
    forall c | c in o.effects.botCalls ensures c.chatId == chatId {
      var plan := ChatSendPlan(chatId, d.text, files, world.textOk).0;
      assert o.effects.botCalls == plan;
      var k :| 0 <= k < |plan| && plan[k] == c;
      if HasText(d.text) && k > 0 {
        assert plan[k] == DocumentBatches(chatId, files)[k - 1];
      } else if !HasText(d.text) {
        assert plan[k] == DocumentBatches(chatId, files)[k];
      }
    }
  }

  /** A comment to be forwarded always costs at least one auth request: the
      token comes from a new `TokenManager()`, never from the cached one. */
  lemma DeliveryAlwaysAuthenticates(body: Bytes, parse: Bytes -> Parsed, maxFileSize: int, world: World)
    requires Decide(body, parse).Deliver?
    ensures ProcessWebhook(body, parse, maxFileSize, world).effects.authCalls >= 1
  {
    GetTokenAfterInvalidateRefreshes(world.auth, 0);
  }

  /** The answers of the forwarding branch: it always answers and never
      raises. A failed token is a 500 with nothing sent. A missing bot, a
      missing chat id or one `int` cannot read is a 200 with nothing sent. A
      failed text message is a 500 after that one call. Otherwise the answer
      is a 200. */
  lemma DeliveryStatuses(body: Bytes, parse: Bytes -> Parsed, maxFileSize: int, world: World)
    requires Decide(body, parse).Deliver?
    ensures var d := Decide(body, parse);
      var o := ProcessWebhook(body, parse, maxFileSize, world);
      var tokenOk := ObtainToken(None, world.auth, 0).result.Ok?;
      && o.Responded?
      && (!tokenOk ==> o.status == 500 && o.effects.botCalls == [])
      && (tokenOk && !world.botAvailable ==>
            o.status == 200 && o.error == Some("Failed to get bot instance") && o.effects.botCalls == [])
      && (tokenOk && world.botAvailable && !Truthy(FindValue(d.fields, RequestTgId)) ==>
            o.status == 200 && o.error == Some("Chat ID not found in task fields") && o.effects.botCalls == [])
      && (tokenOk && world.botAvailable && ChatId(d.fields).None? ==> o.status == 200 && o.effects.botCalls == [])
      && (tokenOk && world.botAvailable && ChatId(d.fields).Some? && HasText(d.text) && !world.textOk ==>
            o.status == 500 && o.effects.botCalls == [SendText(ChatId(d.fields).value, d.text.value)])
      && (tokenOk && world.botAvailable && ChatId(d.fields).Some? && !(HasText(d.text) && !world.textOk) ==>
            o == Responded(200, None, o.effects))
  {
  }

  /** When the token, the bot, the chat id and the text message all succeed,
      every file that `download_one` fetched and `process_file_data` accepted
      is sent, in order, in batches of at most ten, and the run answers 200. */
  lemma DeliveryForwardsAllFiles(fields: seq<Field>, text: Option<string>, atts: seq<Attachment>,
                                 maxFileSize: int, world: World)
    requires ObtainToken(None, world.auth, 0).result.Ok?
    requires world.botAvailable && ChatId(fields).Some? && world.textOk
    ensures var o := DeliverComment(fields, text, atts, maxFileSize, world);
      var batches := if HasText(text) then o.effects.botCalls[1..] else o.effects.botCalls;
      && o == Responded(200, None, o.effects)
      && (HasText(text) ==> o.effects.botCalls[0] == SendText(ChatId(fields).value, text.value))
      && (forall i :: 0 <= i < |batches| ==> batches[i].SendDocuments? && 0 < |batches[i].files| <= 10)
      && Flatten(seq(|batches|, i requires 0 <= i < |batches| => batches[i].files))
         == ProcessedFiles(DownloadFiles(atts, maxFileSize, world.fetch))
  {
    ChatSendPlanSendsAllFiles(ChatId(fields).value, text, DownloadFiles(atts, maxFileSize, world.fetch), true);
  }

  // ---------------------------------------------------------------------------
  // The queue and its worker

  /** The number of queued events that get past the task_id check. */
  function TriggerCount(events: seq<Event>, parse: Bytes -> Parsed): (n: nat)
    ensures n <= |events|
  {
    if events == [] then 0
    else TriggerCount(events[..|events| - 1], parse) + (if Triggers(events[|events| - 1].body, parse) then 1 else 0)
  }

  /** `webhook_queue`, the endpoint that fills it and the worker that drains
      it; `unfinished` counts the items not yet marked `task_done`, and
      `triggered` is `count_triggered`. */
  class WebhookService {
    const securityKey: string
    const hexHmac: (string, Bytes) -> string
    const parse: Bytes -> Parsed
    const maxFileSize: int
    var queue: seq<Event>
    var unfinished: nat
    var triggered: nat

    /** Every queued item is marked done once it has been processed. */
    predicate Valid()
      reads this
    {
      unfinished == |queue|
    }

    constructor (securityKey: string, hexHmac: (string, Bytes) -> string, parse: Bytes -> Parsed, maxFileSize: int)
      ensures Valid() && queue == [] && triggered == 1
      ensures this.securityKey == securityKey && this.hexHmac == hexHmac
      ensures this.parse == parse && this.maxFileSize == maxFileSize
    {
      this.securityKey := securityKey;
      this.hexHmac := hexHmac;
      this.parse := parse;
      this.maxFileSize := maxFileSize;
      queue := [];
      unfinished := 0;
      triggered := 1;
    }

    /** `pyrus_webhook`: answer the request and queue the event when it passes the gate. */
    method Receive(ev: Event) returns (reply: GateReply)
      requires Valid()
      modifies this
      ensures Valid()
      ensures reply == Gate(ev, securityKey, hexHmac)
      ensures queue == old(queue) + (if reply.Queued? then [ev] else [])
      ensures triggered == old(triggered)
    {
      reply := Gate(ev, securityKey, hexHmac);
      if reply.Queued? {
        queue := queue + [ev];
        unfinished := unfinished + 1;
      }
    }

    /** One turn of `webhook_worker`: take the oldest event, process it
      (whatever it raises is caught and logged), and mark it done. */
    method WorkOne(world: World) returns (outcome: Outcome)
      requires Valid() && queue != []
      modifies this
      ensures Valid()
      ensures outcome == ProcessWebhook(old(queue)[0].body, parse, maxFileSize, world)
      ensures queue == old(queue)[1..]
      ensures triggered == old(triggered) + (if Triggers(old(queue)[0].body, parse) then 1 else 0)
    {
      var ev := queue[0];
      queue := queue[1..];
      outcome := ProcessWebhook(ev.body, parse, maxFileSize, world);
      if Triggers(ev.body, parse) {
        triggered := triggered + 1;
      }
      unfinished := unfinished - 1;
    }

    /** The worker run until the queue is empty: the events are processed in
      the order they arrived, the i-th against `worlds(i)`. */
    method Drain(worlds: nat -> World) returns (outcomes: seq<Outcome>)
      requires Valid()
      modifies this
      ensures Valid() && queue == []
      ensures |outcomes| == |old(queue)|
      ensures forall i :: 0 <= i < |outcomes| ==>
        outcomes[i] == ProcessWebhook(old(queue)[i].body, parse, maxFileSize, worlds(i))
      ensures triggered == old(triggered) + TriggerCount(old(queue), parse)
    {
      outcomes := [];
      ghost var q := queue;
      var k := 0;
      while queue != []
        invariant Valid()
        invariant 0 <= k <= |q| && queue == q[k..]
        invariant |outcomes| == k
        invariant forall i :: 0 <= i < k ==> outcomes[i] == ProcessWebhook(q[i].body, parse, maxFileSize, worlds(i))
        invariant triggered == old(triggered) + TriggerCount(q[..k], parse)
        decreases |queue|
      {
        assert q[..k + 1][..k] == q[..k];
        var outcome := WorkOne(worlds(k));
        outcomes := outcomes + [outcome];
        k := k + 1;
      }
      assert q[..k] == q;
    }
  }
}
