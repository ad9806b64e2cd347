/** The Telegram handlers: the routing of an incoming message in
    `message_text_handler` (user lookup, appeal lookup or creation, dispatch to
    album or single-message processing), the task payloads they build, and
    the registration dialogue (`RegistrationState`).

    Every answer from Pyrus is an input (`Lookups`, and the results passed to
    `OnTelephone`); what the bot says is a log of `Reply` values, where
    `Built` marks an answer whose request object is built but never awaited, so
    that nothing reaches the user. */
module Handlers {
  import opened Wrappers
  import opened Python
  import opened PyrusApi
  import opened Utils
  import opened ProcessMessage

  /** The settings the handlers read that the configuration file does not
      define: the client and appeal form ids and the user-form field ids. */
  datatype Config = Config(clientFormId: int, appealFormId: int,
                           userTgId: int, userFullname: int, userTelephone: int, userTgAccount: int)

  /** The sender of a message: Telegram id and optional username. */
  datatype User = User(id: int, username: Option<string>)

  /** A reply to the user: sent, or only built (an `answer` that is not awaited). */
  datatype Reply = Sent(text: string) | Built(text: string)

  /** One `{"id": ..., "value": ...}` entry of a task payload. */
  datatype FieldEntry = FieldEntry(id: int, value: Value)

  /** The JSON body of a task creation: the form and its fields, in order. */
  datatype TaskPayload = TaskPayload(formId: int, fields: seq<FieldEntry>)

  /** A request to Pyrus: a register lookup, a task creation, or an `open_chat`. */
  datatype Request = Lookup(endpoint: string) | CreateTask(payload: TaskPayload) | OpenTaskChat(endpoint: string)

  /** Where the message goes once its appeal task is known. */
  datatype Dispatch = NoDispatch | ToMediaGroup(taskId: Value) | ToSingleComment(taskId: Value)

  const NoUserInfo := "Ошибка: не удалось получить информацию о пользователе. Попробуйте еще раз."
  const NoUserId := "Ошибка: не удалось получить идентификатор пользователя. Попробуйте еще раз."
  const RequestFailed := "Ошибка при обработке запроса. Пожалуйста, попробуйте позже."
  const NotRegistered := "Вы не зарегистрированы. Пожалуйста, зарегистрируйтесь, чтобы продолжить."
  const NoUserData := "Ошибка: не удалось получить данные пользователя. Попробуйте еще раз."
  const AppealFailed := "Ошибка при создании обращения. Пожалуйста, попробуйте позже."
  const DefaultFullname := "Пользователь"
  const NotGiven := "Не указан"
  const NoCallbackMessage := "Ошибка: не удалось получить сообщение. Попробуйте еще раз."
  const AskFullname := "Пожалуйста, введите ваше полное имя:"
  const FullnameMissing := "Ошибка: не удалось получить ваше имя. Пожалуйста, введите повторно ваше полное имя:"
  const AskTelephone := "Пожалуйста, введите ваш номер телефона:"
  const TelephoneMissing := "Ошибка: не удалось получить ваш номер телефона. Пожалуйста, введите ваш номер телефона:"
  const RegistrationFailed := "Ошибка при попытке регистрации. Пожалуйста, попробуйте позже."
  const RegistrationRefused := "Ошибка: не удалось зарегистрировать пользователя. Попробуйте еще раз."

  /** Python's `str` of an optional string: `None` prints as "None". */
  function OptStr(s: Option<string>): string {
    if s.Some? then s.value else "None"
  }

  /** An optional string as a JSON value. */
  function OptValue(s: Option<string>): Value {
    if s.Some? then VStr(s.value) else VNull
  }

  function Thanks(fullname: Option<string>): string {
    "Спасибо за регистрацию, " + OptStr(fullname) + "!"
  }

  /** The ids of a payload's fields, in order. */
  function FieldIds(p: TaskPayload): seq<int> {
    seq(|p.fields|, i requires 0 <= i < |p.fields| => p.fields[i].id)
  }

  // ---------------------------------------------------------------------------
  // Payloads

  /** `fields_dict.get(key, default)`. */
  function DictGet(d: map<int, Value>, key: int, default: Value): Value {
    if key in d then d[key] else default
  }

  /** The appeal `message_text_handler` creates for a registered user without
      one: the Telegram id, then the user's full name, telephone and Telegram
      account as found in the fields of the user's task, with defaults. */
  function AppealPayload(cfg: Config, tgId: int, userFields: seq<Field>): (p: TaskPayload)
    ensures p.formId == cfg.appealFormId
    ensures FieldIds(p) == [RequestTgId, RequestFio, RequestTelephone, RequestTgAccount]
    ensures p.fields[0].value == VInt(tgId)
  {
    var d := FieldsToDict(userFields);
    TaskPayload(cfg.appealFormId, [
      FieldEntry(RequestTgId, VInt(tgId)),
      FieldEntry(RequestFio, DictGet(d, cfg.userFullname, VStr(DefaultFullname))),
      FieldEntry(RequestTelephone, DictGet(d, cfg.userTelephone, VStr(NotGiven))),
      FieldEntry(RequestTgAccount, DictGet(d, cfg.userTgAccount, VStr(NotGiven)))])
  }

  /** A value of the appeal is the default when no field of the user's task
      carries that id with a value; otherwise it is the last such value. */
  lemma AppealPayloadDefaults(cfg: Config, tgId: int, userFields: seq<Field>)
    ensures var p := AppealPayload(cfg, tgId, userFields);
      && ((forall i :: 0 <= i < |userFields| ==> !Entry(userFields, i, cfg.userFullname)) ==> p.fields[1].value == VStr(DefaultFullname))
      && ((forall i :: 0 <= i < |userFields| ==> !Entry(userFields, i, cfg.userTelephone)) ==> p.fields[2].value == VStr(NotGiven))
      && ((forall i :: 0 <= i < |userFields| ==> !Entry(userFields, i, cfg.userTgAccount)) ==> p.fields[3].value == VStr(NotGiven))
      && (forall i :: (0 <= i < |userFields| && Entry(userFields, i, cfg.userFullname)
            && (forall j :: i < j < |userFields| ==> !Entry(userFields, j, cfg.userFullname)))
            ==> p.fields[1].value == userFields[i].value.value)
      && (forall i :: (0 <= i < |userFields| && Entry(userFields, i, cfg.userTelephone)
            && (forall j :: i < j < |userFields| ==> !Entry(userFields, j, cfg.userTelephone)))
            ==> p.fields[2].value == userFields[i].value.value)
      && (forall i :: (0 <= i < |userFields| && Entry(userFields, i, cfg.userTgAccount)
            && (forall j :: i < j < |userFields| ==> !Entry(userFields, j, cfg.userTgAccount)))
            ==> p.fields[3].value == userFields[i].value.value)
  {
    FieldsToDictSpec(userFields, cfg.userFullname);
    FieldsToDictSpec(userFields, cfg.userTelephone);
    FieldsToDictSpec(userFields, cfg.userTgAccount);
  }

  /** The user task registration creates: full name, telephone, Telegram
      account and Telegram id, under the client form. */
  function UserPayload(cfg: Config, fullname: Option<string>, telephone: string, username: Option<string>, tgId: int): (p: TaskPayload)
    ensures p.formId == cfg.clientFormId
    ensures FieldIds(p) == [cfg.userFullname, cfg.userTelephone, cfg.userTgAccount, cfg.userTgId]
  {
    TaskPayload(cfg.clientFormId, [
      FieldEntry(cfg.userFullname, OptValue(fullname)),
      FieldEntry(cfg.userTelephone, VStr(telephone)),
      FieldEntry(cfg.userTgAccount, OptValue(username)),
      FieldEntry(cfg.userTgId, VInt(tgId))])
  }

  /** The appeal registration creates right after the user task: the same
      values in the order full name, telephone, Telegram account, Telegram id. */
  function RegisteredAppealPayload(cfg: Config, fullname: Option<string>, telephone: string, username: Option<string>, tgId: int): (p: TaskPayload)
    ensures p.formId == cfg.appealFormId
    ensures FieldIds(p) == [RequestFio, RequestTelephone, RequestTgAccount, RequestTgId]
  {
    TaskPayload(cfg.appealFormId, [
      FieldEntry(RequestFio, OptValue(fullname)),
      FieldEntry(RequestTelephone, VStr(telephone)),
      FieldEntry(RequestTgAccount, OptValue(username)),
      FieldEntry(RequestTgId, VInt(tgId))])
  }

  /** A payload's entries as the fields of the task Pyrus stores. */
  function AsFields(p: TaskPayload): (fs: seq<Field>)
    ensures |fs| == |p.fields|
  {
    seq(|p.fields|, i requires 0 <= i < |p.fields| => Field(Some(p.fields[i].id), Some(p.fields[i].value)))
  }

  /** The dictionary of four fields with distinct ids maps each id to its value. */
  lemma StoredFieldsToDict(f0: Field, f1: Field, f2: Field, f3: Field)
    requires f0.id.Some? && f1.id.Some? && f2.id.Some? && f3.id.Some?
    requires f0.value.Some? && f1.value.Some? && f2.value.Some? && f3.value.Some?
    requires f0.id != f1.id && f0.id != f2.id && f0.id != f3.id && f1.id != f2.id && f1.id != f3.id && f2.id != f3.id
    ensures var d := FieldsToDict([f0, f1, f2, f3]);
      && f0.id.value in d && d[f0.id.value] == f0.value.value
      && f1.id.value in d && d[f1.id.value] == f1.value.value
      && f2.id.value in d && d[f2.id.value] == f2.value.value
  {
    assert [f0][..0] == [];
    assert FieldsToDict([f0][..0]) == map[];
    var m0 := FieldsToDict([f0]);
    assert m0 == map[][f0.id.value := f0.value.value];
    assert [f0, f1][..1] == [f0];
    var m1 := FieldsToDict([f0, f1]);
    assert m1 == m0[f1.id.value := f1.value.value];
    assert [f0, f1, f2][..2] == [f0, f1];
    var m2 := FieldsToDict([f0, f1, f2]);
    assert m2 == m1[f2.id.value := f2.value.value];
    assert [f0, f1, f2, f3][..3] == [f0, f1, f2];
    assert FieldsToDict([f0, f1, f2, f3]) == m2[f3.id.value := f3.value.value];
  }

  /** The two ways an appeal is made agree: built from the user task that
      registration stored, the appeal of `message_text_handler` carries the
      same entries as the one registration creates, with the Telegram id moved
      from last to first. */
  lemma AppealPayloadsAgree(cfg: Config, fullname: Option<string>, telephone: string, username: Option<string>, tgId: int)
    requires cfg.userFullname != cfg.userTelephone && cfg.userFullname != cfg.userTgAccount
    requires cfg.userTelephone != cfg.userTgAccount
    requires cfg.userTgId != cfg.userFullname && cfg.userTgId != cfg.userTelephone && cfg.userTgId != cfg.userTgAccount
    ensures var stored := AsFields(UserPayload(cfg, fullname, telephone, username, tgId));
      var registered := RegisteredAppealPayload(cfg, fullname, telephone, username, tgId).fields;
      AppealPayload(cfg, tgId, stored).fields == registered[3..] + registered[..3]
  {
    var f0 := Field(Some(cfg.userFullname), Some(OptValue(fullname)));
    var f1 := Field(Some(cfg.userTelephone), Some(VStr(telephone)));
    var f2 := Field(Some(cfg.userTgAccount), Some(OptValue(username)));
    var f3 := Field(Some(cfg.userTgId), Some(VInt(tgId)));
    StoredUserFields(cfg, fullname, telephone, username, tgId);
    StoredFieldsToDict(f0, f1, f2, f3);
    AppealOfKnownFields(cfg, tgId, [f0, f1, f2, f3], OptValue(fullname), VStr(telephone), OptValue(username));
  }

  /** The fields Pyrus stores for the user task registration creates. */
  lemma StoredUserFields(cfg: Config, fullname: Option<string>, telephone: string, username: Option<string>, tgId: int)
    ensures AsFields(UserPayload(cfg, fullname, telephone, username, tgId)) == [
      Field(Some(cfg.userFullname), Some(OptValue(fullname))),
      Field(Some(cfg.userTelephone), Some(VStr(telephone))),
      Field(Some(cfg.userTgAccount), Some(OptValue(username))),
      Field(Some(cfg.userTgId), Some(VInt(tgId)))]
  {
  }

  /** The appeal built from user fields whose full name, telephone and account are known. */
  lemma AppealOfKnownFields(cfg: Config, tgId: int, userFields: seq<Field>, fio: Value, telephone: Value, account: Value)
    requires var d := FieldsToDict(userFields);
      && cfg.userFullname in d && d[cfg.userFullname] == fio
      && cfg.userTelephone in d && d[cfg.userTelephone] == telephone
      && cfg.userTgAccount in d && d[cfg.userTgAccount] == account
    ensures AppealPayload(cfg, tgId, userFields).fields
      == [FieldEntry(RequestTgId, VInt(tgId))] + [FieldEntry(RequestFio, fio), FieldEntry(RequestTelephone, telephone),
                                                  FieldEntry(RequestTgAccount, account)]
  {
  }

  // ---------------------------------------------------------------------------
  // message_text_handler

  /** What Pyrus answers to the handler: the user lookup, the appeal lookup,
      the appeal creation and the `open_chat`, each as it reaches the handler. */
  datatype Lookups = Lookups(user: Result<Option<CrmTask>, Failure>, appeal: Result<Option<CrmTask>, Failure>,
                             created: Result<CrmTask, Failure>, openReply: Result<ReplyDoc, Failure>)

  /** What one call of the handler did. */
  datatype Handled = Handled(replies: seq<Reply>, requests: seq<Request>, dispatch: Dispatch, raised: bool)

  /** The user lookup as the handler sees it: a 403 status error counts as
      "no user"; every other failure is kept. */
  function AfterUserLookup(r: Result<Option<CrmTask>, Failure>): (u: Result<Option<CrmTask>, Failure>)
    ensures r == Err(HttpStatusError(403)) ==> u == Ok(None)
    ensures r != Err(HttpStatusError(403)) ==> u == r
  {
    if r == Err(HttpStatusError(403)) then Ok(None) else r
  }

  /** `task.get("id") if task else None`. */
  function IdOf(task: Option<CrmTask>): Value {
    if task.Some? then task.value.id else VNull
  }

  /** Album messages go to the album buffer, all others to single processing. */
  function Route(msg: Message, taskId: Value): (d: Dispatch)
    ensures d.ToMediaGroup? <==> HasText(msg.mediaGroupId)
    ensures d.ToMediaGroup? || d.ToSingleComment?
    ensures d.taskId == taskId
  {
    if HasText(msg.mediaGroupId) then ToMediaGroup(taskId) else ToSingleComment(taskId)
  }

  /** `message_text_handler` for a message from `from`. */
  function MessageTextHandler(cfg: Config, from: Option<User>, msg: Message, lk: Lookups): (h: Handled)
    ensures h.raised ==> h.dispatch == NoDispatch
    ensures h.dispatch != NoDispatch ==>
      && lk.user.Ok? && lk.user.value.Some? && Truthy(lk.user.value.value.id) && lk.user.value.value.fields != []
      && Truthy(h.dispatch.taskId)
      && h.dispatch == Route(msg, h.dispatch.taskId)
    ensures from.Some? && from.value.id != 0 && AfterUserLookup(lk.user).Ok? && !Truthy(IdOf(AfterUserLookup(lk.user).value)) ==>
      h == Handled([Sent(NotRegistered)], [Lookup(RegisterEndpoint(from.value.id, cfg.clientFormId, cfg.userTgId))], NoDispatch, false)
    ensures forall r :: r in h.requests && r.CreateTask? ==>
      from.Some? && lk.user.Ok? && lk.user.value.Some? && r.payload == AppealPayload(cfg, from.value.id, lk.user.value.value.fields)
    ensures forall i :: 0 <= i < |h.requests| && h.requests[i].OpenTaskChat? ==> 0 < i && h.requests[i - 1].CreateTask?
  {
    if from.None? then Handled([Built(NoUserInfo)], [], NoDispatch, false)
    else if from.value.id == 0 then Handled([Built(NoUserId)], [], NoDispatch, false)
    else
      var tgId := from.value.id;
      var userLookup := [Lookup(RegisterEndpoint(tgId, cfg.clientFormId, cfg.userTgId))];
      match AfterUserLookup(lk.user)
      case Err(_) => Handled([Built(RequestFailed)], userLookup, NoDispatch, true)
      case Ok(user) =>
        if !Truthy(IdOf(user)) then Handled([Sent(NotRegistered)], userLookup, NoDispatch, false)
        else if user.value.fields == [] then Handled([Sent(NoUserData)], userLookup, NoDispatch, false)
        else
          var lookups := userLookup + [Lookup(RegisterEndpoint(tgId, cfg.appealFormId, RequestTgId))];
          match lk.appeal
          case Err(_) => Handled([], lookups, NoDispatch, true)
          case Ok(appeal) =>
            if Truthy(IdOf(appeal)) then Handled([], lookups, Route(msg, IdOf(appeal)), false)
            else
              var creation := lookups + [CreateTask(AppealPayload(cfg, tgId, user.value.fields))];
              match lk.created
              case Err(_) => Handled([], creation, NoDispatch, true)
              case Ok(task) =>
                if !Truthy(task.id) then Handled([Sent(AppealFailed)], creation, NoDispatch, false)
                else
                  var opening := creation + [OpenTaskChat(CommentsEndpoint(task.id))];
                  if lk.openReply.Err? then Handled([], opening, NoDispatch, true)
                  else Handled([], opening, Route(msg, task.id), false)
  }

  /** A registered user's message reaches processing once the appeal task is
      known, with at most one creation and one `open_chat` on the way; no
      appeal is created when one exists. */
  lemma ExistingAppealIsReused(cfg: Config, from: User, msg: Message, lk: Lookups)
    requires from.id != 0
    requires lk.user.Ok? && lk.user.value.Some? && Truthy(lk.user.value.value.id) && lk.user.value.value.fields != []
    requires lk.appeal.Ok? && Truthy(IdOf(lk.appeal.value))
    ensures var h := MessageTextHandler(cfg, Some(from), msg, lk);
      && h.dispatch == Route(msg, IdOf(lk.appeal.value)) && !h.raised && h.replies == []
      && |h.requests| == 2 && forall r :: r in h.requests ==> r.Lookup?
  {
  }

  /** When the user has no appeal, the handler creates one from the user's
      fields. A created task without an id is answered with the failure text
      and goes no further; a created task with an id gets its chat opened and
      the message routed to it. */
  lemma AppealCreation(cfg: Config, from: User, msg: Message, lk: Lookups)
    requires from.id != 0
    requires lk.user.Ok? && lk.user.value.Some? && Truthy(lk.user.value.value.id) && lk.user.value.value.fields != []
    requires lk.appeal.Ok? && !Truthy(IdOf(lk.appeal.value))
    ensures var h := MessageTextHandler(cfg, Some(from), msg, lk);
      var creation := [Lookup(RegisterEndpoint(from.id, cfg.clientFormId, cfg.userTgId)),
                       Lookup(RegisterEndpoint(from.id, cfg.appealFormId, RequestTgId)),
                       CreateTask(AppealPayload(cfg, from.id, lk.user.value.value.fields))];
      && (lk.created.Err? ==> h == Handled([], creation, NoDispatch, true))
      && (lk.created.Ok? && !Truthy(lk.created.value.id) ==>
            h == Handled([Sent(AppealFailed)], creation, NoDispatch, false))
      && (lk.created.Ok? && Truthy(lk.created.value.id) ==>
            && h.requests == creation + [OpenTaskChat(CommentsEndpoint(lk.created.value.id))]
            && h.replies == []
            && (lk.openReply.Ok? ==> !h.raised && h.dispatch == Route(msg, lk.created.value.id))
            && (lk.openReply.Err? ==> h.raised && h.dispatch == NoDispatch))
  {
  }

  /** A registered user whose task has no fields is told so, and nothing is
      processed. */
  lemma EmptyUserFieldsAnswered(cfg: Config, from: User, msg: Message, lk: Lookups)
    requires from.id != 0
    requires lk.user.Ok? && lk.user.value.Some? && Truthy(lk.user.value.value.id) && lk.user.value.value.fields == []
    ensures var h := MessageTextHandler(cfg, Some(from), msg, lk);
      h.replies == [Sent(NoUserData)] && h.dispatch == NoDispatch && !h.raised
      && h.requests == [Lookup(RegisterEndpoint(from.id, cfg.clientFormId, cfg.userTgId))]
  {
  }

  /** A user lookup that fails with anything but a 403 is answered with the
      generic error, whose request object is built but never awaited, and then raised. */
  lemma LookupFailureRaises(cfg: Config, from: User, msg: Message, lk: Lookups)
    requires from.id != 0 && lk.user.Err? && lk.user.error != HttpStatusError(403)
    ensures var h := MessageTextHandler(cfg, Some(from), msg, lk);
      h.raised && h.replies == [Built(RequestFailed)] && h.dispatch == NoDispatch
  {
  }

  /** As written: a user lookup that Pyrus answers with 403 on every attempt
      reaches the handler as a `RetryError`, so the 403 branch is not taken:
      the user gets the generic error (never sent) and the handler raises. */
  lemma ForbiddenLookupAsWritten(cfg: Config, from: User, msg: Message, lk: Lookups, token: Option<string>,
                                 auth: nat -> AuthResponse, respond: nat -> HttpResponse<LookupDoc>)
    requires from.id != 0 && Present(token)
    requires forall k :: respond(k).HttpReply? && respond(k).status == 403
    requires lk.user == CheckApiElement(Api(token, 0, auth, respond, false).result)
    ensures MessageTextHandler(cfg, Some(from), msg, lk)
      == Handled([Built(RequestFailed)], [Lookup(RegisterEndpoint(from.id, cfg.clientFormId, cfg.userTgId))], NoDispatch, true)
  {
    ForbiddenIsRetried(token, auth, respond, false);
  }

  /** As intended: when the retry re-raises the last exception, the same 403
      replies make the handler ask the user to register. */
  lemma ForbiddenLookupWithReraise(cfg: Config, from: User, msg: Message, lk: Lookups, token: Option<string>,
                                   auth: nat -> AuthResponse, respond: nat -> HttpResponse<LookupDoc>)
    requires from.id != 0 && Present(token)
    requires forall k :: respond(k).HttpReply? && respond(k).status == 403
    requires lk.user == CheckApiElement(Reraised(Api(token, 0, auth, respond, false).result))
    ensures MessageTextHandler(cfg, Some(from), msg, lk)
      == Handled([Sent(NotRegistered)], [Lookup(RegisterEndpoint(from.id, cfg.clientFormId, cfg.userTgId))], NoDispatch, false)
  {
    ForbiddenIsRetried(token, auth, respond, false);
  }

  // ---------------------------------------------------------------------------
  // Registration dialogue

  /** `RegistrationState`: no state, `input_fullname`, `input_telephone`. */
  datatype RegState = Idle | AwaitFullname | AwaitTelephone

  /** The dialogue state and its stored data (the full name). */
  datatype RegData = RegData(state: RegState, fullname: Option<string>)

  /** `register_callback_handler`, reached only with no state set. */
  function CallbackStep(d: RegData, hasMessage: bool): (r: (RegData, seq<Reply>))
    requires d.state == Idle
    ensures r.0.state == AwaitFullname <==> hasMessage
    ensures r.0.fullname == d.fullname
  {
    if !hasMessage then (d, [Sent(NoCallbackMessage)])
    else (d.(state := AwaitFullname), [Sent(AskFullname)])
  }

  /** `input_fullname_handler`: empty text keeps the state; otherwise the
      stripped text is stored and the telephone is asked for. */
  function FullnameStep(d: RegData, text: Option<string>): (r: (RegData, seq<Reply>))
    requires d.state == AwaitFullname
    ensures !HasText(text) ==> r.0 == d
    ensures HasText(text) ==> r.0 == RegData(AwaitTelephone, Some(Strip(text.value)))
    ensures |r.1| == 1
  {
    if !HasText(text) then (d, [Sent(FullnameMissing)])
    else (RegData(AwaitTelephone, Some(Strip(text.value))), [Sent(AskTelephone)])
  }

  /** What `input_telephone_handler` did: replies, requests, whether it
      cleared the dialogue, and whether it raised. */
  datatype Registered = Registered(replies: seq<Reply>, requests: seq<Request>, cleared: bool, raised: bool)

  /** `input_telephone_handler` with the stored full name, against the replies
      of Pyrus to the user creation, the appeal creation and the `open_chat`. */
  function TelephoneStep(cfg: Config, fullname: Option<string>, text: Option<string>, from: Option<User>,
                         created: Result<CrmTask, Failure>, appeal: Result<CrmTask, Failure>,
                         openReply: Result<ReplyDoc, Failure>): (r: Registered)
    ensures r.cleared <==> (HasText(text) && from.Some?
      && (created.Err? || !Truthy(created.value.id) || (appeal.Ok? && Truthy(appeal.value.id) && openReply.Ok?)))
    ensures r.raised <==> (HasText(text) && from.Some? && created.Ok? && Truthy(created.value.id)
      && (appeal.Err? || (Truthy(appeal.value.id) && openReply.Err?)))
    ensures r.requests != [] <==> HasText(text) && from.Some?
    ensures r.requests != [] ==>
      r.requests[0] == CreateTask(UserPayload(cfg, fullname, Strip(text.value), from.value.username, from.value.id))
    ensures |r.requests| <= 3
  {
    if !HasText(text) then Registered([Sent(TelephoneMissing)], [], false, false)
    else if from.None? then Registered([Sent(NoUserInfo)], [], false, false)
    else
      var telephone := Strip(text.value);
      var user := from.value;
      var registration := [CreateTask(UserPayload(cfg, fullname, telephone, user.username, user.id))];
      match created
      case Err(_) => Registered([Sent(RegistrationFailed)], registration, true, false)
      case Ok(task) =>
        if !Truthy(task.id) then Registered([Sent(RegistrationRefused)], registration, true, false)
        else
          var thanks := [Sent(Thanks(fullname))];
          var appealing := registration + [CreateTask(RegisteredAppealPayload(cfg, fullname, telephone, user.username, user.id))];
          match appeal
          case Err(_) => Registered(thanks, appealing, false, true)
          case Ok(a) =>
            if !Truthy(a.id) then Registered(thanks + [Sent(AppealFailed)], appealing, false, false)
            else
              var opening := appealing + [OpenTaskChat(CommentsEndpoint(a.id))];
              if openReply.Err? then Registered(thanks, opening, false, true)
              else Registered(thanks, opening, true, false)
  }

  /** The dialogue after the telephone step. */
  function AfterTelephone(d: RegData, r: Registered): RegData {
    if r.cleared then RegData(Idle, None) else d
  }

  /** The whole dialogue with every reply from Pyrus succeeding: the button,
      a name, a telephone; the dialogue ends cleared, having registered the
      stripped name and telephone, created the appeal and opened its chat. */
  lemma RegistrationRoundTrip(cfg: Config, name: string, phone: string, from: User,
                              userTask: CrmTask, appealTask: CrmTask, d: RegData)
    requires d.state == Idle && name != "" && phone != ""
    requires Truthy(userTask.id) && Truthy(appealTask.id)
    ensures var s1 := CallbackStep(d, true).0;
      var s2 := FullnameStep(s1, Some(name)).0;
      var r := TelephoneStep(cfg, s2.fullname, Some(phone), Some(from), Ok(userTask), Ok(appealTask), Ok(ObjectDoc));
      && s2 == RegData(AwaitTelephone, Some(Strip(name)))
      && AfterTelephone(s2, r) == RegData(Idle, None) && !r.raised
      && r.requests == [CreateTask(UserPayload(cfg, Some(Strip(name)), Strip(phone), from.username, from.id)),
                        CreateTask(RegisteredAppealPayload(cfg, Some(Strip(name)), Strip(phone), from.username, from.id)),
                        OpenTaskChat(CommentsEndpoint(appealTask.id))]
  {
  }

  /** An appeal creation that returns no id leaves the dialogue waiting for
      the telephone, with the name kept, although the user task exists; the
      next telephone message registers the user again. */
  lemma FailedAppealKeepsDialogue(cfg: Config, d: RegData, text: string, from: User,
                                  userTask: CrmTask, appealTask: CrmTask, openReply: Result<ReplyDoc, Failure>)
    requires d.state == AwaitTelephone && text != ""
    requires Truthy(userTask.id) && !Truthy(appealTask.id)
    ensures var r := TelephoneStep(cfg, d.fullname, Some(text), Some(from), Ok(userTask), Ok(appealTask), openReply);
      && AfterTelephone(d, r) == d && !r.raised
      && r.replies == [Sent(Thanks(d.fullname)), Sent(AppealFailed)]
      && TelephoneStep(cfg, d.fullname, Some(text), Some(from), Ok(userTask), Ok(appealTask), openReply).requests[0].payload.formId
         == cfg.clientFormId
  {
  }

  /** One chat with the bot: the dialogue state, its stored data, and the
      logs of replies and requests. The router hands a message to the handler
      whose state filter matches, which is what each `requires` says. */
  class Conversation {
    const cfg: Config
    var state: RegState
    var fullname: Option<string>
    var replies: seq<Reply>
    var requests: seq<Request>

    function Data(): RegData
      reads this
    {
      RegData(state, fullname)
    }

    constructor (cfg: Config)
      ensures this.cfg == cfg && Data() == RegData(Idle, None) && replies == [] && requests == []
    {
      this.cfg := cfg;
      state := Idle;
      fullname := None;
      replies := [];
      requests := [];
    }

    /** `message_text_handler`: the dialogue is untouched. */
    method OnMessage(from: Option<User>, msg: Message, lk: Lookups) returns (dispatch: Dispatch, raised: bool)
      requires state == Idle
      modifies this
      ensures var h := MessageTextHandler(cfg, from, msg, lk);
        && dispatch == h.dispatch && raised == h.raised
        && replies == old(replies) + h.replies && requests == old(requests) + h.requests
      ensures Data() == old(Data())
    {
      var h := MessageTextHandler(cfg, from, msg, lk);
      replies := replies + h.replies;
      requests := requests + h.requests;
      dispatch, raised := h.dispatch, h.raised;
    }

    /** `register_callback_handler`. */
    method OnRegisterButton(hasMessage: bool)
      requires state == Idle
      modifies this
      ensures (Data(), replies) == (CallbackStep(old(Data()), hasMessage).0, old(replies) + CallbackStep(old(Data()), hasMessage).1)
      ensures requests == old(requests)
    {
      if !hasMessage {
        replies := replies + [Sent(NoCallbackMessage)];
        return;
      }
      replies := replies + [Sent(AskFullname)];
      state := AwaitFullname;
    }

    /** `input_fullname_handler`. */
    method OnFullname(text: Option<string>)
      requires state == AwaitFullname
      modifies this
      ensures (Data(), replies) == (FullnameStep(old(Data()), text).0, old(replies) + FullnameStep(old(Data()), text).1)
      ensures requests == old(requests)
    {
      if !HasText(text) {
        replies := replies + [Sent(FullnameMissing)];
        return;
      }
      fullname := Some(Strip(text.value));
      replies := replies + [Sent(AskTelephone)];
      state := AwaitTelephone;
    }

    /** `input_telephone_handler`. */
    method OnTelephone(text: Option<string>, from: Option<User>, created: Result<CrmTask, Failure>,
                       appeal: Result<CrmTask, Failure>, openReply: Result<ReplyDoc, Failure>) returns (raised: bool)
      requires state == AwaitTelephone
      modifies this
      ensures var r := TelephoneStep(cfg, old(fullname), text, from, created, appeal, openReply);
        && raised == r.raised && Data() == AfterTelephone(old(Data()), r)
        && replies == old(replies) + r.replies && requests == old(requests) + r.requests
    {
      var r := TelephoneStep(cfg, fullname, text, from, created, appeal, openReply);
      replies := replies + r.replies;
      requests := requests + r.requests;
      raised := r.raised;
      if r.cleared {
        state := Idle;
        fullname := None;
      }
    }
  }
}
