/**
  The pure decisions of the bot: classifying the service's HTTP outcome,
  validating a reply, turning a homework record into a notification, and
  checking that the three settings are present.
 */
module Homework {
  import opened Py
  import opened Errors

  /** Display text for each review status. */
  const HomeworkStatuses: map<string, string> := map[
    "approved" := "Работа проверена: ревьюеру всё понравилось. Ура!",
    "reviewing" := "Работа взята на проверку ревьюером.",
    "rejected" := "Работа проверена: у ревьюера есть замечания."
  ]

  const HomeworksKey := "homeworks"
  const NameKey := "homework_name"
  const StatusKey := "status"

  const EndpointUnreachable := "Ошибка доступа к эндпоинту!"
  const StatusCodePrefix := "Код страницы: "
  const UnknownFormat := "Неизвестное форматирование ответа!"
  const NoChanges := "Домашка без изменений!"
  const NoHomeworks := "Нет homeworks в ключах ответа!"
  const NotificationPrefix := "Изменился статус проверки работы \""

  // ---------------------------------------------------------------------
  // get_api_answer

  /** What the transport produced for one request. */
  datatype Reply = TransportFailure | HttpResponse(statusCode: int, body: Json)

  /** The `from_date` query parameter: the checkpoint, or the clock when the checkpoint is 0. */
  function FromDate(currentTimestamp: int, now: int): (t: int)
    ensures currentTimestamp != 0 ==> t == currentTimestamp
    ensures currentTimestamp == 0 ==> t == now
  {
    if currentTimestamp != 0 then currentTimestamp else now
  }

  /** The text of the error raised for a status code other than 200. */
  function StatusCodeMessage(code: int): (msg: string)
    ensures |msg| > |StatusCodePrefix| && msg[..|StatusCodePrefix|] == StatusCodePrefix && msg[|msg| - 1] == '!'
    ensures DecimalToInt(msg[|StatusCodePrefix|..|msg| - 1]) == Some(code)
  {
    var digits := IntToDecimal(code);
    var msg := StatusCodePrefix + digits + "!";
    assert msg[|StatusCodePrefix|..|msg| - 1] == digits;
    IntRoundTrip(code);
    msg
  }

  /** Reads the status code back out of a `StatusCodeMessage`. */
  function CodeOfMessage(msg: string): Option<int>
  {
    if |msg| > |StatusCodePrefix| && msg[..|StatusCodePrefix|] == StatusCodePrefix && msg[|msg| - 1] == '!'
    then DecimalToInt(msg[|StatusCodePrefix|..|msg| - 1])
    else None
  }

  lemma StatusCodeMessageRoundTrip(code: int)
    ensures CodeOfMessage(StatusCodeMessage(code)) == Some(code)
  {
  }

  /** Classifies the answer of the endpoint; only a 200 passes its body on. */
  function GetApiAnswer(reply: Reply): (r: Outcome<Json>)
    ensures reply.TransportFailure? ==> r == Critical(EndpointUnreachable)
    ensures reply.HttpResponse? && reply.statusCode == 200 ==> r == Ok(reply.body)
    ensures reply.HttpResponse? && reply.statusCode != 200 ==>
              r.Critical? && CodeOfMessage(r.msg) == Some(reply.statusCode)
    ensures r.Ok? || r.Critical?
  {
    match reply
    case TransportFailure => Critical(EndpointUnreachable)
    case HttpResponse(code, body) =>
      if code == 200 then Ok(body)
      else StatusCodeMessageRoundTrip(code); Critical(StatusCodeMessage(code))
  }

  // ---------------------------------------------------------------------
  // check_response

  /** What both `check_response` and `parse_status` inspect: element 0 of a non-empty list, or the value itself. */
  function Unwrapped(response: Json): Json
    requires response != JList([])
  {
    if response.JList? then response.items[0] else response
  }

  /** Validates a decoded reply and extracts its non-empty list of homework records. */
  function CheckResponse(response: Json): (r: Outcome<seq<Json>>)
    ensures response == JList([]) <==> r == Uncaught(IndexError)
    ensures response != JList([]) ==>
              var resp := Unwrapped(response);
              && (resp.JObject? && HomeworksKey !in resp.fields ==> r == Critical(NoHomeworks))
              && (resp.JObject? && HomeworksKey in resp.fields && !resp.fields[HomeworksKey].JList? ==>
                    r == Critical(UnknownFormat))
              && (r.NonCritical? <==> resp.JObject? && Get(resp.fields, HomeworksKey) == JList([]))
              && (r.Ok? <==> resp.JObject? && Get(resp.fields, HomeworksKey).JList? &&
                             Get(resp.fields, HomeworksKey).items != [])
              && (r.Ok? ==> r.value != [] && Get(resp.fields, HomeworksKey) == JList(r.value))
              && (!resp.JObject? ==> r.Uncaught? || r == Critical(NoHomeworks))
    ensures r.NonCritical? ==> r.msg == NoChanges
  {
    if response.JList? && response.items == [] then Uncaught(IndexError)
    else
      var resp := if response.JList? then response.items[0] else response;
      match resp
      case JObject(fields) =>
        if HomeworksKey in fields then
          var homeworks := fields[HomeworksKey];
          if !homeworks.JList? then Critical(UnknownFormat)
          else if |homeworks.items| == 0 then NonCritical(NoChanges)
          else Ok(homeworks.items)
        else Critical(NoHomeworks)
      // `in` is a substring test on a string and a membership test on a list,
      // after which `.get` does not exist
      case JStr(s) => if IsSubstring(HomeworksKey, s) then Uncaught(AttributeError) else Critical(NoHomeworks)
      case JList(items) => if JStr(HomeworksKey) in items then Uncaught(AttributeError) else Critical(NoHomeworks)
      case _ => Uncaught(TypeError)
  }

  /** A reply object whose `homeworks` field holds `records`. */
  function ResponseWith(records: seq<Json>, others: map<string, Json>): Json
  {
    JObject(others[HomeworksKey := JList(records)])
  }

  /** Extraction gives back the records a reply was built from, however it is wrapped. */
  lemma CheckResponseRoundTrip(records: seq<Json>, others: map<string, Json>, rest: seq<Json>)
    ensures records != [] ==> CheckResponse(ResponseWith(records, others)) == Ok(records)
    ensures records != [] ==> CheckResponse(JList([ResponseWith(records, others)] + rest)) == Ok(records)
    ensures records == [] ==> CheckResponse(ResponseWith(records, others)) == NonCritical(NoChanges)
  {
  }

  /** Only the first element of a list reply is looked at. */
  lemma CheckResponseReadsFirstOnly(first: Json, rest1: seq<Json>, rest2: seq<Json>)
    ensures CheckResponse(JList([first] + rest1)) == CheckResponse(JList([first] + rest2))
  {
  }

  // ---------------------------------------------------------------------
  // parse_status

  /** The notification sent for a homework whose status changed. */
  function Notification(name: string, verdict: string): string
  {
    NotificationPrefix + name + "\". " + verdict
  }

  /** Turns a homework record into its notification; an unknown status is a lookup error. */
  function ParseStatus(homework: Json): (r: Outcome<string>)
    ensures homework == JList([]) <==> r == Uncaught(IndexError)
    ensures homework != JList([]) ==>
              var rec := Unwrapped(homework);
              && (!rec.JObject? ==> r == Uncaught(AttributeError))
              && (r.Ok? <==> rec.JObject? && Get(rec.fields, StatusKey).JStr? &&
                             Get(rec.fields, StatusKey).s in HomeworkStatuses)
              && (r.Ok? ==> r.value == Notification(Display(Get(rec.fields, NameKey)),
                                                    HomeworkStatuses[Get(rec.fields, StatusKey).s]))
              && (rec.JObject? && !r.Ok? ==> r == Uncaught(KeyError) || r == Uncaught(TypeError))
    ensures !r.NonCritical? && !r.Critical?
  {
    if homework.JList? && homework.items == [] then Uncaught(IndexError)
    else
      var rec := if homework.JList? then homework.items[0] else homework;
      match rec
      case JObject(fields) =>
        var name := Get(fields, NameKey);
        var status := Get(fields, StatusKey);
        // a list or a dict cannot be a dictionary key
        if status.JList? || status.JObject? then Uncaught(TypeError)
        else if status.JStr? && status.s in HomeworkStatuses then
          Ok(Notification(Display(name), HomeworkStatuses[status.s]))
        else Uncaught(KeyError)
      case _ => Uncaught(AttributeError)
  }

  /** A homework record with the given name and status. */
  function HomeworkRecord(name: string, status: string): Json
  {
    JObject(map[NameKey := JStr(name), StatusKey := JStr(status)])
  }

  /** The message for a known status, and the lookup error for any other string. */
  lemma ParseStatusOfRecord(name: string, status: string, rest: seq<Json>)
    ensures status in HomeworkStatuses ==>
              ParseStatus(HomeworkRecord(name, status)) == Ok(Notification(name, HomeworkStatuses[status]))
    ensures status in HomeworkStatuses ==>
              ParseStatus(JList([HomeworkRecord(name, status)] + rest)) ==
              Ok(Notification(name, HomeworkStatuses[status]))
    ensures status !in HomeworkStatuses ==> ParseStatus(HomeworkRecord(name, status)) == Uncaught(KeyError)
  {
  }

  /** A record without a status is a lookup error, not one of the bot's own exceptions. */
  lemma ParseStatusMissingStatus(fields: map<string, Json>)
    requires StatusKey !in fields
    ensures ParseStatus(JObject(fields)) == Uncaught(KeyError)
  {
  }

  /** Two different known statuses give two different notifications for the same homework. */
  lemma NotificationDeterminesStatus(name: string, s1: string, s2: string)
    requires s1 in HomeworkStatuses && s2 in HomeworkStatuses && s1 != s2
    ensures Notification(name, HomeworkStatuses[s1]) != Notification(name, HomeworkStatuses[s2])
  {
    // the three verdict texts have three different lengths
  }

  // ---------------------------------------------------------------------
  // check_tokens

  /** The three settings, each absent (None) or present. */
  datatype Settings = Settings(practicumToken: Option<string>, telegramToken: Option<string>,
                               telegramChatId: Option<string>)

  /** `os.getenv` for the three settings. */
  function SettingsFromEnv(env: map<string, string>): Settings
  {
    var get := (name: string) => if name in env then Some(env[name]) else None;
    Settings(get("PRACTICUM_TOKEN"), get("TELEGRAM_TOKEN"), get("TELEGRAM_CHAT_ID"))
  }

  function CheckTokens(settings: Settings): (ok: bool)
    ensures ok <==> settings.practicumToken.Some? && settings.telegramToken.Some? && settings.telegramChatId.Some?
  {
    !(settings.practicumToken.None? || settings.telegramToken.None? || settings.telegramChatId.None?)
  }

  /** The check passes exactly when all three variables are set in the environment. */
  lemma CheckTokensFromEnv(env: map<string, string>)
    ensures CheckTokens(SettingsFromEnv(env)) <==> {"PRACTICUM_TOKEN", "TELEGRAM_TOKEN", "TELEGRAM_CHAT_ID"} <= env.Keys
  {
  }
}
