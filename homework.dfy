/**
 * The decision logic of the homework-status bot (homework.py): the check of the
 * three secrets, the shaping of the status request and the mapping of its
 * reply, the validation of the decoded reply, the translation of a homework's
 * status into the notification text, and the candidate message of one polling
 * cycle.  The HTTP client is a parameter (a function from request to reply) and
 * the clock is a parameter (`now`, in seconds).
 */
module Homework {
  import opened Wrappers
  import opened PyValues

  // ------------------------------------------------------------ check_tokens

  /** The three secrets, read once from the environment when the module loads;
      None for a variable that is not set.  An empty string is a present value. */
  datatype Tokens = Tokens(practicum: Option<string>, telegram: Option<string>, chatId: Option<string>)

  datatype EnvVar = EnvVar(name: string, value: Option<string>)

  /** The dict `env_vars` of check_tokens, in its insertion order. */
  function EnvVars(t: Tokens): seq<EnvVar> {
    [ EnvVar("PRACTICUM_TOKEN", t.practicum),
      EnvVar("TELEGRAM_TOKEN", t.telegram),
      EnvVar("TELEGRAM_CHAT_ID", t.chatId) ]
  }

  /** The names whose value `is None`, in the order of `vars`. */
  function NoneNames(vars: seq<EnvVar>): (names: seq<string>)
    ensures |names| <= |vars|
    ensures forall i :: 0 <= i < |vars| && vars[i].value.None? ==> vars[i].name in names
    ensures forall n :: n in names ==> exists i :: 0 <= i < |vars| && vars[i] == EnvVar(n, None)
    decreases |vars|
  {
    if vars == [] then []
    else
      var rest := NoneNames(vars[1..]);
      assert forall i :: 1 <= i < |vars| ==> vars[i] == vars[1..][i - 1];
      (if vars[0].value.None? then [vars[0].name] else []) + rest
  }

  /** `none_env_vars_list`: the secrets check_tokens reports as missing. */
  function MissingNames(t: Tokens): seq<string> {
    NoneNames(EnvVars(t))
  }

  /** check_tokens: true exactly when no secret is None. */
  function CheckTokens(t: Tokens): (ok: bool)
    ensures ok <==> MissingNames(t) == []
    ensures ok <==> t.practicum.Some? && t.telegram.Some? && t.chatId.Some?
  {
    MissingNamesExactly(t);
    MissingNames(t) == []
  }

  /** The missing names are exactly the unset secrets, in the dict's order. */
  lemma MissingNamesExactly(t: Tokens)
    ensures MissingNames(t) ==
      (if t.practicum.None? then ["PRACTICUM_TOKEN"] else []) +
      (if t.telegram.None? then ["TELEGRAM_TOKEN"] else []) +
      (if t.chatId.None? then ["TELEGRAM_CHAT_ID"] else [])
  {
    var vars := EnvVars(t);
    var last := vars[1..][1..];
    assert last[1..] == [];
    assert NoneNames(last) == (if t.chatId.None? then ["TELEGRAM_CHAT_ID"] else []) + NoneNames(last[1..]);
    assert NoneNames(vars[1..]) == (if t.telegram.None? then ["TELEGRAM_TOKEN"] else []) + NoneNames(last);
  }

  // ---------------------------------------------------------- get_api_answer

  const ENDPOINT := "https://practicum.yandex.ru/api/user_api/homework_statuses/"

  /** `requests.codes.ok` */
  const STATUS_OK := 200

  /** The GET request: the endpoint, the Authorization header and the `from_date` parameter. */
  datatype Request = Request(url: string, authorization: string, fromDate: int)

  /** The body of a response, as `response.json()` sees it. */
  datatype Body = Json(value: Value) | NotJson(decodeError: string)

  /** What the HTTP client gives back for a request. */
  datatype Reply =
    | TransportFailure(cause: string)   // `requests` raised a RequestException
    | Response(statusCode: nat, body: Body)

  /** The value of HEADERS['Authorization'], built from the secret as an f-string does:
      an unset secret is rendered as "None". */
  function Authorization(token: Option<string>): (header: string)
    ensures |header| >= 6 && header[..6] == "OAuth "
    ensures token.Some? ==> header[6..] == token.value
    ensures token.None? ==> header[6..] == "None"
  {
    "OAuth " + (if token.Some? then token.value else "None")
  }

  /** `current_timestamp or int(time.time())`: a missing or zero cursor falls back to the clock. */
  function FromDate(currentTimestamp: Option<int>, now: int): (fromDate: int)
    ensures currentTimestamp.Some? && currentTimestamp.value != 0 ==> fromDate == currentTimestamp.value
    ensures currentTimestamp == None || currentTimestamp == Some(0) ==> fromDate == now
  {
    if currentTimestamp.Some? && currentTimestamp.value != 0 then currentTimestamp.value else now
  }

  function RequestFor(currentTimestamp: Option<int>, now: int, token: Option<string>): Request {
    Request(ENDPOINT, Authorization(token), FromDate(currentTimestamp, now))
  }

  const CONNECTION_PREFIX := "Проблемы соединения с сервером. Ошибка "

  /** `mistake_message`: the fixed text followed by the status code, which can be read back. */
  function ConnectionProblem(statusCode: nat): (text: string)
    ensures |text| > |CONNECTION_PREFIX| && text[..|CONNECTION_PREFIX|] == CONNECTION_PREFIX
    ensures AllDigits(text[|CONNECTION_PREFIX|..]) && ParseDecimal(text[|CONNECTION_PREFIX|..]) == statusCode
  {
    var text := CONNECTION_PREFIX + DecimalText(statusCode);
    assert text[|CONNECTION_PREFIX|..] == DecimalText(statusCode);
    DecimalRoundTrip(statusCode);
    text
  }

  /** What get_api_answer makes of the reply: the decoded body on status 200, an error otherwise. */
  function Answer(reply: Reply): (r: Result<Value, Error>)
    ensures r.Ok? <==> reply.Response? && reply.statusCode == STATUS_OK && reply.body.Json?
    ensures r.Ok? ==> r.value == reply.body.value
    ensures reply.TransportFailure? ==> r == Err(RequestException(reply.cause))
    ensures reply.Response? && reply.statusCode != STATUS_OK ==>
              r == Err(TypeError(ConnectionProblem(reply.statusCode)))
    ensures reply.Response? && reply.statusCode == STATUS_OK && reply.body.NotJson? ==>
              r == Err(JSONDecodeError(reply.body.decodeError))
  {
    match reply
    case TransportFailure(cause) => Err(RequestException(cause))
    case Response(code, body) =>
      if code == STATUS_OK then
        match body
        case Json(v) => Ok(v)
        case NotJson(e) => Err(JSONDecodeError(e))
      else Err(TypeError(ConnectionProblem(code)))
  }

  /** get_api_answer, with the HTTP client `http` and the clock reading `now` as inputs:
      the answer is the mapping of the reply to the one request it sends. */
  function GetApiAnswer(currentTimestamp: Option<int>, now: int, token: Option<string>,
                        http: Request -> Reply): (r: Result<Value, Error>)
    ensures var reply := http(Request(ENDPOINT, Authorization(token), FromDate(currentTimestamp, now)));
            (r.Ok? <==> reply.Response? && reply.statusCode == STATUS_OK && reply.body.Json?) &&
            (r.Ok? ==> r.value == reply.body.value) &&
            (reply.Response? && reply.statusCode != STATUS_OK ==>
               r == Err(TypeError(ConnectionProblem(reply.statusCode))))
    ensures currentTimestamp.Some? && currentTimestamp.value != 0 ==>
              r == Answer(http(Request(ENDPOINT, Authorization(token), currentTimestamp.value)))
  {
    Answer(http(RequestFor(currentTimestamp, now, token)))
  }

  /** Different failing status codes give different error texts, so each one is notified. */
  lemma ConnectionProblemInjective(c1: nat, c2: nat)
    requires ConnectionProblem(c1) == ConnectionProblem(c2)
    ensures c1 == c2
  {
    var text := ConnectionProblem(c1);
    assert ParseDecimal(text[|CONNECTION_PREFIX|..]) == c1 == c2;
  }

  // ---------------------------------------------------------- check_response

  const NO_HOMEWORK := "Домашняя работа не найдена"

  /** check_response: the `homeworks` entry of a dict whose `homeworks` has an element 0. */
  function CheckResponse(response: Value): (r: Result<Value, Error>)
    ensures r.Ok? <==> response.Dict? && Lookup(response.entries, "homeworks").Some? &&
                       Item0(Lookup(response.entries, "homeworks").value).Ok?
    ensures r.Ok? ==> r.value == Lookup(response.entries, "homeworks").value
    ensures !response.Dict? ==> r == Err(TypeError("api-ответ is not dict " + Text(response)))
    ensures response.Dict? && Lookup(response.entries, "homeworks").None? ==>
              r == Err(KeyError(Str("dict KeyError")))
    ensures response.Dict? && Lookup(response.entries, "homeworks") == Some(List([])) ==>
              r == Err(IndexError(NO_HOMEWORK))
  {
    if !response.Dict? then Err(TypeError("api-ответ is not dict " + Text(response)))
    else
      match Lookup(response.entries, "homeworks")
      case None => Err(KeyError(Str("dict KeyError")))
      case Some(homeworks) =>
        match Item0(homeworks)
        case Ok(_) => Ok(homeworks)
        case Err(IndexError(_)) => Err(IndexError(NO_HOMEWORK))
        case Err(e) => Err(e)
  }

  // ------------------------------------------------------------ parse_status

  const HOMEWORK_STATUSES: map<string, string> := map[
    "approved" := "Работа проверена: ревьюеру всё понравилось. Ура!",
    "reviewing" := "Работа взята на проверку ревьюером.",
    "rejected" := "Работа проверена: у ревьюера есть замечания."
  ]

  const NOTICE_PREFIX := "Изменился статус проверки работы \""

  /** The notification template: the name and the verdict can be read back from it. */
  function StatusChanged(name: string, verdict: string): (notice: string)
    ensures |notice| == |NOTICE_PREFIX| + |name| + 3 + |verdict|
    ensures notice[..|NOTICE_PREFIX|] == NOTICE_PREFIX
    ensures notice[|NOTICE_PREFIX|..|NOTICE_PREFIX| + |name|] == name
    ensures notice[|NOTICE_PREFIX| + |name|..|NOTICE_PREFIX| + |name| + 3] == "\". "
    ensures notice[|notice| - |verdict|..] == verdict
  {
    NOTICE_PREFIX + name + "\". " + verdict
  }

  /** `HOMEWORK_STATUSES[status]` */
  function Verdict(status: Value): (r: Result<string, Error>)
    ensures r.Ok? <==> status.Str? && status.s in HOMEWORK_STATUSES
    ensures r.Ok? ==> r.value == HOMEWORK_STATUSES[status.s]
    ensures Hashable(status) && r.Err? ==> r.error == KeyError(status)
  {
    if !Hashable(status) then Err(TypeError("unhashable type: '" + TypeName(status) + "'"))
    else if status.Str? && status.s in HOMEWORK_STATUSES then Ok(HOMEWORK_STATUSES[status.s])
    else Err(KeyError(status))
  }

  /** A record whose name and status can be read, with a status the table knows. */
  predicate KnownRecord(homework: Value) {
    var status := Field(homework, "status");
    Field(homework, "homework_name").Ok? && status.Ok? &&
    status.value.Str? && status.value.s in HOMEWORK_STATUSES
  }

  /** parse_status.  The table lookup comes before the membership test, so the branch
      that would raise the custom Exception is never taken. */
  function ParseStatus(homework: Value): (r: Result<string, Error>)
    ensures r.Ok? <==> KnownRecord(homework)
    ensures r.Ok? ==> r.value == StatusChanged(Text(Field(homework, "homework_name").value),
                                               HOMEWORK_STATUSES[Field(homework, "status").value.s])
    ensures r.Err? ==> !r.error.Exception?
    ensures Field(homework, "homework_name").Ok? && Field(homework, "status").Ok? &&
            Hashable(Field(homework, "status").value) && r.Err? ==>
              r.error == KeyError(Field(homework, "status").value)
    ensures Field(homework, "homework_name").Ok? && Field(homework, "status").Ok? &&
            !Hashable(Field(homework, "status").value) ==>
              r == Err(TypeError("unhashable type: '" + TypeName(Field(homework, "status").value) + "'"))
  {
    var name :- Field(homework, "homework_name");
    var status :- Field(homework, "status");
    var verdict :- Verdict(status);
    if status.Str? && status.s in HOMEWORK_STATUSES then
      Ok(StatusChanged(Text(name), verdict))
    else
      Err(Exception("Не могу получить статус домашней работы: '" + Text(name) + "'."))
  }

  /** For one homework name, the three statuses give three different notifications. */
  lemma NotificationDeterminesStatus(name: string, s1: string, s2: string)
    requires s1 in HOMEWORK_STATUSES && s2 in HOMEWORK_STATUSES
    requires StatusChanged(name, HOMEWORK_STATUSES[s1]) == StatusChanged(name, HOMEWORK_STATUSES[s2])
    ensures s1 == s2
  {
    var n := |NOTICE_PREFIX + name + "\". "|;
    assert StatusChanged(name, HOMEWORK_STATUSES[s1])[n..] == HOMEWORK_STATUSES[s1];
    assert StatusChanged(name, HOMEWORK_STATUSES[s2])[n..] == HOMEWORK_STATUSES[s2];
  }

  // ------------------------------------------------------ one cycle of main

  /** The body of the `try` in main's loop: fetch, validate, take the newest record, translate.
      A success is always a status notification; a failure of the fetch is passed on as it
      was raised; the custom Exception of parse_status never comes out of it. */
  function PollOnce(currentTimestamp: Option<int>, now: int, token: Option<string>,
                    http: Request -> Reply): (r: Result<string, Error>)
    ensures r.Ok? ==> |r.value| >= |NOTICE_PREFIX| && r.value[..|NOTICE_PREFIX|] == NOTICE_PREFIX
    ensures r.Ok? ==> exists name: string, s: string :: s in HOMEWORK_STATUSES &&
                        r.value == StatusChanged(name, HOMEWORK_STATUSES[s])
    ensures GetApiAnswer(currentTimestamp, now, token, http).Err? ==>
              r == Err(GetApiAnswer(currentTimestamp, now, token, http).error)
    ensures GetApiAnswer(currentTimestamp, now, token, http).Ok? &&
            CheckResponse(GetApiAnswer(currentTimestamp, now, token, http).value).Err? ==>
              r == Err(CheckResponse(GetApiAnswer(currentTimestamp, now, token, http).value).error)
    ensures r.Err? ==> !r.error.Exception?
  {
    var answer :- GetApiAnswer(currentTimestamp, now, token, http);
    var homeworks :- CheckResponse(answer);
    // check_response has already raised for a list without an element 0
    var newest := Item0(homeworks).value;
    var r := ParseStatus(newest);
    assert r.Ok? ==> r.value == StatusChanged(Text(Field(newest, "homework_name").value),
                                              HOMEWORK_STATUSES[Field(newest, "status").value.s]);
    r
  }

  /** The cycle's one candidate message: the notification, or the text of what was raised. */
  function CandidateMessage(currentTimestamp: Option<int>, now: int, token: Option<string>,
                            http: Request -> Reply): (m: string)
    ensures var r := PollOnce(currentTimestamp, now, token, http);
            (r.Ok? ==> m == r.value && m[..|NOTICE_PREFIX|] == NOTICE_PREFIX) &&
            (r.Ok? ==> exists name: string, s: string :: s in HOMEWORK_STATUSES &&
                         m == StatusChanged(name, HOMEWORK_STATUSES[s])) &&
            (r.Err? ==> m == Message(r.error))
  {
    match PollOnce(currentTimestamp, now, token, http)
    case Ok(notice) => notice
    case Err(e) => Message(e)
  }

  /** A reply that is not status 200 becomes the connection-problem text naming the code. */
  lemma CandidateOnBadStatus(cursor: Option<int>, now: int, token: Option<string>,
                             http: Request -> Reply)
    requires http(RequestFor(cursor, now, token)).Response?
    requires http(RequestFor(cursor, now, token)).statusCode != STATUS_OK
    ensures CandidateMessage(cursor, now, token, http) ==
              ConnectionProblem(http(RequestFor(cursor, now, token)).statusCode)
  {
  }

  /** A reply whose newest record has a known status becomes that record's notification. */
  lemma CandidateOnKnownStatus(cursor: Option<int>, now: int, token: Option<string>,
                               http: Request -> Reply, entries: seq<Entry>, newest: Value,
                               older: seq<Value>)
    requires http(RequestFor(cursor, now, token)) == Response(STATUS_OK, Json(Dict(entries)))
    requires Lookup(entries, "homeworks") == Some(List([newest] + older))
    requires KnownRecord(newest)
    ensures CandidateMessage(cursor, now, token, http) ==
              StatusChanged(Text(Field(newest, "homework_name").value),
                            HOMEWORK_STATUSES[Field(newest, "status").value.s])
  {
    assert CheckResponse(Dict(entries)) == Ok(List([newest] + older));
  }

  /** A newest record whose status is hashable and outside the table becomes the KeyError's
      text, the repr() of the status, and never the custom message of parse_status. */
  lemma CandidateOnUnknownStatus(cursor: Option<int>, now: int, token: Option<string>,
                                 http: Request -> Reply, entries: seq<Entry>, newest: Value,
                                 older: seq<Value>, status: Value)
    requires http(RequestFor(cursor, now, token)) == Response(STATUS_OK, Json(Dict(entries)))
    requires Lookup(entries, "homeworks") == Some(List([newest] + older))
    requires Field(newest, "homework_name").Ok? && Field(newest, "status") == Ok(status)
    requires Hashable(status) && !(status.Str? && status.s in HOMEWORK_STATUSES)
    ensures CandidateMessage(cursor, now, token, http) == Repr(status)
  {
    assert CheckResponse(Dict(entries)) == Ok(List([newest] + older));
  }

  /** A plain string status outside the table is notified as itself between single quotes. */
  lemma CandidateOnUnknownPlainStatus(cursor: Option<int>, now: int, token: Option<string>,
                                      http: Request -> Reply, entries: seq<Entry>, newest: Value,
                                      older: seq<Value>, status: string)
    requires http(RequestFor(cursor, now, token)) == Response(STATUS_OK, Json(Dict(entries)))
    requires Lookup(entries, "homeworks") == Some(List([newest] + older))
    requires Field(newest, "homework_name").Ok? && Field(newest, "status") == Ok(Str(status))
    requires status !in HOMEWORK_STATUSES && Plain(status)
    ensures CandidateMessage(cursor, now, token, http) == "'" + status + "'"
  {
    CandidateOnUnknownStatus(cursor, now, token, http, entries, newest, older, Str(status));
    PlainStrRepr(status);
  }

  /** An empty `homeworks` list becomes the "no homework found" text. */
  lemma CandidateOnEmptyList(cursor: Option<int>, now: int, token: Option<string>,
                             http: Request -> Reply, entries: seq<Entry>)
    requires http(RequestFor(cursor, now, token)) == Response(STATUS_OK, Json(Dict(entries)))
    requires Lookup(entries, "homeworks") == Some(List([]))
    ensures CandidateMessage(cursor, now, token, http) == NO_HOMEWORK
  {
  }

  /** The reply `{"homeworks": [{"homework_name": "HW1", "status": "reviewing"}]}`. */
  lemma ReviewingScenario(cursor: Option<int>, now: int, token: Option<string>,
                          http: Request -> Reply)
    requires http(RequestFor(cursor, now, token)) ==
               Response(STATUS_OK, Json(Dict([Entry("homeworks", List([Dict([
                 Entry("homework_name", Str("HW1")), Entry("status", Str("reviewing"))])]))])))
    ensures CandidateMessage(cursor, now, token, http) ==
              "Изменился статус проверки работы \"" + "HW1" + "\". " + "Работа взята на проверку ревьюером."
  {
    var record := Dict([Entry("homework_name", Str("HW1")), Entry("status", Str("reviewing"))]);
    var entries := [Entry("homeworks", List([record]))];
    assert [record] + [] == [record];
    assert entries[0].key == "homeworks";
    assert Lookup(entries, "homeworks") == Some(List([record]));
    assert Field(record, "homework_name") == Ok(Str("HW1"));
    assert Field(record, "status") == Ok(Str("reviewing"));
    CandidateOnKnownStatus(cursor, now, token, http, entries, record, []);
  }
}
