/** What homework.py and tg_bot/homework.py share word for word: the homework
    API's endpoint, the verdict table `HOMEWORK_STATUSES`, the sentence a
    status turns into, the fixed texts, and `get_api_answer`. */
module Practicum {
  import opened Wrappers
  import opened PyValues
  import opened Exceptions
  import opened Collaborators

  const Endpoint: string := "https://practicum.yandex.ru/api/user_api/homework_statuses/"

  // ------------------------------------------------------- HOMEWORK_STATUSES

  predicate KnownStatus(code: string) {
    code == "approved" || code == "reviewing" || code == "rejected"
  }

  /** `HOMEWORK_STATUSES[code]` for a code in the table. */
  function Verdict(code: string): string
    requires KnownStatus(code)
  {
    if code == "approved" then "Работа проверена: ревьюеру всё понравилось. Ура!"
    else if code == "reviewing" then "Работа взята на проверку ревьюером."
    else "Работа проверена: у ревьюера есть замечания."
  }

  /** The three verdicts are pairwise different. */
  lemma VerdictsDistinct(c1: string, c2: string)
    requires KnownStatus(c1) && KnownStatus(c2) && c1 != c2
    ensures Verdict(c1) != Verdict(c2)
  {
    assert |Verdict(c1)| != |Verdict(c2)|;
  }

  /** `HOMEWORK_STATUSES[status]` for any decoded value: the verdict for a
      known code, `TypeError` for a list or dict (they cannot be hashed),
      `KeyError(status)` for anything else. */
  function VerdictLookup(status: Json): (r: Result<string, PyError>)
    ensures r.Success? <==> status.JString? && KnownStatus(status.s)
    ensures r.Success? ==> r.value == Verdict(status.s)
    ensures status.JArray? || status.JObject? ==>
      r == Failure(TypeError("unhashable type: '" + TypeName(status) + "'"))
    ensures r.Failure? && !status.JArray? && !status.JObject? ==> r == Failure(KeyError(status))
  {
    if status.JArray? || status.JObject? then Failure(TypeError("unhashable type: '" + TypeName(status) + "'"))
    else if status.JString? && KnownStatus(status.s) then Success(Verdict(status.s))
    else Failure(KeyError(status))
  }

  // ------------------------------------------------------------------ texts

  const SentencePrefix: string := "Изменился статус проверки работы \""

  /** f'Изменился статус проверки работы "{homework_name}". {verdict}' */
  function StatusSentence(name: Json, verdict: string): string {
    SentencePrefix + StrOf(name) + "\". " + verdict
  }

  /** The sentence carries the homework's name right after its fixed opening. */
  lemma SentenceNamesHomework(name: Json, verdict: string)
    ensures var s := StatusSentence(name, verdict);
      |s| > |SentencePrefix| + |StrOf(name)|
      && s[..|SentencePrefix|] == SentencePrefix
      && s[|SentencePrefix|..|SentencePrefix| + |StrOf(name)|] == StrOf(name)
  {
    SplitThree(SentencePrefix, StrOf(name), "\". " + verdict);
  }

  lemma SplitThree<T>(a: seq<T>, b: seq<T>, c: seq<T>)
    ensures (a + b + c)[..|a|] == a && (a + b + c)[|a|..|a| + |b|] == b
  {
    assert a + b + c == a + (b + c);
  }

  /** For one homework, the sentence determines the verdict, so different
      statuses of one homework never give the same notification. */
  lemma SentenceDeterminesVerdict(name: Json, v1: string, v2: string)
    requires StatusSentence(name, v1) == StatusSentence(name, v2)
    ensures v1 == v2
  {
    var head := SentencePrefix + StrOf(name) + "\". ";
    assert StatusSentence(name, v1) == head + v1 && StatusSentence(name, v2) == head + v2;
    assert v1 == (head + v1)[|head|..];
    assert v2 == (head + v2)[|head|..];
  }

  /** The text sent when the API lists no homework. */
  const NoHomeworksText: string := "За последнее время нет домашних заданий"

  /** The empty-list text is never a status sentence. */
  lemma NoHomeworksTextIsNotASentence(name: Json, verdict: string)
    ensures StatusSentence(name, verdict) != NoHomeworksText
  {
    assert StatusSentence(name, verdict)[0] == 'И' != NoHomeworksText[0];
  }

  const RequestErrorPrefix: string := "Ошибка при запросе к основному API: "

  const SendErrorPrefix: string := "Ошибка при отправке сообщения: "

  // ---------------------------------------------------------- get_api_answer

  /** `current_timestamp or int(time.time())`: a falsy checkpoint (None, 0, ...)
      is replaced by the current time. */
  function FromDate(checkpoint: Json, now: int): (d: Json)
    ensures Truthy(checkpoint) ==> d == checkpoint
    ensures !Truthy(checkpoint) ==> d == JInt(now)
  {
    if Truthy(checkpoint) then checkpoint else JInt(now)
  }

  /** The message of the `AnswerStatusIsNot200Error` raised for a status code
      other than 200. */
  function NotOkMessage(code: int): string {
    NotOkOpening + Decimal(code)
  }

  const NotOkOpening: string := "\"" + Endpoint + " не отвечает. Статус ответа: "

  /** `RequestReceivingError(f'Ошибка при запросе к основному API: {error}')` */
  function RequestFailure(inner: PyError): PyError {
    Raise(RequestReceivingError, [JString(RequestErrorPrefix + ErrorText(inner))])
  }

  /** `get_api_answer(current_timestamp)`. `api` is the homework API: it maps
      the `from_date` sent to the reply received. */
  function GetApiAnswer(checkpoint: Json, now: int, api: Json -> HttpReply): (r: Result<Json, PyError>)
    ensures var reply := api(FromDate(checkpoint, now));
      && (r.Success? <==> reply.Answered? && reply.statusCode == 200 && reply.body.Success?)
      && (r.Success? ==> r.value == reply.body.value)
      && (reply.Unreachable? ==> r == Failure(RequestFailure(Foreign(reply.reason))))
      && (reply.Answered? && reply.statusCode != 200 ==>
            r == Failure(RequestFailure(Raise(AnswerStatusIsNot200Error, [JString(NotOkMessage(reply.statusCode))]))))
      && (reply.Answered? && reply.statusCode == 200 && reply.body.Failure? ==>
            r == Failure(RequestFailure(Foreign(reply.body.error))))
  {
    match api(FromDate(checkpoint, now))
    case Unreachable(reason) => Failure(RequestFailure(Foreign(reason)))
    case Answered(code, body) =>
      if code != 200 then
        Failure(RequestFailure(Raise(AnswerStatusIsNot200Error, [JString(NotOkMessage(code))])))
      else
        match body
        case Success(json) => Success(json)
        case Failure(reason) => Failure(RequestFailure(Foreign(reason)))
  }

  /** `str` of the error a non-200 reply surfaces as: the request-error
      prefix, the message naming the endpoint and the code, and the trailing
      space of `AnswerStatusIsNot200Error`. */
  function NotOkText(code: int): string {
    RequestErrorPrefix + NotOkMessage(code) + " "
  }

  lemma NotOkTextIsErrorText(checkpoint: Json, now: int, api: Json -> HttpReply)
    requires api(FromDate(checkpoint, now)).Answered?
    requires api(FromDate(checkpoint, now)).statusCode != 200
    ensures GetApiAnswer(checkpoint, now, api).Failure?
    ensures ErrorText(GetApiAnswer(checkpoint, now, api).error)
      == NotOkText(api(FromDate(checkpoint, now)).statusCode)
  {
    var m := NotOkMessage(api(FromDate(checkpoint, now)).statusCode);
    assert RequestErrorPrefix + (m + " ") == RequestErrorPrefix + m + " ";
  }

  lemma CancelAround(head: string, a: string, b: string, tail: string)
    requires head + a + tail == head + b + tail
    ensures a == b
  {
    assert a == (head + a + tail)[|head|..|head| + |a|];
    assert b == (head + b + tail)[|head|..|head| + |b|];
  }

  /** Two non-200 replies give the same error text exactly when their codes
      are equal: a repeated 503 is suppressed, a 503 after a 502 is not. */
  lemma NotOkTextsDistinguishCodes(c1: int, c2: int)
    requires NotOkText(c1) == NotOkText(c2)
    ensures c1 == c2
  {
    CancelAround(RequestErrorPrefix, NotOkMessage(c1), NotOkMessage(c2), " ");
    CancelAround(NotOkOpening, Decimal(c1), Decimal(c2), []);
    DecimalInjective(c1, c2);
  }

  // ----------------------------------------------------------- well-formed

  /** A payload both copies of `check_response` accept: a dict with
      `homeworks` (a list) and `current_date`. */
  predicate WellFormedPayload(p: Json) {
    Has(p, "homeworks") && Has(p, "current_date") && Get(p, "homeworks").JArray?
  }

  /** A homework record both copies of `parse_status` accept: a dict with
      `homework_name` and a `status` that is a code of the table. */
  predicate WellFormedHomework(h: Json) {
    Has(h, "homework_name") && Has(h, "status")
    && Get(h, "status").JString? && KnownStatus(Get(h, "status").s)
  }

  /** The text both loops send for a valid list of records: the sentence for
      the newest record, or the empty-list text. */
  function MessageFor(items: seq<Json>): string
    requires items == [] || WellFormedHomework(items[0])
  {
    if items == [] then NoHomeworksText
    else StatusSentence(Get(items[0], "homework_name"), Verdict(Get(items[0], "status").s))
  }
}
