/** homework.py: the single-chat poller. Each round fetches the statuses since
    the checkpoint, moves the checkpoint, validates and formats the newest
    record, and notifies the chat unless the text repeats the last status
    sent; any failure is reported unless its text repeats the last error
    sent. Statuses and errors have a slot each. */
module Homework {
  import opened Wrappers
  import opened PyValues
  import opened Exceptions
  import opened Collaborators
  import opened Practicum
  import opened Loop

  const HomeworksKeyPrefix: string := "Ошибка доступа по ключу homeworks: "
  const CurrentDateKeyPrefix: string := "Ошибка доступа по ключу current_date: "
  const NameKeyPrefix: string := "Ошибка доступа по ключу homework_name: "
  const StatusKeyPrefix: string := "Ошибка доступа по ключу status: "
  const UnknownStatusPrefix: string := "Получен неизвестный статус проверки домашней работы."
  const NotAListText: string := "В ответе API домашние задания представлены не списком"

  // ---------------------------------------------------------- check_response

  /** `check_response(response)`: the `homeworks` list of a payload that has
      both keys, checked in the order `homeworks`, `current_date`, list. */
  function CheckResponse(response: Json): (r: Result<seq<Json>, PyError>)
    ensures r.Success? <==> WellFormedPayload(response)
    ensures r.Success? ==> r.value == Get(response, "homeworks").items
    ensures response.JObject? && !Has(response, "homeworks") ==>
      r == Failure(MissingKey(HomeworksKeyPrefix, "homeworks"))
    ensures Has(response, "homeworks") && !Has(response, "current_date") ==>
      r == Failure(MissingKey(CurrentDateKeyPrefix, "current_date"))
    ensures Has(response, "homeworks") && Has(response, "current_date") && !Get(response, "homeworks").JArray? ==>
      r == Failure(Raise(IncorrectDataTypeError, [JString(NotAListText)]))
    ensures !response.JObject? ==> r == Failure(Subscript(response, "homeworks").error)
    // the `homeworks is None` test comes after the list test and never fires
    ensures r.Failure? ==> !r.error.Exception?
  {
    var homeworks := Subscript(response, "homeworks");
    if homeworks.Failure? then Failure(RewrapKeyError(homeworks.error, HomeworksKeyPrefix))
    else
      var date := Subscript(response, "current_date");
      if date.Failure? then Failure(RewrapKeyError(date.error, CurrentDateKeyPrefix))
      else if !homeworks.value.JArray? then Failure(Raise(IncorrectDataTypeError, [JString(NotAListText)]))
      else if homeworks.value.JNull? then Failure(Exception("В ответе API нет словаря"))
      else Success(homeworks.value.items)
  }

  // ------------------------------------------------------------ parse_status

  /** `parse_status(homework)`: the status sentence for a record with a name
      and a known status; `KeyError` for a missing name, then a missing
      status, then a status outside the table. */
  function ParseStatus(homework: Json): (r: Result<string, PyError>)
    ensures r.Success? <==> WellFormedHomework(homework)
    ensures r.Success? ==>
      r.value == StatusSentence(Get(homework, "homework_name"), Verdict(Get(homework, "status").s))
    ensures homework.JObject? && !Has(homework, "homework_name") ==>
      r == Failure(MissingKey(NameKeyPrefix, "homework_name"))
    ensures Has(homework, "homework_name") && !Has(homework, "status") ==>
      r == Failure(MissingKey(StatusKeyPrefix, "status"))
    ensures Has(homework, "homework_name") && Has(homework, "status") && r.Failure? ==>
      r == Failure(RewrapKeyError(VerdictLookup(Get(homework, "status")).error, UnknownStatusPrefix))
    ensures !homework.JObject? ==> r == Failure(Subscript(homework, "homework_name").error)
  {
    var name := Subscript(homework, "homework_name");
    if name.Failure? then Failure(RewrapKeyError(name.error, NameKeyPrefix))
    else
      var status := Subscript(homework, "status");
      if status.Failure? then Failure(RewrapKeyError(status.error, StatusKeyPrefix))
      else
        var verdict := VerdictLookup(status.value);
        if verdict.Failure? then Failure(RewrapKeyError(verdict.error, UnknownStatusPrefix))
        else Success(StatusSentence(name.value, verdict.value))
  }

  /** An unknown status code is reported as a `KeyError` whose text quotes
      the code after the fixed prefix; no sentence is produced. */
  lemma UnknownStatusReported(homework: Json)
    requires Has(homework, "homework_name") && Has(homework, "status")
    requires Get(homework, "status").JString? && !KnownStatus(Get(homework, "status").s)
    ensures ParseStatus(homework) ==
      Failure(KeyError(JString(UnknownStatusPrefix + QuoteString(Get(homework, "status").s))))
  {
  }

  // ------------------------------------------------------------- check_tokens

  /** `check_tokens()`: whether none of the three settings is missing. */
  method CheckTokens(cfg: Config) returns (check: bool)
    ensures check <==> Complete(cfg)
  {
    var keys := [cfg.telegramToken, cfg.chat, cfg.practicumToken];
    check := true;
    for i := 0 to |keys|
      invariant check <==> forall k :: 0 <= k < i ==> keys[k].Some?
    {
      if keys[i].None? {
        check := false;
      }
    }
    assert keys[0] == cfg.telegramToken && keys[1] == cfg.chat && keys[2] == cfg.practicumToken;
  }

  // ------------------------------------------------------------- send_message

  /** `send_message(bot, message)`: one call to the configured chat; a
      Telegram failure comes back as `Exception('Ошибка при отправке
      сообщения: …')`. */
  function SendMessage(reply: Reply): (r: Option<PyError>)
    ensures r.None? <==> reply.Delivered?
    ensures reply.Refused? ==> r == Some(Exception(SendErrorPrefix + reply.reason))
    ensures reply.Refused? ==> ErrorText(r.value) == SendErrorPrefix + reply.reason
  {
    match reply
    case Delivered => None
    case Refused(reason) => Some(Exception(SendErrorPrefix + reason))
  }

  // ---------------------------------------------------------- the main loop

  /** The variables `main` keeps across rounds. */
  datatype State = State(currentTimestamp: Json, previousStatus: Option<string>, previousError: Option<string>)

  /** What the world does in one round: the time `time.time()` reads, the
      homework API, and the replies to the round's successive
      `bot.send_message` calls. */
  datatype Round = Round(now: int, api: Json -> HttpReply, answer: nat -> Reply)

  /** How the part of the `try` block before the notification ends: with the
      message to send or with an exception, and in both cases with the
      checkpoint it left behind. */
  datatype Attempt =
    | Formatted(checkpoint: Json, message: string)
    | Raised(checkpoint: Json, error: PyError)

  /** Fetch, move the checkpoint, validate, format. The checkpoint becomes
      `response['current_date']` before validation, so it moves whenever the
      payload has that key, whatever happens next. A dict without the key
      fails at that assignment, before `check_response` runs. */
  function Poll(checkpoint: Json, now: int, api: Json -> HttpReply): (a: Attempt)
    ensures var fetched := GetApiAnswer(checkpoint, now, api);
      && a.checkpoint ==
           (if fetched.Success? && Has(fetched.value, "current_date")
            then Get(fetched.value, "current_date") else checkpoint)
      && (a.Formatted? <==>
            fetched.Success? && WellFormedPayload(fetched.value)
            && (Get(fetched.value, "homeworks").items == []
                || WellFormedHomework(Get(fetched.value, "homeworks").items[0])))
      && (a.Formatted? ==> a.message == MessageFor(Get(fetched.value, "homeworks").items))
      && (fetched.Failure? ==> a == Raised(checkpoint, fetched.error))
      && (fetched.Success? && fetched.value.JObject? && !Has(fetched.value, "current_date") ==>
            a == Raised(checkpoint, KeyError(JString("current_date"))))
      && (fetched.Success? && !fetched.value.JObject? ==>
            a == Raised(checkpoint, Subscript(fetched.value, "current_date").error))
      && (fetched.Success? && Has(fetched.value, "current_date") && CheckResponse(fetched.value).Failure? ==>
            a == Raised(Get(fetched.value, "current_date"), CheckResponse(fetched.value).error))
      && (fetched.Success? && WellFormedPayload(fetched.value) && Get(fetched.value, "homeworks").items != []
          && !WellFormedHomework(Get(fetched.value, "homeworks").items[0]) ==>
            a == Raised(Get(fetched.value, "current_date"),
                        ParseStatus(Get(fetched.value, "homeworks").items[0]).error))
  {
    match GetApiAnswer(checkpoint, now, api)
    case Failure(e) => Raised(checkpoint, e)
    case Success(response) =>
      match Subscript(response, "current_date")
      case Failure(e) => Raised(checkpoint, e)
      case Success(date) =>
        match CheckResponse(response)
        case Failure(e) => Raised(date, e)
        case Success(result) =>
          if |result| != 0 then
            match ParseStatus(result[0])
            case Failure(e) => Raised(date, e)
            case Success(m) => Formatted(date, m)
          else Formatted(date, NoHomeworksText)
  }

  /** The `except Exception as error:` branch: the error text is sent only
      if it differs from `previous_error`, which is set before sending. A
      failure of that send is not caught: it escapes `main`. */
  function Report(chat: string, s: State, e: PyError, reply: Reply, sent: seq<Notification>): Outcome<State> {
    var text := ErrorText(e);
    if Some(text) == s.previousError then Outcome(sent, s, None)
    else
      Outcome(sent + [Notification(ErrorReport, text, [Delivery(chat, reply)])],
              s.(previousError := Some(text)), SendMessage(reply))
  }

  /** The rest of the `while True` body once the `try` block has fetched and
      formatted (or failed): a status text is sent only if it differs from
      `previous_status`, which is set before sending, so a failed send is not
      retried while the text stays the same. `answer(k)` replies to the k-th
      `bot.send_message` call of the round. */
  function Handle(chat: string, s: State, a: Attempt, answer: nat -> Reply): Outcome<State> {
    match a
    case Raised(cp, e) => Report(chat, s.(currentTimestamp := cp), e, answer(0), [])
    case Formatted(cp, m) =>
      if Some(m) == s.previousStatus then Outcome([], s.(currentTimestamp := cp), None)
      else
        var s' := s.(currentTimestamp := cp, previousStatus := Some(m));
        var sent := [Notification(StatusReport, m, [Delivery(chat, answer(0))])];
        match SendMessage(answer(0))
        case None => Outcome(sent, s', None)
        case Some(e) => Report(chat, s', e, answer(1), sent)
  }

  /** One pass of `main`'s `while True` body. */
  function Step(chat: string, s: State, r: Round): Outcome<State> {
    Handle(chat, s, Poll(s.currentTimestamp, r.now, r.api), r.answer)
  }

  /** The step `main` repeats, for the configured chat setting. */
  function StepIn(chat: string): (State, Round) -> Outcome<State> {
    (s: State, r: Round) => Step(chat, s, r)
  }

  /** One pass of the `while True` body, statement by statement: the `try`
      block up to the formatted message, then the notification and the
      `except` branch. */
  method Iterate(chat: string, before: State, round: Round) returns (sent: seq<Notification>, after: State, crash: Option<PyError>)
    ensures Outcome(sent, after, crash) == Step(chat, before, round)
    ensures Outcome(sent, after, crash) == StepIn(chat)(before, round)
  {
    var attempt := Fetch(before.currentTimestamp, round.now, round.api);
    sent, after, crash := Finish(chat, before, attempt, round.answer);
  }

  /** The `try` block from the request to the formatted message. */
  method Fetch(checkpoint: Json, now: int, api: Json -> HttpReply) returns (a: Attempt)
    ensures a == Poll(checkpoint, now, api)
  {
    var response := GetApiAnswer(checkpoint, now, api);
    if response.Failure? {
      return Raised(checkpoint, response.error);
    }
    var date := Subscript(response.value, "current_date");
    if date.Failure? {
      return Raised(checkpoint, date.error);
    }
    var result := CheckResponse(response.value);
    if result.Failure? {
      return Raised(date.value, result.error);
    }
    var message := NoHomeworksText;
    if |result.value| != 0 {
      var parsed := ParseStatus(result.value[0]);
      if parsed.Failure? {
        return Raised(date.value, parsed.error);
      }
      message := parsed.value;
    }
    a := Formatted(date.value, message);
  }

  /** The rest of the `try` block (status slot, send) and the `except`
      branch. */
  method Finish(chat: string, before: State, a: Attempt, answer: nat -> Reply)
    returns (sent: seq<Notification>, after: State, crash: Option<PyError>)
    ensures Outcome(sent, after, crash) == Handle(chat, before, a, answer)
  {
    var previousStatus := before.previousStatus;
    var previousError := before.previousError;
    var raised: Option<PyError> := None;
    var calls := 0;
    sent := [];
    crash := None;
    if a.Raised? {
      raised := Some(a.error);
    } else if Some(a.message) != previousStatus {
      previousStatus := Some(a.message);
      var reply := answer(0);
      sent := [Notification(StatusReport, a.message, [Delivery(chat, reply)])];
      calls := 1;
      raised := SendMessage(reply);
    }
    // except Exception as error:
    if raised.Some? {
      var text := ErrorText(raised.value);
      if Some(text) != previousError {
        previousError := Some(text);
        var reply := answer(calls);
        sent := sent + [Notification(ErrorReport, text, [Delivery(chat, reply)])];
        crash := SendMessage(reply);
      }
    }
    after := State(a.checkpoint, previousStatus, previousError);
  }

  /** How `main` ends: at the token check, with an escaped exception, or
      still polling when the given rounds run out. */
  datatype Ending = TokensMissing | Crashed(error: PyError) | StillPolling

  /** `main()`, run for the given rounds: exit before polling when a setting
      is missing; otherwise start from the current time with both slots
      empty and run the loop body round after round. */
  method RunBot(cfg: Config, startTime: int, rounds: seq<Round>) returns (ending: Ending, notifications: seq<Notification>)
    ensures !Complete(cfg) ==> ending == TokensMissing && notifications == []
    ensures Complete(cfg) ==>
      var t := Run(StepIn(cfg.chat.value), State(JInt(startTime), None, None), rounds);
      && notifications == t.notifications
      && ending == (if t.crash.Some? then Crashed(t.crash.value) else StillPolling)
  {
    var ok := CheckTokens(cfg);
    if !ok {
      return TokensMissing, [];
    }
    var crash;
    crash, notifications := Serve(cfg.chat.value, State(JInt(startTime), None, None), rounds);
    ending := if crash.Some? then Crashed(crash.value) else StillPolling;
  }

  /** The `while True` loop of `main`, from the given variables, for the
      given rounds: it stops at the first exception that escapes. */
  method Serve(chat: string, initial: State, rounds: seq<Round>)
    returns (crash: Option<PyError>, notifications: seq<Notification>)
    ensures var t := Run(StepIn(chat), initial, rounds);
      notifications == t.notifications && crash == t.crash
  {
    var state := initial;
    crash := None;
    notifications := [];
    var i := 0;
    while i < |rounds| && crash.None?
      invariant 0 <= i <= |rounds|
      invariant Run(StepIn(chat), initial, rounds[..i]) == Trace(notifications, state, crash, i)
    {
      var sent, next, stop := Iterate(chat, state, rounds[i]);
      RunNext(StepIn(chat), initial, rounds, i, Outcome(sent, next, stop));
      notifications, state, crash := notifications + sent, next, stop;
      i := i + 1;
    }
    if crash.Some? {
      RunAfterCrash(StepIn(chat), initial, rounds, i);
    } else {
      assert rounds[..i] == rounds;
    }
  }

  // ------------------------------------------------------- what main keeps

  /** The checkpoint a round leaves is the one the `try` block left, whether
      or not validation, formatting or sending failed. */
  lemma CheckpointSurvivesFailure(chat: string, s: State, a: Attempt, answer: nat -> Reply)
    ensures Handle(chat, s, a, answer).state.currentTimestamp == a.checkpoint
  {
  }

  /** Whether the newest record of a valid payload carries a status string
      outside `HOMEWORK_STATUSES`. */
  predicate UnknownNewest(p: Json) {
    && WellFormedPayload(p) && Get(p, "homeworks").items != []
    && var h := Get(p, "homeworks").items[0];
       Has(h, "homework_name") && Has(h, "status") && Get(h, "status").JString? && !KnownStatus(Get(h, "status").s)
  }

  /** An unknown status in the newest record becomes that round's error: the
      checkpoint still moves to `current_date`, `previous_status` is left
      alone, and `previous_error` takes the text of the `KeyError` that
      quotes the code. */
  lemma UnknownStatusEndsRound(chat: string, s: State, r: Round)
    requires GetApiAnswer(s.currentTimestamp, r.now, r.api).Success?
    requires UnknownNewest(GetApiAnswer(s.currentTimestamp, r.now, r.api).value)
    ensures var p := GetApiAnswer(s.currentTimestamp, r.now, r.api).value;
      var code := Get(Get(p, "homeworks").items[0], "status").s;
      var o := Step(chat, s, r);
      && o.state.currentTimestamp == Get(p, "current_date")
      && o.state.previousStatus == s.previousStatus
      && o.state.previousError == Some(ErrorText(KeyError(JString(UnknownStatusPrefix + QuoteString(code)))))
  {
    var p := GetApiAnswer(s.currentTimestamp, r.now, r.api).value;
    UnknownStatusReported(Get(p, "homeworks").items[0]);
  }

  /** A status text equal to `previous_status` is not sent again, and nothing
      else is sent in that round. */
  lemma RepeatedStatusNotResent(chat: string, s: State, a: Attempt, answer: nat -> Reply)
    requires a.Formatted? && s.previousStatus == Some(a.message)
    ensures Handle(chat, s, a, answer) == Outcome([], s.(currentTimestamp := a.checkpoint), None)
  {
  }

  /** An error whose text equals `previous_error` is not sent again. */
  lemma RepeatedErrorNotResent(chat: string, s: State, a: Attempt, answer: nat -> Reply)
    requires a.Raised? && s.previousError == Some(ErrorText(a.error))
    ensures Handle(chat, s, a, answer) == Outcome([], s.(currentTimestamp := a.checkpoint), None)
  {
  }

  /** A new status text is sent once to the chat and lands in
      `previous_status` before the call, so it is not retried when the call
      fails; the failure is then reported like any other error. An error
      leaves `previous_status` alone. */
  lemma StatusSlotSetBeforeSend(chat: string, s: State, a: Attempt, answer: nat -> Reply)
    ensures var o := Handle(chat, s, a, answer);
      && (a.Formatted? ==> o.state.previousStatus == Some(a.message))
      && (a.Formatted? && Some(a.message) != s.previousStatus ==>
            && o.notifications[0] == Notification(StatusReport, a.message, [Delivery(chat, answer(0))])
            && (answer(0).Refused? && Some(SendErrorPrefix + answer(0).reason) != s.previousError ==>
                  |o.notifications| == 2
                  && o.notifications[1].category == ErrorReport
                  && o.notifications[1].text == SendErrorPrefix + answer(0).reason))
      && (a.Raised? ==> o.state.previousStatus == s.previousStatus)
  {
  }

  /** An exception escapes `main` exactly when the round's last call reported
      an error and Telegram refused it; its text then carries the refusal. */
  lemma CrashOnlyFromErrorReport(chat: string, s: State, a: Attempt, answer: nat -> Reply)
    ensures var o := Handle(chat, s, a, answer);
      && (o.crash.Some? <==>
            o.notifications != []
            && o.notifications[|o.notifications| - 1].category == ErrorReport
            && o.notifications[|o.notifications| - 1].deliveries[0].reply.Refused?)
      && (o.crash.Some? ==>
            ErrorText(o.crash.value) == SendErrorPrefix + o.notifications[|o.notifications| - 1].deliveries[0].reply.reason)
  {
  }

  /** The `except` branch adds at most one error text, one different from
      `previous_error`, and leaves `previous_status` and the status texts
      alone. */
  lemma ReportChains(chat: string, s: State, e: PyError, reply: Reply, sent: seq<Notification>)
    requires Texts(sent, ErrorReport) == []
    ensures var o := Report(chat, s, e, reply, sent);
      && o.state.previousStatus == s.previousStatus
      && Texts(o.notifications, StatusReport) == Texts(sent, StatusReport)
      && Chain(s.previousError, Texts(o.notifications, ErrorReport), o.state.previousError)
  {
    var text := ErrorText(e);
    ChainSteps(s.previousError, text);
    var n := Notification(ErrorReport, text, [Delivery(chat, reply)]);
    TextsAppend(sent, [n], StatusReport);
    TextsAppend(sent, [n], ErrorReport);
    TextsOfOne(n, StatusReport);
    TextsOfOne(n, ErrorReport);
  }

  /** Each round extends both slots' chains: no status follows an equal
      status, no error an equal error, and each slot holds the last text of
      its kind. */
  lemma HandleChains(chat: string, s: State, a: Attempt, answer: nat -> Reply)
    ensures var o := Handle(chat, s, a, answer);
      && Chain(s.previousStatus, Texts(o.notifications, StatusReport), o.state.previousStatus)
      && Chain(s.previousError, Texts(o.notifications, ErrorReport), o.state.previousError)
  {
    var o := Handle(chat, s, a, answer);
    ChainSteps(s.previousStatus, "");
    ChainSteps(s.previousError, "");
    match a
    case Raised(cp, e) =>
      ReportChains(chat, s.(currentTimestamp := cp), e, answer(0), []);
    case Formatted(cp, m) =>
      if Some(m) != s.previousStatus {
        var s' := s.(currentTimestamp := cp, previousStatus := Some(m));
        var n := Notification(StatusReport, m, [Delivery(chat, answer(0))]);
        ChainSteps(s.previousStatus, m);
        TextsOfOne(n, StatusReport);
        TextsOfOne(n, ErrorReport);
        if answer(0).Refused? {
          var e := Exception(SendErrorPrefix + answer(0).reason);
          assert o == Report(chat, s', e, answer(1), [n]);
          ReportChains(chat, s', e, answer(1), [n]);
        }
      }
  }

  /** The same for one round, polling included. */
  lemma StepChains(chat: string, s: State, r: Round)
    ensures var o := StepIn(chat)(s, r);
      && Chain(s.previousStatus, Texts(o.notifications, StatusReport), o.state.previousStatus)
      && Chain(s.previousError, Texts(o.notifications, ErrorReport), o.state.previousError)
  {
    HandleChains(chat, s, Poll(s.currentTimestamp, r.now, r.api), r.answer);
  }

  lemma RunChains(chat: string, s: State, rounds: seq<Round>)
    ensures var t := Run(StepIn(chat), s, rounds);
      && Chain(s.previousStatus, Texts(t.notifications, StatusReport), t.state.previousStatus)
      && Chain(s.previousError, Texts(t.notifications, ErrorReport), t.state.previousError)
  {
    forall st: State, r: Round
      ensures var o := StepIn(chat)(st, r);
        && Chain(st.previousStatus, Texts(o.notifications, StatusReport), o.state.previousStatus)
        && Chain(st.previousError, Texts(o.notifications, ErrorReport), o.state.previousError)
    {
      StepChains(chat, st, r);
    }
    forall a: seq<Notification>, b: seq<Notification>
      ensures Texts(a + b, StatusReport) == Texts(a, StatusReport) + Texts(b, StatusReport)
      ensures Texts(a + b, ErrorReport) == Texts(a, ErrorReport) + Texts(b, ErrorReport)
    {
      TextsAppend(a, b, StatusReport);
      TextsAppend(a, b, ErrorReport);
    }
    RunKeepsChain(StepIn(chat), s, rounds, (st: State) => st.previousStatus,
                  ns => Texts(ns, StatusReport), (r: Round) => true);
    RunKeepsChain(StepIn(chat), s, rounds, (st: State) => st.previousError,
                  ns => Texts(ns, ErrorReport), (r: Round) => true);
  }

  /** Over a whole run of `main`, no status notification follows an equal
      status notification and no error notification an equal error one. */
  lemma NoConsecutiveRepeats(chat: string, startTime: int, rounds: seq<Round>)
    ensures var t := Run(StepIn(chat), State(JInt(startTime), None, None), rounds);
      NoRepeats(Texts(t.notifications, StatusReport)) && NoRepeats(Texts(t.notifications, ErrorReport))
  {
    var s := State(JInt(startTime), None, None);
    RunChains(chat, s, rounds);
    var t := Run(StepIn(chat), s, rounds);
    assert Seed(None) + Texts(t.notifications, StatusReport) == Texts(t.notifications, StatusReport);
    assert Seed(None) + Texts(t.notifications, ErrorReport) == Texts(t.notifications, ErrorReport);
  }

  /** Status A, then an error, then status A again: with a slot per kind the
      error does not clear `previous_status`, so A is not sent the second
      time. */
  lemma StatusSurvivesAnError(chat: string, s: State, a1: Attempt, a2: Attempt, a3: Attempt,
                              answer1: nat -> Reply, answer2: nat -> Reply, answer3: nat -> Reply)
    requires a1.Formatted? && a2.Raised? && a3.Formatted? && a3.message == a1.message
    ensures var s1 := Handle(chat, s, a1, answer1).state;
      var s2 := Handle(chat, s1, a2, answer2).state;
      Handle(chat, s2, a3, answer3).notifications == []
  {
    var s1 := Handle(chat, s, a1, answer1).state;
    StatusSlotSetBeforeSend(chat, s, a1, answer1);
    StatusSlotSetBeforeSend(chat, s1, a2, answer2);
    RepeatedStatusNotResent(chat, Handle(chat, s1, a2, answer2).state, a3, answer3);
  }
}
