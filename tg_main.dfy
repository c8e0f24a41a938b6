/** tg_bot/main.py: the loop of the multi-chat bot. It differs from the loop
    of homework.py in three ways: the checkpoint is read with `.get`, so a
    payload without `current_date` resets it to `None`; one slot,
    `previous_status`, holds the last text of either kind; and a typing
    indicator precedes each status notification. */
module TgMain {
  import opened Wrappers
  import opened PyValues
  import opened Exceptions
  import opened Collaborators
  import opened Practicum
  import opened TgHomework
  import opened Loop

  /** The variables `main` keeps across rounds. */
  datatype State = State(currentTimestamp: Json, previousStatus: Option<string>)

  /** What the world does in one round: the time `time.time()` reads, the
      homework API, the reply to `bot.send_chat_action`, and the replies to
      the round's successive `bot.send_message` calls. */
  datatype Round = Round(now: int, api: Json -> HttpReply, typing: Reply, answer: nat -> Reply)

  /** How the `try` block ends before the notification: with the message or
      with an exception, and in both cases with the checkpoint left behind. */
  datatype Attempt =
    | Formatted(checkpoint: Json, message: string)
    | Raised(checkpoint: Json, error: PyError)

  /** Fetch, read the checkpoint with `.get`, validate, format. */
  function Poll(checkpoint: Json, now: int, api: Json -> HttpReply): (a: Attempt)
    ensures var fetched := GetApiAnswer(checkpoint, now, api);
      && a.checkpoint ==
           (if fetched.Success? && fetched.value.JObject?
            then (if Has(fetched.value, "current_date") then Get(fetched.value, "current_date") else JNull)
            else checkpoint)
      && (a.Formatted? <==>
            fetched.Success? && WellFormedPayload(fetched.value)
            && (Get(fetched.value, "homeworks").items == []
                || WellFormedHomework(Get(fetched.value, "homeworks").items[0])))
      && (a.Formatted? ==> a.message == MessageFor(Get(fetched.value, "homeworks").items))
      && (fetched.Failure? ==> a == Raised(checkpoint, fetched.error))
      && (fetched.Success? && !fetched.value.JObject? ==>
            a == Raised(checkpoint, NoAttribute(fetched.value, "get")))
      && (fetched.Success? && fetched.value.JObject? && CheckResponse(fetched.value).Failure? ==>
            a.Raised? && a.error == CheckResponse(fetched.value).error)
      && (fetched.Success? && WellFormedPayload(fetched.value) && Get(fetched.value, "homeworks").items != []
          && !WellFormedHomework(Get(fetched.value, "homeworks").items[0]) ==>
            a == Raised(Get(fetched.value, "current_date"),
                        ParseStatus(Get(fetched.value, "homeworks").items[0]).error))
  {
    match GetApiAnswer(checkpoint, now, api)
    case Failure(e) => Raised(checkpoint, e)
    case Success(response) =>
      match DictGet(response, "current_date")
      case Failure(e) => Raised(checkpoint, e)
      case Success(date) =>
        match CheckResponse(response)
        case Failure(e) => Raised(date, e)
        case Success(result) =>
          if |result| != 0 then
            match ParseStatus(result[0])
            case Failure(e) => Raised(date, e)
            case Success(m) => Formatted(date, m)
          else Formatted(date, NoHomeworksText)
  }

  /** The `except Exception as error:` branch: `str(error)` is broadcast
      unless it equals `previous_status`, which it replaces before sending. A
      failure of that broadcast is not caught: it escapes `main`. `next`
      numbers its first `bot.send_message` call within the round. */
  function Report(chats: Option<string>, s: State, e: PyError, answer: nat -> Reply, next: nat,
                  sent: seq<Notification>): Outcome<State>
  {
    var text := ErrorText(e);
    if Some(text) == s.previousStatus then Outcome(sent, s, None)
    else
      var b := Broadcast(chats, answer, next);
      Outcome(sent + [Notification(ErrorReport, text, b.deliveries)], s.(previousStatus := Some(text)), b.error)
  }

  /** The rest of the `while True` body once the `try` block has fetched and
      formatted (or failed), with `TELEGRAM_CHATS_ID` as `chats`: a new status
      text replaces `previous_status`, then the typing indicator is sent
      (`typing` is its reply), then the text is broadcast; `answer(k)`
      replies to the k-th `bot.send_message` call of the round. */
  function Handle(chats: Option<string>, s: State, a: Attempt, typing: Reply, answer: nat -> Reply): Outcome<State> {
    match a
    case Raised(cp, e) => Report(chats, s.(currentTimestamp := cp), e, answer, 0, [])
    case Formatted(cp, m) =>
      if Some(m) == s.previousStatus then Outcome([], s.(currentTimestamp := cp), None)
      else
        var s' := State(cp, Some(m));
        match typing
        case Refused(reason) => Report(chats, s', Foreign(reason), answer, 0, [])
        case Delivered =>
          var b := Broadcast(chats, answer, 0);
          var sent := [Notification(StatusReport, m, b.deliveries)];
          match b.error
          case None => Outcome(sent, s', None)
          case Some(e) => Report(chats, s', e, answer, |b.deliveries|, sent)
  }

  /** One pass of `main`'s `while True` body. */
  function Step(chats: Option<string>, s: State, r: Round): Outcome<State> {
    Handle(chats, s, Poll(s.currentTimestamp, r.now, r.api), r.typing, r.answer)
  }

  /** The step `main` repeats, for the configured chat setting. */
  function StepIn(chats: Option<string>): (State, Round) -> Outcome<State> {
    (s: State, r: Round) => Step(chats, s, r)
  }

  /** One pass of the `while True` body, statement by statement: the `try`
      block up to the formatted message, then the notification and the
      `except` branch. */
  method Iterate(chats: Option<string>, before: State, round: Round)
    returns (sent: seq<Notification>, after: State, crash: Option<PyError>)
    ensures Outcome(sent, after, crash) == Step(chats, before, round)
    ensures Outcome(sent, after, crash) == StepIn(chats)(before, round)
  {
    var attempt := Fetch(before.currentTimestamp, round.now, round.api);
    sent, after, crash := Finish(chats, before, attempt, round.typing, round.answer);
  }

  /** The `try` block from the request to the formatted message. */
  method Fetch(checkpoint: Json, now: int, api: Json -> HttpReply) returns (a: Attempt)
    ensures a == Poll(checkpoint, now, api)
  {
    var response := GetApiAnswer(checkpoint, now, api);
    if response.Failure? {
      return Raised(checkpoint, response.error);
    }
    var date := DictGet(response.value, "current_date");
    if date.Failure? {
      return Raised(checkpoint, date.error);
    }
    var result := CheckResponse(response.value);
    if result.Failure? {
      return Raised(date.value, result.error);
    }
    var message := NoHomeworksText;
    if |result.value| != 0 {
      var parsed := ParseStatus(result.value[0]);
      if parsed.Failure? {
        return Raised(date.value, parsed.error);
      }
      message := parsed.value;
    }
    a := Formatted(date.value, message);
  }

  /** The rest of the `try` block (slot, typing indicator, broadcast) and the
      `except` branch. */
  method Finish(chats: Option<string>, before: State, a: Attempt, typing: Reply, answer: nat -> Reply)
    returns (sent: seq<Notification>, after: State, crash: Option<PyError>)
    ensures Outcome(sent, after, crash) == Handle(chats, before, a, typing, answer)
  {
    var previousStatus := before.previousStatus;
    var raised: Option<PyError> := None;
    var calls := 0;
    sent := [];
    crash := None;
    if a.Raised? {
      raised := Some(a.error);
    } else if Some(a.message) != previousStatus {
      previousStatus := Some(a.message);
      if typing.Refused? {
        raised := Some(Foreign(typing.reason));
      } else {
        var deliveries, error := SendMessage(chats, answer, 0);
        sent := [Notification(StatusReport, a.message, deliveries)];
        calls := |deliveries|;
        raised := error;
      }
    }
    // except Exception as error:
    if raised.Some? {
      var text := ErrorText(raised.value);
      if Some(text) != previousStatus {
        previousStatus := Some(text);
        var deliveries, error := SendMessage(chats, answer, calls);
        sent := sent + [Notification(ErrorReport, text, deliveries)];
        crash := error;
      }
    }
    after := State(a.checkpoint, previousStatus);
  }

  /** How `main` ends: at the token check, with an escaped exception, or
      still polling when the given rounds run out. */
  datatype Ending = TokensMissing | Crashed(error: PyError) | StillPolling

  /** `main()`, run for the given rounds: exit before polling when a setting
      is missing; otherwise start from the current time with an empty slot
      and run the loop body round after round. */
  method RunBot(cfg: Config, startTime: int, rounds: seq<Round>) returns (ending: Ending, notifications: seq<Notification>)
    ensures !Complete(cfg) ==> ending == TokensMissing && notifications == []
    ensures Complete(cfg) ==>
      var t := Run(StepIn(cfg.chat), State(JInt(startTime), None), rounds);
      && notifications == t.notifications
      && ending == (if t.crash.Some? then Crashed(t.crash.value) else StillPolling)
  {
    var ok := CheckTokens(cfg);
    if !ok {
      return TokensMissing, [];
    }
    var crash;
    crash, notifications := Serve(cfg.chat, State(JInt(startTime), None), rounds);
    ending := if crash.Some? then Crashed(crash.value) else StillPolling;
  }

  /** The `while True` loop of `main`, from the given variables, for the
      given rounds: it stops at the first exception that escapes. */
  method Serve(chats: Option<string>, initial: State, rounds: seq<Round>)
    returns (crash: Option<PyError>, notifications: seq<Notification>)
    ensures var t := Run(StepIn(chats), initial, rounds);
      notifications == t.notifications && crash == t.crash
  {
    var state := initial;
    crash := None;
    notifications := [];
    var i := 0;
    while i < |rounds| && crash.None?
      invariant 0 <= i <= |rounds|
      invariant Run(StepIn(chats), initial, rounds[..i]) == Trace(notifications, state, crash, i)
    {
      var sent, next, stop := Iterate(chats, state, rounds[i]);
      RunNext(StepIn(chats), initial, rounds, i, Outcome(sent, next, stop));
      notifications, state, crash := notifications + sent, next, stop;
      i := i + 1;
    }
    if crash.Some? {
      RunAfterCrash(StepIn(chats), initial, rounds, i);
    } else {
      assert rounds[..i] == rounds;
    }
  }

  // ------------------------------------------------------- what main keeps

  /** A dict without `current_date` sets the checkpoint to `None`, and the
      round fails in `check_response`; the next fetch then asks from the
      current time again. */
  lemma MissingDateResetsCheckpoint(checkpoint: Json, now: int, api: Json -> HttpReply, later: int)
    requires GetApiAnswer(checkpoint, now, api).Success?
    requires GetApiAnswer(checkpoint, now, api).value.JObject?
    requires !Has(GetApiAnswer(checkpoint, now, api).value, "current_date")
    ensures Poll(checkpoint, now, api).checkpoint == JNull
    ensures Poll(checkpoint, now, api).Raised?
    ensures Has(GetApiAnswer(checkpoint, now, api).value, "homeworks") ==>
      Poll(checkpoint, now, api).error == MissingKey(CurrentDateKeyPrefix, "current_date")
    ensures FromDate(Poll(checkpoint, now, api).checkpoint, later) == JInt(later)
  {
  }

  /** A text equal to `previous_status`, status or error alike, is not sent
      again and nothing else is sent in that round. */
  lemma RepeatedTextNotResent(chats: Option<string>, s: State, a: Attempt, typing: Reply, answer: nat -> Reply)
    requires s.previousStatus == Some(if a.Formatted? then a.message else ErrorText(a.error))
    ensures Handle(chats, s, a, typing, answer) == Outcome([], s.(currentTimestamp := a.checkpoint), None)
  {
  }

  /** Which text a round puts in the slot and sends: a new status, once the
      typing indicator is accepted, goes to the broadcast first; a new error
      is broadcast at once. */
  lemma SlotTakesNewText(chats: Option<string>, s: State, a: Attempt, typing: Reply, answer: nat -> Reply)
    ensures var o := Handle(chats, s, a, typing, answer);
      var b := Broadcast(chats, answer, 0);
      && (a.Formatted? && s.previousStatus != Some(a.message) && typing.Delivered? ==>
            && o.notifications != []
            && o.notifications[0] == Notification(StatusReport, a.message, b.deliveries)
            && (b.error.None? ==> o.state.previousStatus == Some(a.message)))
      && (a.Raised? && s.previousStatus != Some(ErrorText(a.error)) ==>
            && o.notifications == [Notification(ErrorReport, ErrorText(a.error), b.deliveries)]
            && o.state.previousStatus == Some(ErrorText(a.error)))
  {
  }

  /** Status A, then an error, then status A again: the error takes the one
      slot, so A is broadcast again the third time. */
  lemma StatusResentAfterError(chats: Option<string>, s: State, a1: Attempt, a2: Attempt, a3: Attempt,
                               answer1: nat -> Reply, answer2: nat -> Reply, typing3: Reply, answer3: nat -> Reply)
    requires a1.Formatted? && s.previousStatus != Some(a1.message)
    requires Broadcast(chats, answer1, 0).error.None?
    requires a2.Raised? && ErrorText(a2.error) != a1.message
    requires a3.Formatted? && a3.message == a1.message && typing3.Delivered?
    ensures var s1 := Handle(chats, s, a1, Delivered, answer1).state;
      var s2 := Handle(chats, s1, a2, Delivered, answer2).state;
      var o := Handle(chats, s2, a3, typing3, answer3);
      o.notifications != [] &&
      o.notifications[0] == Notification(StatusReport, a1.message, Broadcast(chats, answer3, 0).deliveries)
  {
    var s1 := Handle(chats, s, a1, Delivered, answer1).state;
    SlotTakesNewText(chats, s, a1, Delivered, answer1);
    SlotTakesNewText(chats, s1, a2, Delivered, answer2);
    SlotTakesNewText(chats, Handle(chats, s1, a2, Delivered, answer2).state, a3, typing3, answer3);
  }

  /** A refused typing indicator whose text equals the new status leaves that
      status in the slot without it having been sent to anyone. */
  lemma RefusedTypingCanSwallowStatus(chats: Option<string>, s: State, a: Attempt, answer: nat -> Reply)
    requires a.Formatted? && s.previousStatus != Some(a.message)
    ensures Handle(chats, s, a, Refused(a.message), answer) == Outcome([], State(a.checkpoint, Some(a.message)), None)
  {
  }

  /** A refused typing indicator whose text equals the status just sent
      makes the next round send that text again: status A goes out, then a
      new status B is formatted, B takes the slot, the refusal's text A is
      reported as an error, differs from B, and is broadcast right after A. */
  lemma TypingRefusalRepeats(chats: Option<string>, s: State, a1: Attempt, a2: Attempt,
                             answer1: nat -> Reply, answer2: nat -> Reply)
    requires a1.Formatted? && s.previousStatus != Some(a1.message)
    requires Broadcast(chats, answer1, 0).error.None?
    requires a2.Formatted? && a2.message != a1.message
    ensures var o1 := Handle(chats, s, a1, Delivered, answer1);
      var o2 := Handle(chats, o1.state, a2, Refused(a1.message), answer2);
      && o1.notifications == [Notification(StatusReport, a1.message, Broadcast(chats, answer1, 0).deliveries)]
      && o2.notifications == [Notification(ErrorReport, a1.message, Broadcast(chats, answer2, 0).deliveries)]
      && !NoRepeats(AllTexts(o1.notifications + o2.notifications))
  {
    var o1 := Handle(chats, s, a1, Delivered, answer1);
    var o2 := Handle(chats, o1.state, a2, Refused(a1.message), answer2);
    var ts := AllTexts(o1.notifications + o2.notifications);
    assert ts[0] == ts[1];
  }

  /** Whatever fails inside `send_message` leaves it as a `SendMessageError`. */
  lemma BroadcastFailsAsSendMessageError(chats: Option<string>, answer: nat -> Reply, next: nat)
    ensures var b := Broadcast(chats, answer, next);
      b.error.Some? ==> b.error.value.Custom? && b.error.value.cls == SendMessageError
  {
    if chats.Some? {
      DeliverMeaning(Split(chats.value), answer, next);
    }
  }

  /** How a broadcast fails: with no chat setting, at `.split`, before any
      call; with one, exactly when its last call was refused, and the
      `SendMessageError` then carries that refusal. */
  lemma BroadcastFailure(chats: Option<string>, answer: nat -> Reply, next: nat)
    ensures var b := Broadcast(chats, answer, next);
      && (chats.None? ==> b == Sending([], Some(FailedReportError(chats, []))))
      && (chats.Some? ==>
            && (b.error.Some? <==> b.deliveries != [] && b.deliveries[|b.deliveries| - 1].reply.Refused?)
            && (b.error.Some? ==> b.error.value == FailedReportError(chats, b.deliveries)))
  {
    if chats.Some? {
      var ids := Split(chats.value);
      DeliverMeaning(ids, answer, next);
      var b := Deliver(ids, answer, next);
      if b.error.None? && b.deliveries != [] {
        var k := |b.deliveries| - 1;
        assert b.deliveries[k] == Delivery(ids[k], answer(next + k));
      }
    }
  }

  /** Whether `ns` ends with an error broadcast that failed: with no chat
      setting every error broadcast fails, at `.split`; with one, its last
      call was refused. */
  predicate EndsInFailedReport(chats: Option<string>, ns: seq<Notification>) {
    && ns != [] && ns[|ns| - 1].category == ErrorReport
    && (chats.Some? ==>
          var ds := ns[|ns| - 1].deliveries;
          ds != [] && ds[|ds| - 1].reply.Refused?)
  }

  /** The `SendMessageError` a failed broadcast with these deliveries raises. */
  function FailedReportError(chats: Option<string>, ds: seq<Delivery>): PyError {
    if chats.None? || ds == [] || ds[|ds| - 1].reply.Delivered? then SendFailure(ErrorText(NoAttribute(JNull, "split")))
    else SendFailure(ds[|ds| - 1].reply.reason)
  }

  /** An exception escapes the `except` branch exactly when its own
      broadcast fails, and it is that broadcast's error. */
  lemma ReportCrash(chats: Option<string>, s: State, e: PyError, answer: nat -> Reply, next: nat,
                    sent: seq<Notification>)
    requires sent == [] || sent[|sent| - 1].category == StatusReport
    ensures var o := Report(chats, s, e, answer, next, sent);
      && (o.crash.Some? <==> EndsInFailedReport(chats, o.notifications))
      && (o.crash.Some? ==>
            && o.crash.value == FailedReportError(chats, o.notifications[|o.notifications| - 1].deliveries)
            && o.state.previousStatus == Some(o.notifications[|o.notifications| - 1].text))
  {
    var text := ErrorText(e);
    if Some(text) != s.previousStatus {
      var b := Broadcast(chats, answer, next);
      BroadcastFailure(chats, answer, next);
      var n := Notification(ErrorReport, text, b.deliveries);
      assert Report(chats, s, e, answer, next, sent) == Outcome(sent + [n], s.(previousStatus := Some(text)), b.error);
      assert (sent + [n])[|sent + [n]| - 1] == n;
    }
  }

  /** An exception escapes a round exactly when the round ends with an error
      broadcast that failed; it is then that broadcast's `SendMessageError`,
      carrying the refusal of its last call (or the `.split` failure when no
      chat is configured), and the error's text is in the slot. */
  lemma CrashOnlyFromErrorReport(chats: Option<string>, s: State, a: Attempt, typing: Reply, answer: nat -> Reply)
    ensures var o := Handle(chats, s, a, typing, answer);
      && (o.crash.Some? <==> EndsInFailedReport(chats, o.notifications))
      && (o.crash.Some? ==>
            && o.crash.value == FailedReportError(chats, o.notifications[|o.notifications| - 1].deliveries)
            && o.crash.value.Custom? && o.crash.value.cls == SendMessageError
            && o.state.previousStatus == Some(o.notifications[|o.notifications| - 1].text))
  {
    match a
    case Raised(cp, e) =>
      ReportCrash(chats, s.(currentTimestamp := cp), e, answer, 0, []);
    case Formatted(cp, m) =>
      if Some(m) != s.previousStatus {
        if typing.Refused? {
          ReportCrash(chats, State(cp, Some(m)), Foreign(typing.reason), answer, 0, []);
        } else {
          var b := Broadcast(chats, answer, 0);
          if b.error.Some? {
            ReportCrash(chats, State(cp, Some(m)), b.error.value, answer, |b.deliveries|,
                        [Notification(StatusReport, m, b.deliveries)]);
          }
        }
      }
  }

  /** The `except` branch extends the chain of texts that went through the
      slot. */
  lemma ReportChains(chats: Option<string>, p: Option<string>, s: State, e: PyError,
                     answer: nat -> Reply, next: nat, sent: seq<Notification>)
    requires Chain(p, AllTexts(sent), s.previousStatus)
    ensures var o := Report(chats, s, e, answer, next, sent);
      Chain(p, AllTexts(o.notifications), o.state.previousStatus)
  {
    var text := ErrorText(e);
    if Some(text) != s.previousStatus {
      var n := Notification(ErrorReport, text, Broadcast(chats, answer, next).deliveries);
      AllTextsAppend(sent, [n]);
      assert AllTexts([n]) == [text];
      ChainSteps(s.previousStatus, text);
      ChainCompose(p, AllTexts(sent), s.previousStatus, [text], Some(text));
    }
  }

  /** With the typing indicator accepted, every text that enters the slot is
      sent, so each round extends the chain of sent texts. */
  lemma HandleChains(chats: Option<string>, s: State, a: Attempt, answer: nat -> Reply)
    ensures var o := Handle(chats, s, a, Delivered, answer);
      Chain(s.previousStatus, AllTexts(o.notifications), o.state.previousStatus)
  {
    ChainSteps(s.previousStatus, "");
    assert AllTexts([]) == [];
    match a
    case Raised(cp, e) =>
      ReportChains(chats, s.previousStatus, s.(currentTimestamp := cp), e, answer, 0, []);
    case Formatted(cp, m) =>
      if Some(m) != s.previousStatus {
        var b := Broadcast(chats, answer, 0);
        var sent := [Notification(StatusReport, m, b.deliveries)];
        ChainSteps(s.previousStatus, m);
        assert AllTexts(sent) == [m];
        if b.error.Some? {
          ReportChains(chats, s.previousStatus, State(cp, Some(m)), b.error.value, answer, |b.deliveries|, sent);
        }
      }
  }

  /** The same for one round, polling included, when the typing indicator
      is accepted. */
  lemma StepChains(chats: Option<string>, s: State, r: Round)
    requires r.typing.Delivered?
    ensures var o := StepIn(chats)(s, r);
      Chain(s.previousStatus, AllTexts(o.notifications), o.state.previousStatus)
  {
    HandleChains(chats, s, Poll(s.currentTimestamp, r.now, r.api), r.answer);
  }

  lemma RunChains(chats: Option<string>, s: State, rounds: seq<Round>)
    requires forall k :: 0 <= k < |rounds| ==> rounds[k].typing.Delivered?
    ensures var t := Run(StepIn(chats), s, rounds);
      Chain(s.previousStatus, AllTexts(t.notifications), t.state.previousStatus)
  {
    forall st: State, r: Round | r.typing.Delivered?
      ensures var o := StepIn(chats)(st, r);
        Chain(st.previousStatus, AllTexts(o.notifications), o.state.previousStatus)
    {
      StepChains(chats, st, r);
    }
    forall a: seq<Notification>, b: seq<Notification>
      ensures AllTexts(a + b) == AllTexts(a) + AllTexts(b)
    {
      AllTextsAppend(a, b);
    }
    RunKeepsChain(StepIn(chats), s, rounds, (st: State) => st.previousStatus,
                  AllTexts, (r: Round) => r.typing.Delivered?);
  }

  /** Over a whole run of `main` in which the typing indicator is never
      refused, no notification repeats the text of the one before it,
      whatever their kinds. */
  lemma NoConsecutiveRepeats(chats: Option<string>, startTime: int, rounds: seq<Round>)
    requires forall k :: 0 <= k < |rounds| ==> rounds[k].typing.Delivered?
    ensures NoRepeats(AllTexts(Run(StepIn(chats), State(JInt(startTime), None), rounds).notifications))
  {
    var s := State(JInt(startTime), None);
    RunChains(chats, s, rounds);
    var ts := AllTexts(Run(StepIn(chats), s, rounds).notifications);
    assert Seed<string>(None) + ts == ts;
  }
}
