/** tg_bot/homework.py: the multi-chat copy of the poller's helpers. The
    fetch is shared with homework.py; validation and formatting differ only in
    their texts; the notification goes to every id of the whitespace-separated
    `TELEGRAM_CHATS_ID`, stopping at the first refusal. */
module TgHomework {
  import opened Wrappers
  import opened PyValues
  import opened Exceptions
  import opened Collaborators
  import opened Practicum

  const HomeworksKeyPrefix: string := "Отсутствует ключ homeworks: "
  const CurrentDateKeyPrefix: string := "Отсутствует ключ current_date: "
  const NameKeyPrefix: string := "Отсутствует ключ homework_name: "
  const StatusKeyPrefix: string := "Отсутствует ключ status: "
  const UnknownStatusPrefix: string := "Получен неизвестный статус проверки домашней работы."
  const WrongTypePrefix: string := "У ответа некорректный тип данных: "

  // ------------------------------------------------------------- check_tokens

  /** `check_tokens()`: whether none of the three settings is missing. */
  method CheckTokens(cfg: Config) returns (check: bool)
    ensures check <==> Complete(cfg)
  {
    var keys := [cfg.telegramToken, cfg.practicumToken, cfg.chat];
    check := true;
    for i := 0 to |keys|
      invariant check <==> forall k :: 0 <= k < i ==> keys[k].Some?
    {
      if keys[i].None? {
        check := false;
      }
    }
    assert keys[0] == cfg.telegramToken && keys[1] == cfg.practicumToken && keys[2] == cfg.chat;
  }

  // ---------------------------------------------------------- check_response

  /** `check_response(response)`: a response that is not a dict is only
      logged, so it fails at the first subscript; otherwise the `homeworks`
      list of a payload that has both keys, checked in the order `homeworks`,
      `current_date`, list. */
  function CheckResponse(response: Json): (r: Result<seq<Json>, PyError>)
    ensures r.Success? <==> WellFormedPayload(response)
    ensures r.Success? ==> r.value == Get(response, "homeworks").items
    ensures response.JObject? && !Has(response, "homeworks") ==>
      r == Failure(MissingKey(HomeworksKeyPrefix, "homeworks"))
    ensures Has(response, "homeworks") && !Has(response, "current_date") ==>
      r == Failure(MissingKey(CurrentDateKeyPrefix, "current_date"))
    ensures Has(response, "homeworks") && Has(response, "current_date") && !Get(response, "homeworks").JArray? ==>
      r == Failure(Raise(IncorrectDataTypeError, [JString(WrongTypePrefix + TypeText(Get(response, "homeworks")))]))
    ensures !response.JObject? ==> r == Failure(Subscript(response, "homeworks").error)
  {
    var homeworks := Subscript(response, "homeworks");
    if homeworks.Failure? then Failure(RewrapKeyError(homeworks.error, HomeworksKeyPrefix))
    else
      var date := Subscript(response, "current_date");
      if date.Failure? then Failure(RewrapKeyError(date.error, CurrentDateKeyPrefix))
      else if !homeworks.value.JArray? then
        Failure(Raise(IncorrectDataTypeError, [JString(WrongTypePrefix + TypeText(homeworks.value))]))
      else Success(homeworks.value.items)
  }

  // ------------------------------------------------------------ parse_status

  /** `parse_status(homework)`: the status sentence for a record with a name
      and a known status; `KeyError` for a missing name, then a missing
      status, then a status outside the table. */
  function ParseStatus(homework: Json): (r: Result<string, PyError>)
    ensures r.Success? <==> WellFormedHomework(homework)
    ensures r.Success? ==>
      r.value == StatusSentence(Get(homework, "homework_name"), Verdict(Get(homework, "status").s))
    ensures homework.JObject? && !Has(homework, "homework_name") ==>
      r == Failure(MissingKey(NameKeyPrefix, "homework_name"))
    ensures Has(homework, "homework_name") && !Has(homework, "status") ==>
      r == Failure(MissingKey(StatusKeyPrefix, "status"))
    ensures Has(homework, "homework_name") && Has(homework, "status") && r.Failure? ==>
      r == Failure(RewrapKeyError(VerdictLookup(Get(homework, "status")).error, UnknownStatusPrefix))
    ensures !homework.JObject? ==> r == Failure(Subscript(homework, "homework_name").error)
  {
    var name := Subscript(homework, "homework_name");
    if name.Failure? then Failure(RewrapKeyError(name.error, NameKeyPrefix))
    else
      var status := Subscript(homework, "status");
      if status.Failure? then Failure(RewrapKeyError(status.error, StatusKeyPrefix))
      else
        var verdict := VerdictLookup(status.value);
        if verdict.Failure? then Failure(RewrapKeyError(verdict.error, UnknownStatusPrefix))
        else Success(StatusSentence(name.value, verdict.value))
  }

  // ------------------------------------------------------------- send_message

  /** The `SendMessageError` that `send_message` turns any failure into. */
  function SendFailure(reason: string): PyError {
    Raise(SendMessageError, [JString(SendErrorPrefix + reason)])
  }

  /** The chats one `send_message` call reached, with their replies, and the
      error it raised, if any. */
  datatype Sending = Sending(deliveries: seq<Delivery>, error: Option<PyError>)

  /** Telegram accepts the calls numbered `from` up to but not including `to`. */
  predicate AllAccepted(answer: nat -> Reply, from: nat, to: nat) {
    forall j :: from <= j < to ==> answer(j).Delivered?
  }

  /** The `for` loop over the chat ids: one `bot.send_message` per id, in
      order, `answer(next + k)` replying to the k-th; the first refusal ends
      the loop, so later chats get nothing (see `DeliverMeaning`). */
  function Deliver(ids: seq<string>, answer: nat -> Reply, next: nat): (r: Sending)
    ensures |r.deliveries| <= |ids|
    decreases |ids|
  {
    if ids == [] then Sending([], None)
    else
      match answer(next)
      case Refused(reason) => Sending([Delivery(ids[0], answer(next))], Some(SendFailure(reason)))
      case Delivered =>
        var rest := Deliver(ids[1..], answer, next + 1);
        Sending([Delivery(ids[0], Delivered)] + rest.deliveries, rest.error)
  }

  /** The k-th id gets the k-th call; the call succeeds as a whole exactly
      when every id was reached and accepted; otherwise it stopped at the
      first refusal, whose reason the `SendMessageError` carries. */
  lemma {:induction false} DeliverMeaning(ids: seq<string>, answer: nat -> Reply, next: nat)
    ensures var r := Deliver(ids, answer, next);
      && (forall k :: 0 <= k < |r.deliveries| ==> r.deliveries[k] == Delivery(ids[k], answer(next + k)))
      && (r.error.None? <==> |r.deliveries| == |ids| && AllAccepted(answer, next, next + |ids|))
      && (r.error.Some? ==>
            && r.deliveries != []
            && AllAccepted(answer, next, next + |r.deliveries| - 1)
            && answer(next + |r.deliveries| - 1).Refused?
            && r.error.value == SendFailure(answer(next + |r.deliveries| - 1).reason))
    decreases |ids|
  {
    if ids != [] && answer(next).Delivered? {
      DeliverMeaning(ids[1..], answer, next + 1);
    }
  }

  /** `send_message(bot, message)` with `TELEGRAM_CHATS_ID` as `chatsId`: the
      ids are the words of the setting; a missing setting fails at `.split`,
      and that failure is wrapped like a Telegram one. */
  function Broadcast(chatsId: Option<string>, answer: nat -> Reply, next: nat): (r: Sending)
    ensures chatsId.None? ==>
      r == Sending([], Some(SendFailure(ErrorText(NoAttribute(JNull, "split")))))
    ensures chatsId.Some? ==> r == Deliver(Split(chatsId.value), answer, next)
  {
    match chatsId
    case None => Sending([], Some(SendFailure(ErrorText(NoAttribute(JNull, "split")))))
    case Some(ids) => Deliver(Split(ids), answer, next)
  }

  /** One turn of the loop, seen from the `i`-th id on. */
  lemma DeliverFrom(ids: seq<string>, answer: nat -> Reply, next: nat, i: nat)
    requires i < |ids|
    ensures var here := Delivery(ids[i], answer(next + i));
      var rest := Deliver(ids[i + 1..], answer, next + i + 1);
      Deliver(ids[i..], answer, next + i) ==
        if answer(next + i).Refused? then Sending([here], Some(SendFailure(answer(next + i).reason)))
        else Sending([here] + rest.deliveries, rest.error)
  {
    assert ids[i..][1..] == ids[i + 1..];
  }

  /** One more call of the loop, from the deliveries made so far. */
  lemma DeliverAdvance(ids: seq<string>, answer: nat -> Reply, next: nat, i: nat, done: seq<Delivery>)
    requires i < |ids|
    requires var rest := Deliver(ids[i..], answer, next + i);
      Deliver(ids, answer, next) == Sending(done + rest.deliveries, rest.error)
    ensures var reply := answer(next + i);
      var now := done + [Delivery(ids[i], reply)];
      var rest := Deliver(ids[i + 1..], answer, next + i + 1);
      Deliver(ids, answer, next) ==
        if reply.Refused? then Sending(now, Some(SendFailure(reply.reason)))
        else Sending(now + rest.deliveries, rest.error)
  {
    DeliverFrom(ids, answer, next, i);
    var rest := Deliver(ids[i + 1..], answer, next + i + 1);
    assert done + ([Delivery(ids[i], answer(next + i))] + rest.deliveries)
      == (done + [Delivery(ids[i], answer(next + i))]) + rest.deliveries;
  }

  /** `send_message(bot, message)`, statement by statement: the split, then
      the loop over the ids. */
  method SendMessage(chatsId: Option<string>, answer: nat -> Reply, next: nat)
    returns (deliveries: seq<Delivery>, error: Option<PyError>)
    ensures Sending(deliveries, error) == Broadcast(chatsId, answer, next)
  {
    if chatsId.None? {
      return [], Some(SendFailure(ErrorText(NoAttribute(JNull, "split"))));
    }
    var ids := Split(chatsId.value);
    deliveries, error := SendEach(ids, answer, next);
  }

  /** The `for` loop of `send_message`, call after call. */
  method SendEach(ids: seq<string>, answer: nat -> Reply, next: nat)
    returns (deliveries: seq<Delivery>, error: Option<PyError>)
    ensures Sending(deliveries, error) == Deliver(ids, answer, next)
  {
    deliveries, error := [], None;
    var i := 0;
    while i < |ids| && error.None?
      invariant 0 <= i <= |ids|
      invariant error.None? ==>
        Deliver(ids, answer, next)
          == Sending(deliveries + Deliver(ids[i..], answer, next + i).deliveries, Deliver(ids[i..], answer, next + i).error)
      invariant error.Some? ==> Deliver(ids, answer, next) == Sending(deliveries, error)
    {
      var reply := answer(next + i);
      DeliverAdvance(ids, answer, next, i, deliveries);
      deliveries := deliveries + [Delivery(ids[i], reply)];
      if reply.Refused? {
        error := Some(SendFailure(reply.reason));
      }
      i := i + 1;
    }
    if error.None? {
      assert ids[i..] == [];
      assert deliveries + [] == deliveries;
    }
  }

  /** Every word of the setting is a destination, in order: when Telegram
      accepts every call, a list of ids separated by any whitespace (and
      padded with any) gets the text once per id and nowhere else. */
  lemma BroadcastReachesEveryChat(ids: seq<string>, gaps: seq<string>, answer: nat -> Reply, next: nat)
    requires |gaps| == |ids| + 1
    requires forall k :: 0 <= k < |ids| ==> IsWord(ids[k])
    requires forall k :: 0 <= k < |gaps| ==> IsBlank(gaps[k])
    requires forall k :: 0 < k < |ids| ==> gaps[k] != []
    requires AllAccepted(answer, next, next + |ids|)
    ensures var r := Broadcast(Some(Spread(ids, gaps)), answer, next);
      r.error.None? && |r.deliveries| == |ids|
      && forall k :: 0 <= k < |ids| ==> r.deliveries[k].chat == ids[k]
  {
    SplitSpread(ids, gaps);
    DeliverMeaning(ids, answer, next);
  }

  /** A setting made only of whitespace passes `check_tokens` yet names no
      chat: the text goes nowhere and nothing fails. */
  lemma BlankSettingReachesNobody(chatsId: string, answer: nat -> Reply, next: nat)
    requires forall k :: 0 <= k < |chatsId| ==> IsSpace(chatsId[k])
    ensures Broadcast(Some(chatsId), answer, next) == Sending([], None)
  {
    BlankSplit(chatsId);
  }

  lemma {:induction false} BlankSplit(s: string)
    requires forall k :: 0 <= k < |s| ==> IsSpace(s[k])
    ensures Split(s) == []
    decreases |s|
  {
    if s != [] {
      BlankSplit(s[1..]);
    }
  }
}
