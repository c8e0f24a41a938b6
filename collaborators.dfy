/** The world outside the poller, reduced to what it answers: the homework
    API's reply to one request, the Telegram API's reply to one call, the
    configuration read from the environment, and the record of what the
    poller sent. */
module Collaborators {
  import opened Wrappers
  import opened PyValues

  /** What one `requests.get` to the homework API comes to: a status code and a
      body that `response.json()` either decodes or fails on (with the text of
      that failure), or a request that failed in transport (with the text of
      the `requests` exception). */
  datatype HttpReply =
    | Answered(statusCode: int, body: Result<Json, string>)
    | Unreachable(reason: string)

  /** What the Telegram API does with one call: accepts it, or raises an error
      whose `str` is `reason`. */
  datatype Reply = Delivered | Refused(reason: string)

  /** One `bot.send_message(chat_id, text)` call and its reply. */
  datatype Delivery = Delivery(chat: string, reply: Reply)

  /** Whether a text reports a homework status or an error. */
  datatype Category = StatusReport | ErrorReport

  /** One call of the bot's `send_message(bot, text)`: the text, and every
      chat it was handed to, in order. */
  datatype Notification = Notification(category: Category, text: string, deliveries: seq<Delivery>)

  /** The three settings `os.getenv` supplies; any of them may be missing. */
  datatype Config = Config(practicumToken: Option<string>, telegramToken: Option<string>, chat: Option<string>)

  predicate Complete(cfg: Config) {
    cfg.practicumToken.Some? && cfg.telegramToken.Some? && cfg.chat.Some?
  }

  /** The texts of the notifications of one category, in the order sent:
      all the texts when every notification is of that category, none when
      none is, and the two kinds of a mixed record interleave as sent (see
      `TextsAppend`). */
  function Texts(ns: seq<Notification>, c: Category): (ts: seq<string>)
    ensures |ts| <= |ns|
    ensures (forall k :: 0 <= k < |ns| ==> ns[k].category == c) ==> ts == AllTexts(ns)
    ensures (forall k :: 0 <= k < |ns| ==> ns[k].category != c) ==> ts == []
  {
    if ns == [] then []
    else Texts(ns[..|ns| - 1], c) + (if ns[|ns| - 1].category == c then [ns[|ns| - 1].text] else [])
  }

  /** The texts of all notifications, in the order sent. */
  function AllTexts(ns: seq<Notification>): (ts: seq<string>)
    ensures |ts| == |ns|
    ensures forall k :: 0 <= k < |ns| ==> ts[k] == ns[k].text
  {
    if ns == [] then [] else AllTexts(ns[..|ns| - 1]) + [ns[|ns| - 1].text]
  }

  lemma {:induction false} TextsAppend(ns: seq<Notification>, more: seq<Notification>, c: Category)
    ensures Texts(ns + more, c) == Texts(ns, c) + Texts(more, c)
    decreases |more|
  {
    if more == [] {
      assert ns + more == ns;
    } else {
      var last := more[|more| - 1];
      assert (ns + more)[..|ns + more| - 1] == ns + more[..|more| - 1];
      TextsAppend(ns, more[..|more| - 1], c);
    }
  }

  lemma AllTextsAppend(ns: seq<Notification>, more: seq<Notification>)
    ensures AllTexts(ns + more) == AllTexts(ns) + AllTexts(more)
  {
  }

  /** No text follows an equal text. */
  predicate NoRepeats<T(==)>(ts: seq<T>) {
    forall i, j :: 0 <= i < |ts| && 0 <= j < |ts| && j == i + 1 ==> ts[i] != ts[j]
  }

  /** The contents of a last-sent slot, as a list of zero or one texts. */
  function Seed<T>(slot: Option<T>): seq<T> {
    if slot.Some? then [slot.value] else []
  }

  /** The last text of `ts`, if any, as a slot. */
  function LastOf<T>(ts: seq<T>): Option<T> {
    if ts == [] then None else Some(ts[|ts| - 1])
  }

  /** Starting from slot `before`, the texts `sent` went out one after the
      other, none right after an equal one, and `after` is the slot they
      leave behind: the last text sent, or `before` when nothing was sent. */
  predicate Chain<T(==)>(before: Option<T>, sent: seq<T>, after: Option<T>) {
    NoRepeats(Seed(before) + sent) && after == LastOf(Seed(before) + sent)
  }

  /** Two lists without repeats joined by different texts have no repeats. */
  lemma NoRepeatsJoin<T>(p: seq<T>, q: seq<T>)
    requires NoRepeats(p) && NoRepeats(q)
    requires p != [] && q != [] ==> p[|p| - 1] != q[0]
    ensures NoRepeats(p + q)
  {
    forall i, j | 0 <= i < |p + q| && 0 <= j < |p + q| && j == i + 1
      ensures (p + q)[i] != (p + q)[j]
    {
      if i >= |p| {
        assert (p + q)[i] == q[i - |p|] && (p + q)[j] == q[j - |p|];
      } else if j < |p| {
        assert (p + q)[i] == p[i] && (p + q)[j] == p[j];
      }
    }
  }

  /** What a chain hands on: the texts after the starting slot have no
      repeats, the first of them differs from that slot, and the slot left
      behind is the last text of the whole list. */
  lemma ChainParts<T>(b: Option<T>, y: seq<T>, c: Option<T>)
    requires Chain(b, y, c)
    ensures NoRepeats(y)
    ensures b.Some? && y != [] ==> b.value != y[0]
    ensures y != [] ==> c == Some(y[|y| - 1])
    ensures y == [] ==> c == b
  {
    var m := Seed(b) + y;
    forall i, j | 0 <= i < |y| && 0 <= j < |y| && j == i + 1
      ensures y[i] != y[j]
    {
      assert m[i + |Seed(b)|] == y[i] && m[j + |Seed(b)|] == y[j];
    }
    if b.Some? && y != [] {
      assert m[0] == b.value && m[1] == y[0];
    }
    if y == [] {
      assert m == Seed(b);
    }
  }

  /** Chains laid end to end form a chain: the slot is all that one stretch
      of the run hands to the next. */
  lemma ChainCompose<T>(a: Option<T>, x: seq<T>, b: Option<T>, y: seq<T>, c: Option<T>)
    requires Chain(a, x, b) && Chain(b, y, c)
    ensures Chain(a, x + y, c)
  {
    var l := Seed(a) + x;
    assert Seed(a) + (x + y) == l + y;
    ChainParts(b, y, c);
    if y == [] {
      assert l + y == l;
    } else {
      NoRepeatsJoin(l, y);
      assert (l + y)[|l + y| - 1] == y[|y| - 1];
    }
  }

  lemma TextsOfOne(n: Notification, c: Category)
    ensures Texts([n], c) == if n.category == c then [n.text] else []
  {
    assert [n][..0] == [];
  }

  /** Sending nothing keeps the slot; sending a text different from the slot
      puts it there. */
  lemma ChainSteps<T>(x: Option<T>, m: T)
    ensures Chain(x, [], x)
    ensures Some(m) != x ==> Chain(x, [m], Some(m))
  {
    assert Seed(x) + [] == Seed(x);
  }
}
