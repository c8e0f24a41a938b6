/** The `while True` loop both `main` functions share: one step per round,
    each step sending notifications and updating the loop's variables, until
    a step lets an exception escape. */
module Loop {
  import opened Wrappers
  import opened Exceptions
  import opened Collaborators

  /** One round's notifications, the variables after it, and the exception
      that escaped `main`, if one did. */
  datatype Outcome<S> = Outcome(notifications: seq<Notification>, state: S, crash: Option<PyError>)

  /** What `main` has done after a number of rounds: everything sent, its
      variables, the exception that ended it (if any) and the rounds run. */
  datatype Trace<S> = Trace(notifications: seq<Notification>, state: S, crash: Option<PyError>, rounds: nat)

  /** The rounds run one after the other until one lets an exception escape;
      the rounds after that one never happen. */
  function Run<S, R>(step: (S, R) -> Outcome<S>, s: S, rounds: seq<R>): (t: Trace<S>)
    ensures t.rounds <= |rounds|
    ensures t.crash.None? ==> t.rounds == |rounds|
    decreases |rounds|
  {
    if rounds == [] then Trace([], s, None, 0)
    else
      var t := Run(step, s, rounds[..|rounds| - 1]);
      if t.crash.Some? then t
      else
        var o := step(t.state, rounds[|rounds| - 1]);
        Trace(t.notifications + o.notifications, o.state, o.crash, t.rounds + 1)
  }

  /** One more round, when no exception has escaped yet. */
  lemma RunExtend<S, R>(step: (S, R) -> Outcome<S>, s: S, done: seq<R>, next: R)
    requires Run(step, s, done).crash.None?
    ensures var t := Run(step, s, done);
      var o := step(t.state, next);
      Run(step, s, done + [next]) == Trace(t.notifications + o.notifications, o.state, o.crash, t.rounds + 1)
  {
    assert (done + [next])[..|done|] == done;
  }

  /** The `i`-th round run from the variables the first `i` rounds left:
      its outcome extends the trace by one round. */
  lemma RunNext<S, R>(step: (S, R) -> Outcome<S>, s: S, rounds: seq<R>, i: nat, o: Outcome<S>)
    requires i < |rounds|
    requires Run(step, s, rounds[..i]).crash.None?
    requires o == step(Run(step, s, rounds[..i]).state, rounds[i])
    ensures var t := Run(step, s, rounds[..i]);
      Run(step, s, rounds[..i + 1]) == Trace(t.notifications + o.notifications, o.state, o.crash, i + 1)
  {
    assert rounds[..i + 1] == rounds[..i] + [rounds[i]];
    RunExtend(step, s, rounds[..i], rounds[i]);
  }

  /** Once an exception has escaped, further rounds change nothing. */
  lemma RunFrozen<S, R>(step: (S, R) -> Outcome<S>, s: S, done: seq<R>, next: R)
    requires Run(step, s, done).crash.Some?
    ensures Run(step, s, done + [next]) == Run(step, s, done)
  {
    assert (done + [next])[..|done|] == done;
  }

  lemma {:induction false} RunAfterCrash<S, R>(step: (S, R) -> Outcome<S>, s: S, rounds: seq<R>, i: nat)
    requires i <= |rounds|
    requires Run(step, s, rounds[..i]).crash.Some?
    ensures Run(step, s, rounds) == Run(step, s, rounds[..i])
    decreases |rounds| - i
  {
    if i < |rounds| {
      assert rounds[..i + 1] == rounds[..i] + [rounds[i]];
      RunFrozen(step, s, rounds[..i], rounds[i]);
      RunAfterCrash(step, s, rounds, i + 1);
    } else {
      assert rounds[..i] == rounds;
    }
  }

  /** A slot that every allowed round keeps chained to the texts it sends
      (see `Collaborators.Chain`) stays chained over a whole run of allowed
      rounds, provided the texts of a list of notifications are those of
      its parts. */
  lemma {:induction false} RunKeepsChain<S, R>(step: (S, R) -> Outcome<S>, s: S, rounds: seq<R>,
      slot: S -> Option<string>, texts: seq<Notification> -> seq<string>, allowed: R -> bool)
    requires texts([]) == []
    requires forall a, b :: texts(a + b) == texts(a) + texts(b)
    requires forall st, r :: allowed(r) ==>
      Chain(slot(st), texts(step(st, r).notifications), slot(step(st, r).state))
    requires forall k :: 0 <= k < |rounds| ==> allowed(rounds[k])
    ensures var t := Run(step, s, rounds);
      Chain(slot(s), texts(t.notifications), slot(t.state))
    decreases |rounds|
  {
    if rounds == [] {
      ChainSteps(slot(s), "");
    } else {
      var done := rounds[..|rounds| - 1];
      var last := rounds[|rounds| - 1];
      RunKeepsChain(step, s, done, slot, texts, allowed);
      var t := Run(step, s, done);
      assert rounds == done + [last];
      if t.crash.None? {
        var o := step(t.state, last);
        RunExtend(step, s, done, last);
        assert texts(t.notifications + o.notifications) == texts(t.notifications) + texts(o.notifications);
        ChainCompose(slot(s), texts(t.notifications), slot(t.state), texts(o.notifications), slot(o.state));
      } else {
        RunFrozen(step, s, done, last);
      }
    }
  }
}
