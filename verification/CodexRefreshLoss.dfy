/**
 How the Codex resolver comes to send a one-time token twice: a crash or a database failure drops
 the tokens the provider granted before they are committed, and the row stays at the instance
 whose token is spent.
 */
module CodexRefreshLoss {
  import opened Wrappers
  import opened CodexRefresh
  import opened CodexRefreshProofs
  import opened CodexRefreshTheorems

  // ---------------------------------------------------------------- every loss

  /** Call `c` of process `p` has the tokens granted for `k` in hand: not yet written, or staged. */
  ghost predicate InHandOf(s: State, c: CallId, p: Proc, k: Instance) {
    && c in s.calls && s.calls[c].proc == p
    && (s.calls[c].phase.Granted?
        || (s.calls[c].phase.Leaving? && s.calls[c].id in s.staged && s.staged[s.calls[c].id].status == Active))
    && s.calls[c].phase.cred.Key() == k
  }

  /** A call that waits for the lock to refresh instance `k`. */
  ghost predicate WaitsFor(s: State, next: CallId, k: Instance) {
    next in s.calls && s.calls[next].phase.Queued? && s.calls[next].phase.cred.Key() == k && s.calls[next].id == k.id
  }

  /** What ends the transaction after the loss: a callback that threw still has to commit. */
  function Ending(loss: Step, c: CallId): seq<Step> {
    if loss.CallbackError? then [Commit(c)] else []
  }

  lemma StepFirst(s: State, step: Step, rest: seq<Step>)
    requires Enabled(s, step) && ValidRun(Apply(s, step), rest)
    ensures ValidRun(s, [step] + rest) && Exec(s, [step] + rest) == Exec(Apply(s, step), rest)
  {
    assert ([step] + rest)[1..] == rest;
  }

  /** With the lock free and the row current, the next call sends the token. */
  lemma NextSends(s: State, next: CallId, k: Instance)
    requires WaitsFor(s, next, k) && k.id !in s.locks && Matches(s.rows, k)
    ensures var run := [TakeLock(next)] + ([Reread(next)] + []);
            ValidRun(s, run) && Sends(Exec(s, run), Send(next), k)
  {
    var locked := Apply(s, TakeLock(next));
    var reread := Apply(locked, Reread(next));
    assert reread.calls[next].phase == Calling(Cred(k.id, s.rows[k.id]));
    StepFirst(locked, Reread(next), []);
    StepFirst(s, TakeLock(next), [Reread(next)] + []);
  }

  lemma CallbackLoss(s: State, c: CallId, p: Proc, k: Instance, next: CallId)
    requires Inv(s) && InHandOf(s, c, p, k) && Matches(s.rows, k) && WaitsFor(s, next, k)
    requires Drops(s, CallbackError(c), p, k)
    ensures var thrown := Apply(s, CallbackError(c));
            && Enabled(thrown, Commit(c))
            && var end := Apply(thrown, Commit(c)); WaitsFor(end, next, k) && k.id !in end.locks && Matches(end.rows, k)
  {
    assert CallOk(s, c) && CallOk(s, next);
    assert k.id in s.staged ==> StagedOk(s, k.id);
  }

  lemma CommitLoss(s: State, c: CallId, p: Proc, k: Instance, next: CallId)
    requires Inv(s) && InHandOf(s, c, p, k) && Matches(s.rows, k) && WaitsFor(s, next, k)
    requires Drops(s, CommitFails(c), p, k)
    ensures var end := Apply(s, CommitFails(c)); WaitsFor(end, next, k) && k.id !in end.locks && Matches(end.rows, k)
  {
    assert CallOk(s, c);
  }

  lemma CrashLoss(s: State, c: CallId, p: Proc, k: Instance, next: CallId)
    requires Inv(s) && InHandOf(s, c, p, k) && Matches(s.rows, k) && WaitsFor(s, next, k) && s.calls[next].proc != p
    ensures var end := Apply(s, Crash(p)); WaitsFor(end, next, k) && k.id !in end.locks && Matches(end.rows, k)
  {
    assert CallOk(s, c);
    assert HeldBy(s, k.id, p);
  }

  /** Whichever way the granted tokens are lost, by a callback that throws, a commit that fails or
      a crash, the row stays committed at the spent instance, the lock gets free, and a surviving
      call that waits for it finds the row current and can send the spent token. */
  lemma ALostGrantLeavesTheSpentRow(past: seq<Step>, c: CallId, p: Proc, k: Instance, loss: Step, next: CallId)
    requires ValidRun(INIT, past) && InHandOf(Exec(INIT, past), c, p, k) && Matches(Exec(INIT, past).rows, k)
    requires Drops(Exec(INIT, past), loss, p, k) && (loss == CallbackError(c) || loss == CommitFails(c) || loss == Crash(p))
    requires WaitsFor(Exec(INIT, past), next, k) && (loss.Crash? ==> Exec(INIT, past).calls[next].proc != p)
    ensures var s := Exec(INIT, past);
            var run := [loss] + (Ending(loss, c) + ([TakeLock(next)] + ([Reread(next)] + [])));
            ValidRun(s, run) && Sends(Exec(s, run), Send(next), k)
  {
    Reachable(past);
    var s := Exec(INIT, past);
    var lost := Apply(s, loss);
    var resend := [TakeLock(next)] + ([Reread(next)] + []);
    if loss.CallbackError? {
      CallbackLoss(s, c, p, k, next);
      NextSends(Apply(lost, Commit(c)), next, k);
      StepFirst(lost, Commit(c), resend);
    } else {
      if loss.Crash? { CrashLoss(s, c, p, k, next); } else { CommitLoss(s, c, p, k, next); }
      NextSends(lost, next, k);
      assert Ending(loss, c) + resend == resend;
    }
    StepFirst(s, loss, Ending(loss, c) + resend);
  }

  // ---------------------------------------------------------------- one such run

  const ROW := Row(1, Active, Tokens(10, 20, 30))
  const CRED := Cred(0, ROW)
  const GRANT := Grant(Some(11), Some(21), None)

  const BOTH_QUEUE: seq<Step> := [Connect(0, ROW.tokens)] + LOADS + DECIDES
  const LOADS: seq<Step> := [Load(1, 1, 0), Load(2, 2, 0)]
  const DECIDES: seq<Step> := [Decide(1, true), Decide(2, true)]
  const FIRST_ENTERS: seq<Step> := [TakeLock(1), Reread(1)]

  /** Row 0 is connected, and two calls of two processes are about it. */
  function Two(one: Phase, two: Phase, locks: map<Id, CallId>, inflight: map<(Proc, Instance), CallId>): State {
    State(map[0 := ROW], {0}, locks, map[], map[1 := Caller(1, 0, one), 2 := Caller(2, 0, two)], inflight,
          Log({(0, 10)}, {}, {}, {}))
  }

  const BOTH_LEAD := map[(1, CRED.Key()) := 1, (2, CRED.Key()) := 2]

  lemma BothLoad()
    ensures ValidRun(INIT, [Connect(0, ROW.tokens)] + LOADS)
    ensures Exec(INIT, [Connect(0, ROW.tokens)] + LOADS) == Two(Loaded(CRED), Loaded(CRED), map[], map[])
  {
    var connected := Apply(INIT, Connect(0, ROW.tokens));
    assert connected.rows == map[0 := ROW] && connected.issued == {0} && connected.log.minted == {(0, 10)};
    var loaded := Apply(connected, LOADS[0]);
    assert loaded.calls == map[1 := Caller(1, 0, Loaded(CRED))];
    var both := Apply(loaded, LOADS[1]);
    assert both == Two(Loaded(CRED), Loaded(CRED), map[], map[]);
    StepFirst(loaded, LOADS[1], []);
    StepFirst(connected, LOADS[0], [LOADS[1]] + []);
    assert LOADS == [LOADS[0]] + ([LOADS[1]] + []);
    StepFirst(INIT, Connect(0, ROW.tokens), LOADS);
  }

  lemma BothDecide()
    ensures ValidRun(Two(Loaded(CRED), Loaded(CRED), map[], map[]), DECIDES)
    ensures Exec(Two(Loaded(CRED), Loaded(CRED), map[], map[]), DECIDES) == Two(Queued(CRED), Queued(CRED), map[], BOTH_LEAD)
  {
    var s := Two(Loaded(CRED), Loaded(CRED), map[], map[]);
    var once := Apply(s, DECIDES[0]);
    assert once == Two(Queued(CRED), Loaded(CRED), map[], map[(1, CRED.Key()) := 1]);
    assert Apply(once, DECIDES[1]) == Two(Queued(CRED), Queued(CRED), map[], BOTH_LEAD);
    StepFirst(once, DECIDES[1], []);
    StepFirst(s, DECIDES[0], [DECIDES[1]] + []);
    assert DECIDES == [DECIDES[0]] + ([DECIDES[1]] + []);
  }

  lemma FirstEnters()
    ensures ValidRun(Two(Queued(CRED), Queued(CRED), map[], BOTH_LEAD), FIRST_ENTERS)
    ensures Exec(Two(Queued(CRED), Queued(CRED), map[], BOTH_LEAD), FIRST_ENTERS)
            == Two(Calling(CRED), Queued(CRED), map[0 := 1], BOTH_LEAD)
  {
    var s := Two(Queued(CRED), Queued(CRED), map[], BOTH_LEAD);
    var entered := Apply(s, FIRST_ENTERS[0]);
    assert entered == Two(Entered(CRED), Queued(CRED), map[0 := 1], BOTH_LEAD);
    assert Apply(entered, FIRST_ENTERS[1]) == Two(Calling(CRED), Queued(CRED), map[0 := 1], BOTH_LEAD);
    StepFirst(entered, FIRST_ENTERS[1], []);
    StepFirst(s, FIRST_ENTERS[0], [FIRST_ENTERS[1]] + []);
    assert FIRST_ENTERS == [FIRST_ENTERS[0]] + ([FIRST_ENTERS[1]] + []);
  }

  lemma FirstIsCalling()
    ensures ValidRun(INIT, BOTH_QUEUE + FIRST_ENTERS)
    ensures Exec(INIT, BOTH_QUEUE + FIRST_ENTERS) == Two(Calling(CRED), Queued(CRED), map[0 := 1], BOTH_LEAD)
  {
    BothLoad();
    BothDecide();
    FirstEnters();
    RunsInSequence(INIT, [Connect(0, ROW.tokens)] + LOADS, DECIDES);
    RunsInSequence(INIT, BOTH_QUEUE, FIRST_ENTERS);
  }

  lemma FirstIsGranted(s: State)
    requires s == Two(Calling(CRED), Queued(CRED), map[0 := 1], BOTH_LEAD)
    ensures Sends(s, Send(1), CRED.Key()) && Grants(Apply(s, Send(1)), Receive(1, GRANT), 1, CRED.Key())
    ensures var t := Apply(Apply(s, Send(1)), Receive(1, GRANT));
            && InHandOf(t, 1, 1, CRED.Key()) && Matches(t.rows, CRED.Key()) && WaitsFor(t, 2, CRED.Key())
            && Drops(t, CallbackError(1), 1, CRED.Key())
  {
  }

  /** A run of two calls in two processes that sends one refresh token twice: the first is granted
      new tokens, its callback throws before they are written, and the second sends. */
  lemma ATokenIsSentTwice() returns (past: seq<Step>, resend: seq<Step>)
    ensures ValidRun(INIT, past) && Sends(Exec(INIT, past), Send(1), CRED.Key())
    ensures var sent := Apply(Exec(INIT, past), Send(1));
            && Grants(sent, Receive(1, GRANT), 1, CRED.Key())
            && ValidRun(Apply(sent, Receive(1, GRANT)), resend)
            && Sends(Exec(Apply(sent, Receive(1, GRANT)), resend), Send(2), CRED.Key())
  {
    past := BOTH_QUEUE + FIRST_ENTERS;
    FirstIsCalling();
    var s := Exec(INIT, past);
    FirstIsGranted(s);
    var grant := [Send(1)] + ([Receive(1, GRANT)] + []);
    StepFirst(Apply(s, Send(1)), Receive(1, GRANT), []);
    StepFirst(s, Send(1), [Receive(1, GRANT)] + []);
    RunsInSequence(INIT, past, grant);
    ALostGrantLeavesTheSpentRow(past + grant, 1, 1, CRED.Key(), CallbackError(1), 2);
    resend := [CallbackError(1)] + (Ending(CallbackError(1), 1) + ([TakeLock(2)] + ([Reread(2)] + [])));
  }
}
