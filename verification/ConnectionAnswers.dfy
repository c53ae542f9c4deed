/**
 What a call of the connection resolver is answered, and why: by the status, the expiry and the
 scopes of the row it answers from.
 */
module ConnectionAnswers {
  import opened Wrappers
  import opened ConnectionRefresh
  import opened ConnectionRefreshTheorems

  /** Headers are of a row that was stored while active with all the scopes asked for. */
  ghost predicate AnsweredFrom(s: State, out: Outcome, wanted: set<string>) {
    out.Headers? ==>
      exists cred | cred in s.log.stored ::
        && cred.id == out.id && cred.row.credential == out.credential && cred.row.status == Active
        && forall scope | scope in wanted :: scope in cred.row.scopes
  }

  /** What is answered from an active row: its credential if it has every scope asked for. */
  predicate AnswerOfActive(out: Outcome, cred: Cred, wanted: set<string>) {
    if forall scope | scope in wanted :: scope in cred.row.scopes
    then out == Headers(cred.id, cred.row.credential)
    else out == AuthNeeded(InsufficientScope)
  }

  /** What is answered from any other row: a revoked one is missing, an expired one expired. */
  predicate AnswerOfInactive(out: Outcome, row: Row, now: int) {
    && (out == AuthNeeded(MissingConnection) <==> row.status == Revoked)
    && (out == AuthNeeded(Expired) <==> row.status != Revoked && row.expiresAt.Some? && row.expiresAt.value <= now)
    && (out == AuthNeeded(RefreshFailed) <==> row.status != Revoked && (row.expiresAt.Some? ==> now < row.expiresAt.value))
  }

  /** A loaded row that is not active is answered at once; an active OAuth row is refreshed exactly
      when the caller forces it or it expires within a minute; every other is answered from. */
  lemma DecideAnswers(s: State, c: CallId, force: bool, now: int, wanted: set<string>)
    requires Enabled(s, Decide(c, force, now, wanted))
    ensures var cred := s.calls[c].phase.cred;
            var phase := Apply(s, Decide(c, force, now, wanted)).calls[c].phase;
            var refresh := cred.row.status == Active && cred.row.kind == OAuth2
                           && (force || (cred.row.expiresAt.Some? && cred.row.expiresAt.value - now <= 60_000));
            && (refresh <==> phase.Leading? || phase.Joined?)
            && (!refresh <==> phase.Done?)
            && (!refresh && cred.row.status == Active ==> AnswerOfActive(phase.out, cred, wanted))
            && (!refresh && cred.row.status != Active ==> AnswerOfInactive(phase.out, cred.row, now))
  {
  }

  /** A refreshed row is answered from; of failures, exactly the 4xx other than 408 and 429 lead to
      the stamp, and all others leave the row as it is. */
  lemma ContinueAnswers(s: State, c: CallId, now: int, wanted: set<string>)
    requires Enabled(s, Continue(c, now, wanted))
    ensures var result := s.calls[c].phase.result;
            var s' := Apply(s, Continue(c, now, wanted));
            var phase := s'.calls[c].phase;
            && s'.rows == s.rows
            && (phase.Stamping? <==>
                  result.Broken? && result.failure.Http? && 400 <= result.failure.status <= 499
                  && result.failure.status != 408 && result.failure.status != 429)
            && (result.Broken? && !phase.Stamping? ==> phase == Done(AuthNeeded(RefreshFailed)))
            && (result.Fresh? && result.cred.row.status == Active ==>
                  phase.Done? && AnswerOfActive(phase.out, result.cred, wanted))
            && (result.Fresh? && result.cred.row.status != Active ==>
                  phase.Done? && AnswerOfInactive(phase.out, result.cred.row, now))
  {
  }

  /** A rejection is recorded for exactly the 4xx other than 408 and 429. */
  lemma RejectionsAre(s: State, c: CallId, failure: Failure)
    requires Enabled(s, Reject(c, failure))
    ensures var k := s.calls[c].phase.cred.Key();
            k in Apply(s, Reject(c, failure)).log.rejected <==>
              k in s.log.rejected
              || (failure.Http? && 400 <= failure.status <= 499 && failure.status != 408 && failure.status != 429)
    ensures Apply(s, Reject(c, failure)).calls[c].phase == Ending(s.calls[c].phase.cred, Broken(failure))
  {
  }

  /** In every run, a step that answers with headers answers from a row that was stored while
      active, with that credential and every scope asked for. */
  lemma HeadersCarryTheScopes(past: seq<Step>, step: Step)
    requires ValidRun(INIT, past) && Enabled(Exec(INIT, past), step) && (step.Decide? || step.Continue?)
    ensures var s := Exec(INIT, past);
            var phase := Apply(s, step).calls[step.c].phase;
            phase.Done? ==> AnsweredFrom(s, phase.out, step.wanted)
  {
    Reachable(past);
    var s := Exec(INIT, past);
    hide Inv, Exec;
    Known(s, step.c);
    if step.Decide? {
      DecideAnswers(s, step.c, step.force, step.now, step.wanted);
    } else {
      ContinueAnswers(s, step.c, step.now, step.wanted);
    }
    hide Apply;
  }

  /** A refresh fails without the key; the call that led settles with what its refresh ended with, and
      one that joined with what it left as its promise. */
  lemma RefreshesEnd(s: State, step: Step)
    requires Enabled(s, step) && (step.Send? || step.Settle? || step.JoinSettle?)
    ensures var was, now := s.calls[step.c], Apply(s, step).calls[step.c];
            && now.phase.cred == was.phase.cred
            && (step.Send? ==>
                  if step.keyConfigured then now.phase == Awaiting(was.phase.cred)
                  else now.phase == Ending(was.phase.cred, Broken(OtherError)))
            && (step.Settle? ==> now.phase == Settled(was.phase.cred, was.phase.result) && now.promise == Some(was.phase.result))
            && (step.JoinSettle? ==> now.phase.Settled? && Some(now.phase.result) == s.calls[was.phase.leader].promise)
  {
  }

  /** No readable row is a missing connection; a call that stamps or fails to is told the refresh
      failed. */
  lemma OtherAnswers(s: State, step: Step)
    requires Enabled(s, step) && (step.Load? || step.Stamp? || step.Break?)
    ensures var phase := Apply(s, step).calls[step.c].phase;
            && (step.Load? ==>
                  if step.id in s.rows && s.rows[step.id].shared then phase == Loaded(Cred(step.id, s.rows[step.id]))
                  else phase == Done(AuthNeeded(MissingConnection)))
            && (step.Stamp? ==> phase == Done(AuthNeeded(RefreshFailed)))
            && (step.Break? ==>
                  if s.calls[step.c].phase.Stamping? then phase == Done(AuthNeeded(RefreshFailed))
                  else phase == Ending(s.calls[step.c].phase.cred, Broken(OtherError)))
  {
  }

  /** What was stored stays so recorded. */
  lemma StoredStays(s: State, step: Step)
    requires Enabled(s, step)
    ensures s.log.stored <= Apply(s, step).log.stored
  {
  }
}
