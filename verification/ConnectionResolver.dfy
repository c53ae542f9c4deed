/**
 buildConnectionTokenResolver of packages/db/src/connection-token-resolver.ts as code: each
 piece between two awaits is proved to be one step of the state machine, and `Resolve` strings
 them together in the order of the source, with the rest of the world acting at every await.
 */
module ConnectionResolver {
  import opened Wrappers
  import opened ConnectionRefresh
  import opened ConnectionRefreshTheorems
  import opened ConnectionAnswers

  function Actor(step: Step): Option<CallId> {
    match step
    case Crash(_) => None
    case Create(_, _) => None
    case Change(_, _) => None
    case _ => Some(step.c)
  }

  lemma OthersLeaveTheCall(s: State, step: Step, c: CallId)
    requires Enabled(s, step) && c in s.calls
    requires Actor(step) != Some(c) && step != Crash(s.calls[c].proc)
    ensures c in Apply(s, step).calls && Apply(s, step).calls[c] == s.calls[c]
  {
  }

  class Resolver {
    var rows: map<Id, Row>
    var calls: map<CallId, Caller>
    var inflight: map<(Proc, Instance), CallId>
    var log: Log
    ghost var history: seq<Step>

    function View(): State
      reads this
    {
      State(rows, calls, inflight, log)
    }

    /** The state is what the steps taken so far lead to. */
    ghost predicate Valid()
      reads this
    {
      ValidRun(INIT, history) && Exec(INIT, history) == View()
    }

    twostate predicate Did(step: Step)
      reads this
    {
      && old(Valid()) && Enabled(old(View()), step)
      && Valid() && history == old(history) + [step] && View() == Apply(old(View()), step)
    }

    /** The call has gone on, with the world moving. */
    twostate predicate Reached(c: CallId)
      reads this
    {
      && Valid() && old(history) <= history
      && c in old(calls) && c in calls && calls[c].proc == old(calls[c]).proc
    }

    constructor ()
      ensures Valid() && View() == INIT && history == []
    {
      rows, calls, inflight, log := map[], map[], map[], INIT.log;
      history := [];
    }

    ghost method Record(step: Step)
      requires ValidRun(INIT, history) && Enabled(Exec(INIT, history), step)
      requires View() == Apply(Exec(INIT, history), step)
      modifies this`history
      ensures Valid() && history == old(history) + [step]
    {
      assert ValidRun(Apply(Exec(INIT, history), step), []);
      RunsInSequence(INIT, history, [step]);
      history := history + [step];
    }

    method Move(c: CallId, phase: Phase)
      requires c in calls
      modifies this`calls
      ensures calls == old(calls)[c := old(calls)[c].(phase := phase)]
    {
      calls := calls[c := calls[c].(phase := phase)];
    }

    method Write(id: Id, row: Row)
      modifies this`rows, this`log
      ensures rows == old(rows)[id := row]
      ensures log == old(log).(contents := old(log).contents[Instance(id, row.version) := row.Fixed()],
                               stored := old(log).stored + {Cred(id, row)})
    {
      rows := rows[id := row];
      log := log.(contents := log.contents[Instance(id, row.version) := row.Fixed()],
                  stored := log.stored + {Cred(id, row)});
    }

    // -------------------------------------------------------------- one await

    method LoadCredential(c: CallId, p: Proc, id: Id)
      requires Valid() && c !in calls
      modifies this
      ensures Did(Load(c, p, id))
    {
      var phase := Done(AuthNeeded(MissingConnection));
      if id in rows && rows[id].shared { phase := Loaded(Cred(id, rows[id])); }
      calls := calls[c := Caller(p, None, phase)];
      Record(Load(c, p, id));
    }

    /** The status check, the expiry check and refreshSingleFlight. */
    method RefreshSingleFlight(c: CallId, force: bool, now: int, wanted: set<string>)
      requires Valid() && Enabled(View(), Decide(c, force, now, wanted))
      modifies this
      ensures Did(Decide(c, force, now, wanted))
    {
      var cred := calls[c].phase.cred;
      if cred.row.status != Active {
        Move(c, Done(AuthNeededForStatus(cred.row, now)));
      } else if !ShouldRefresh(cred.row, force, now) {
        Move(c, Done(Snapshot(cred, now, wanted)));
      } else {
        var key := (calls[c].proc, cred.Key());
        if key in inflight {
          Move(c, Joined(cred, inflight[key]));
        } else {
          Move(c, Leading(cred));
          inflight := inflight[key := c];
        }
      }
      Record(Decide(c, force, now, wanted));
    }

    method SendRefreshToken(c: CallId, keyConfigured: bool)
      requires Valid() && Enabled(View(), Send(c, keyConfigured))
      modifies this
      ensures Did(Send(c, keyConfigured))
    {
      var cred := calls[c].phase.cred;
      if keyConfigured { Move(c, Awaiting(cred)); } else { Move(c, Ending(cred, Broken(OtherError))); }
      Record(Send(c, keyConfigured));
    }

    method TakeGrant(c: CallId, next: Secret)
      requires Valid() && Enabled(View(), Grant(c, next))
      modifies this
      ensures Did(Grant(c, next))
    {
      Move(c, Granted(calls[c].phase.cred, next));
      Record(Grant(c, next));
    }

    method TakeRejection(c: CallId, failure: Failure)
      requires Valid() && Enabled(View(), Reject(c, failure))
      modifies this
      ensures Did(Reject(c, failure))
    {
      var cred := calls[c].phase.cred;
      if IsPermanentRefreshError(failure) { log := log.(rejected := log.rejected + {cred.Key()}); }
      Move(c, Ending(cred, Broken(failure)));
      Record(Reject(c, failure));
    }

    /** recordConnectionTokenRefresh: a compare-and-set on (id, version) of an active row. */
    method RecordRefresh(c: CallId, expiresAt: Option<int>, scopes: Option<set<string>>)
      requires Valid() && Enabled(View(), Persist(c, expiresAt, scopes))
      modifies this
      ensures Did(Persist(c, expiresAt, scopes))
    {
      var cred, next := calls[c].phase.cred, calls[c].phase.next;
      var id := cred.id;
      if id in rows && rows[id].version == cred.row.version && rows[id].status == Active {
        var granted := if scopes.Some? then scopes.value else rows[id].scopes;
        Write(id, rows[id].(version := cred.row.version + 1, credential := next, expiresAt := expiresAt, scopes := granted));
        log := log.(persisted := log.persisted + {cred.Key()});
        Move(c, Confirming(cred));
      } else {
        Move(c, Missed(cred));
      }
      Record(Persist(c, expiresAt, scopes));
    }

    method LoadCurrent(c: CallId)
      requires Valid() && Enabled(View(), Confirm(c))
      modifies this
      ensures Did(Confirm(c))
    {
      var cred := calls[c].phase.cred;
      if cred.id in rows && rows[cred.id].shared {
        Move(c, Ending(cred, Fresh(Cred(cred.id, rows[cred.id]))));
      } else {
        Move(c, Missed(cred));
      }
      Record(Confirm(c));
    }

    method LoadWinner(c: CallId)
      requires Valid() && Enabled(View(), AdoptWinner(c))
      modifies this
      ensures Did(AdoptWinner(c))
    {
      var cred := calls[c].phase.cred;
      if cred.id in rows && rows[cred.id].shared && rows[cred.id].status == Active {
        Move(c, Ending(cred, Fresh(Cred(cred.id, rows[cred.id]))));
      } else {
        Move(c, Ending(cred, Broken(OtherError)));
      }
      Record(AdoptWinner(c));
    }

    method Throw(c: CallId)
      requires Valid() && Enabled(View(), Break(c))
      modifies this
      ensures Did(Break(c))
    {
      if calls[c].phase.Stamping? {
        Move(c, Done(AuthNeeded(RefreshFailed)));
      } else {
        Move(c, Ending(calls[c].phase.cred, Broken(OtherError)));
      }
      Record(Break(c));
    }

    /** The promise settles; its in-flight entry goes if it is still this one. */
    method Finally(c: CallId)
      requires Valid() && Enabled(View(), Settle(c))
      modifies this
      ensures Did(Settle(c))
    {
      var cred, result := calls[c].phase.cred, calls[c].phase.result;
      var key := (calls[c].proc, cred.Key());
      if key in inflight && inflight[key] == c { inflight := inflight - {key}; }
      calls := calls[c := calls[c].(promise := Some(result), phase := Settled(cred, result))];
      Record(Settle(c));
    }

    method AfterRefresh(c: CallId, now: int, wanted: set<string>)
      requires Valid() && Enabled(View(), Continue(c, now, wanted))
      modifies this
      ensures Did(Continue(c, now, wanted))
    {
      var cred, result := calls[c].phase.cred, calls[c].phase.result;
      if result.Fresh? {
        Move(c, Done(Snapshot(result.cred, now, wanted)));
      } else if IsPermanentRefreshError(result.failure) {
        Move(c, Stamping(cred, result.failure));
      } else {
        Move(c, Done(AuthNeeded(RefreshFailed)));
      }
      Record(Continue(c, now, wanted));
    }

    /** setConnectionStatus: a compare-and-set on (id, version), whatever the status. */
    method StampNeedsReauth(c: CallId)
      requires Valid() && Enabled(View(), Stamp(c))
      modifies this
      ensures Did(Stamp(c))
    {
      var key := calls[c].phase.cred.Key();
      if key.id in rows && rows[key.id].version == key.version {
        Write(key.id, rows[key.id].(status := NeedsReauth, version := key.version + 1));
      }
      Move(c, Done(AuthNeeded(RefreshFailed)));
      Record(Stamp(c));
    }

    // -------------------------------------------------------------- strung together

    /** One await: any number of steps of other calls, other processes and the outside world;
        the process of the call does not crash. */
    method Await(c: CallId)
      requires Valid() && c in calls
      modifies this
      ensures Valid() && old(history) <= history
      ensures c in calls && calls[c] == old(calls[c])
    {
      hide Exec, ValidRun, Enabled, Apply;
      var n: int := *;
      while 0 < n
        invariant Valid() && old(history) <= history
        invariant c in calls && calls[c] == old(calls[c])
      {
        n := n - 1;
        var step: Step := *;
        if Enabled(View(), step) && Actor(step) != Some(c) && step != Crash(calls[c].proc) {
          var s' := Apply(View(), step);
          OthersLeaveTheCall(View(), step, c);
          rows, calls, inflight, log := s'.rows, s'.calls, s'.inflight, s'.log;
          Record(step);
        }
      }
    }

    method AskEndpoint(c: CallId)
      requires Valid() && c in calls && calls[c].phase.Leading?
      modifies this
      ensures Reached(c) && (calls[c].phase.Granted? || calls[c].phase.Ending?)
    {
      Await(c);
      var keyConfigured: bool := *;
      SendRefreshToken(c, keyConfigured);
      if keyConfigured {
        Await(c);
        var granted: bool := *;
        if granted {
          var next: Secret := *;
          TakeGrant(c, next);
        } else {
          var failure: Failure := *;
          TakeRejection(c, failure);
        }
      }
    }

    method KeepGrant(c: CallId)
      requires Valid() && c in calls && calls[c].phase.Granted?
      modifies this
      ensures Reached(c) && (calls[c].phase.Confirming? || calls[c].phase.Missed? || calls[c].phase.Ending?)
    {
      Await(c);
      var thrown: bool := *;
      if thrown { Throw(c); return; }
      var expiresAt: Option<int>, scopes: Option<set<string>> := *, *;
      RecordRefresh(c, expiresAt, scopes);
    }

    method ReadBack(c: CallId)
      requires Valid() && c in calls && (calls[c].phase.Confirming? || calls[c].phase.Missed?)
      modifies this
      ensures Reached(c) && (calls[c].phase.Missed? || calls[c].phase.Ending?)
      ensures old(calls[c]).phase.Missed? ==> calls[c].phase.Ending?
    {
      Await(c);
      var thrown: bool := *;
      if thrown { Throw(c); } else if calls[c].phase.Confirming? { LoadCurrent(c); } else { LoadWinner(c); }
    }

    /** performRefresh and its cleanup. */
    method PerformRefresh(c: CallId)
      requires Valid() && c in calls && calls[c].phase.Leading?
      modifies this
      ensures Reached(c) && calls[c].phase.Settled?
    {
      hide Exec, ValidRun;
      AskEndpoint(c);
      if calls[c].phase.Granted? { KeepGrant(c); }
      if calls[c].phase.Confirming? { ReadBack(c); }
      if calls[c].phase.Missed? { ReadBack(c); }
      Await(c);
      Finally(c);
    }

    method Conclude(c: CallId, now: int, wanted: set<string>)
      requires Valid() && c in calls && calls[c].phase.Settled?
      modifies this
      ensures Reached(c) && calls[c].phase.Done? && AnsweredFrom(View(), calls[c].phase.out, wanted)
    {
      hide Exec, ValidRun;
      Await(c);
      ghost var past := history;
      AfterRefresh(c, now, wanted);
      HeadersCarryTheScopes(past, Continue(c, now, wanted));
      if calls[c].phase.Stamping? {
        Await(c);
        var thrown: bool := *;
        if thrown { Throw(c); } else { StampNeedsReauth(c); }
      }
    }

    method Start(c: CallId, p: Proc, id: Id, force: bool, now: int, wanted: set<string>)
      requires Valid() && c !in calls
      modifies this
      ensures Valid() && old(history) <= history && c in calls
      ensures calls[c].phase.Done? || calls[c].phase.Joined? || calls[c].phase.Leading?
      ensures calls[c].phase.Done? ==> AnsweredFrom(View(), calls[c].phase.out, wanted)
    {
      hide Exec, ValidRun;
      LoadCredential(c, p, id);
      if calls[c].phase.Loaded? {
        Await(c);
        ghost var past := history;
        RefreshSingleFlight(c, force, now, wanted);
        HeadersCarryTheScopes(past, Decide(c, force, now, wanted));
      }
    }

    /** The resolver: an outcome, or none while the call still waits for the promise it joined.
        The whole of it is a stretch of a run, and headers it returns carry the credential of a
        row that was stored while active with every scope asked for. */
    method Resolve(c: CallId, p: Proc, id: Id, force: bool, now: int, later: int, wanted: set<string>)
      returns (out: Option<Outcome>)
      requires Valid() && c !in calls
      modifies this
      ensures Valid() && old(history) <= history && c in calls
      ensures if out.Some? then calls[c].phase == Done(out.value) else calls[c].phase.Joined?
      ensures out.Some? ==> OutOk(View(), out.value) && AnsweredFrom(View(), out.value, wanted)
    {
      Start(c, p, id, force, now, wanted);
      if calls[c].phase.Leading? {
        PerformRefresh(c);
        Conclude(c, later, wanted);
      }
      HeadersWereStoredActive(history, c);
      out := if calls[c].phase.Done? then Some(calls[c].phase.out) else None;
    }
  }
}
