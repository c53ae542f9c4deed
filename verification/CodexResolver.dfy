/**
 buildCodexTokenResolver of packages/db/src/codex-token-resolver.ts as code.

 Each method up to a comment `one await` is a piece of code that runs without interruption; it
 is proved to be one step of the state machine.  `Resolve` strings the pieces together in the
 order of the source, with the rest of the world acting at every await.
 */
module CodexResolver {
  import opened Wrappers
  import opened CodexRefresh
  import opened CodexRefreshProofs
  import opened CodexRefreshTheorems

  class Resolver {
    var rows: map<Id, Row>
    var issued: set<Id>
    var locks: map<Id, CallId>
    var staged: map<Id, Row>
    var calls: map<CallId, Caller>
    var inflight: map<(Proc, Instance), CallId>
    var log: Log
    ghost var history: seq<Step>

    function View(): State
      reads this
    {
      State(rows, issued, locks, staged, calls, inflight, log)
    }

    /** The state is what the steps taken so far lead to. */
    ghost predicate Valid()
      reads this
    {
      ValidRun(INIT, history) && Exec(INIT, history) == View()
    }

    twostate predicate Did(step: Step)
      reads this
    {
      && old(Valid()) && Enabled(old(View()), step)
      && Valid() && history == old(history) + [step] && View() == Apply(old(View()), step)
    }

    constructor ()
      ensures Valid() && View() == INIT && history == []
    {
      rows, issued, locks, staged, calls, inflight := map[], {}, map[], map[], map[], map[];
      log := INIT.log;
      history := [];
    }

    ghost method Record(step: Step)
      requires ValidRun(INIT, history) && Enabled(Exec(INIT, history), step)
      requires View() == Apply(Exec(INIT, history), step)
      modifies this`history
      ensures Valid() && history == old(history) + [step]
    {
      assert ValidRun(Apply(Exec(INIT, history), step), []);
      RunsInSequence(INIT, history, [step]);
      history := history + [step];
    }

    method Move(c: CallId, phase: Phase)
      requires c in calls
      modifies this`calls
      ensures calls == old(calls)[c := old(calls)[c].(phase := phase)]
    {
      calls := calls[c := calls[c].(phase := phase)];
    }

    /** The credential is loaded; none is connected, the call ends. */
    method LoadCredential(c: CallId, p: Proc, id: Id)
      requires Valid() && c !in calls
      modifies this
      ensures Did(Load(c, p, id))
    {
      if id in rows {
        calls := calls[c := Caller(p, id, Loaded(Cred(id, rows[id])))];
      } else {
        calls := calls[c := Caller(p, id, Done(ReloginRequired))];
      }
      Record(Load(c, p, id));
    }

    /** A fresh token is returned as it is; otherwise join the refresh of this instance that is
        in flight in this process, or start one. */
    method DoRefresh(c: CallId, stale: bool)
      requires Valid() && Enabled(View(), Decide(c, stale))
      modifies this
      ensures Did(Decide(c, stale))
    {
      var cred := calls[c].phase.cred;
      if !stale {
        Move(c, Done(Token(cred.row.tokens.access)));
      } else {
        var key := (calls[c].proc, cred.Key());
        if key in inflight {
          Move(c, Joined(inflight[key]));
        } else {
          Move(c, Queued(cred));
          inflight := inflight[key := c];
        }
      }
      Record(Decide(c, stale));
    }

    method AcquireLock(c: CallId)
      requires Valid() && Enabled(View(), TakeLock(c))
      modifies this
      ensures Did(TakeLock(c))
    {
      Move(c, Entered(calls[c].phase.cred));
      locks := locks[calls[c].id := c];
      Record(TakeLock(c));
    }

    method GiveUpLock(c: CallId)
      requires Valid() && Enabled(View(), LockTimeout(c))
      modifies this
      ensures Did(LockTimeout(c))
    {
      Move(c, Settling(calls[c].phase.cred, Failed));
      Record(LockTimeout(c));
    }

    /** Under the lock: nothing active is left, another process has refreshed, or go ahead. */
    method RereadUnderLock(c: CallId)
      requires Valid() && Enabled(View(), Reread(c))
      modifies this
      ensures Did(Reread(c))
    {
      var cred, id := calls[c].phase.cred, calls[c].id;
      if id !in rows || rows[id].status != Active {
        Move(c, Leaving(cred, ReloginRequired));
      } else if rows[id].version != cred.row.version {
        Move(c, Leaving(cred, Token(rows[id].tokens.access)));
      } else {
        Move(c, Calling(Cred(id, rows[id])));
      }
      Record(Reread(c));
    }

    method SendRefreshToken(c: CallId)
      requires Valid() && Enabled(View(), Send(c))
      modifies this
      ensures Did(Send(c))
    {
      Move(c, Awaiting(calls[c].phase.cred));
      Record(Send(c));
    }

    method TakeAnswer(c: CallId, answer: Answer)
      requires Valid() && Enabled(View(), Receive(c, answer))
      modifies this
      ensures Did(Receive(c, answer))
    {
      var cred := calls[c].phase.cred;
      match answer {
        case Grant(access, refresh, idToken) =>
          var held := cred.row.tokens;
          var next := Tokens(
            if access.Some? then access.value else held.access,
            if refresh.Some? then refresh.value else held.refresh,
            if idToken.Some? then idToken.value else held.idToken);
          log := log.(outstanding := log.outstanding + {(calls[c].proc, cred.Key())});
          Move(c, Granted(cred, next));
        case Permanent =>
          log := log.(refused := log.refused + {cred.Key()});
          Move(c, Stamping(cred, true));
        case Transient =>
          Move(c, Leaving(cred, Failed));
      }
      Record(Receive(c, answer));
    }

    /** recordCodexTokenRefresh: a compare-and-set on (id, version) of an active row. */
    method RecordRefresh(c: CallId)
      requires Valid() && Enabled(View(), Persist(c))
      modifies this
      ensures Did(Persist(c))
    {
      var cred, next := calls[c].phase.cred, calls[c].phase.next;
      if cred.id in rows && rows[cred.id].version == cred.row.version && rows[cred.id].status == Active {
        staged := staged[cred.id := Row(cred.row.version + 1, Active, next)];
        Move(c, Leaving(cred, Token(next.access)));
      } else {
        Move(c, Missed(cred));
      }
      Record(Persist(c));
    }

    method ReloadAfterMiss(c: CallId)
      requires Valid() && Enabled(View(), Reload(c))
      modifies this
      ensures Did(Reload(c))
    {
      var cred, id := calls[c].phase.cred, calls[c].id;
      if id in rows && rows[id].status == Active {
        Move(c, Leaving(cred, Token(rows[id].tokens.access)));
      } else {
        Move(c, Stamping(cred, false));
      }
      Record(Reload(c));
    }

    /** setCodexCredentialStatus: a compare-and-set on (id, version) of an active row. */
    method StampNeedsRelogin(c: CallId)
      requires Valid() && Enabled(View(), Stamp(c))
      modifies this
      ensures Did(Stamp(c))
    {
      var cred := calls[c].phase.cred;
      if cred.id in rows && rows[cred.id].version == cred.row.version && rows[cred.id].status == Active {
        staged := staged[cred.id := rows[cred.id].(status := NeedsRelogin)];
      }
      Move(c, Leaving(cred, ReloginRequired));
      Record(Stamp(c));
    }

    method ThrowInCallback(c: CallId)
      requires Valid() && Enabled(View(), CallbackError(c))
      modifies this
      ensures Did(CallbackError(c))
    {
      var cred := calls[c].phase.cred;
      if calls[c].phase.Granted? {
        log := log.(outstanding := log.outstanding - {(calls[c].proc, cred.Key())});
      }
      Move(c, Leaving(cred, Failed));
      Record(CallbackError(c));
    }

    method CommitTransaction(c: CallId)
      requires Valid() && Enabled(View(), Commit(c))
      modifies this
      ensures Did(Commit(c))
    {
      hide Exec, ValidRun;
      var id, cred := calls[c].id, calls[c].phase.cred;
      if id in staged {
        var row := staged[id];
        rows := rows[id := row];
        if row.status == Active {
          log := log.(minted := log.minted + {(id, row.tokens.access)}, persisted := log.persisted + {cred.Key()});
        }
      }
      locks, staged := locks - {id}, staged - {id};
      Move(c, Settling(cred, calls[c].phase.out));
      Record(Commit(c));
    }

    method RollBackTransaction(c: CallId)
      requires Valid() && Enabled(View(), CommitFails(c))
      modifies this
      ensures Did(CommitFails(c))
    {
      hide Exec, ValidRun;
      var id, cred := calls[c].id, calls[c].phase.cred;
      if id in staged && staged[id].status == Active {
        log := log.(outstanding := log.outstanding - {(calls[c].proc, cred.Key())});
      }
      locks, staged := locks - {id}, staged - {id};
      Move(c, Settling(cred, Failed));
      Record(CommitFails(c));
    }

    /** The transaction of the lock ends: its staged row becomes visible, or is dropped. */
    method EndTransaction(c: CallId, committed: bool)
      requires Valid() && Enabled(View(), Commit(c))
      modifies this
      ensures Did(if committed then Commit(c) else CommitFails(c))
    {
      if committed { CommitTransaction(c); } else { RollBackTransaction(c); }
    }

    /** The promise settles; its in-flight entry goes if it is still this one. */
    method Finally(c: CallId)
      requires Valid() && Enabled(View(), Settle(c))
      modifies this
      ensures Did(Settle(c))
    {
      var key := (calls[c].proc, calls[c].phase.cred.Key());
      if key in inflight && inflight[key] == c {
        inflight := inflight - {key};
      }
      Move(c, Done(calls[c].phase.out));
      Record(Settle(c));
    }

    // -------------------------------------------------------------- strung together

    /** One await: any number of steps of other calls, other processes and the outside world;
        the process of the call does not crash. */
    method Await(c: CallId)
      requires Valid() && c in calls
      modifies this
      ensures Valid() && old(history) <= history
      ensures c in calls && calls[c] == old(calls[c])
    {
      hide Exec, ValidRun;
      var n: int := *;
      while 0 < n
        invariant Valid() && old(history) <= history
        invariant c in calls && calls[c] == old(calls[c])
      {
        n := n - 1;
        var step: Step := *;
        if Enabled(View(), step) && Actor(step) != Some(c) && step != Crash(calls[c].proc) {
          var s' := Apply(View(), step);
          OnlyTheActorMoves(View(), step, c);
          rows, issued, locks, staged, calls, inflight, log :=
            s'.rows, s'.issued, s'.locks, s'.staged, s'.calls, s'.inflight, s'.log;
          Record(step);
        }
      }
    }

    /** The rest of a call, from one of its phases to another, with the world moving on. */
    twostate predicate Reached(c: CallId)
      reads this
    {
      && Valid() && old(history) <= history
      && c in old(calls) && c in calls && calls[c].id == old(calls[c]).id
    }

    method AskProvider(c: CallId)
      requires Valid() && c in calls && calls[c].phase.Calling?
      modifies this
      ensures Reached(c)
      ensures calls[c].phase.Granted? || calls[c].phase.Stamping? || calls[c].phase.Leaving?
    {
      hide Exec, ValidRun;
      SendRefreshToken(c);
      Await(c);
      var answer: Answer := *;
      TakeAnswer(c, answer);
    }

    method KeepAnswer(c: CallId)
      requires Valid() && c in calls && calls[c].phase.Granted?
      modifies this
      ensures Reached(c) && (calls[c].phase.Stamping? || calls[c].phase.Leaving?)
    {
      hide Exec, ValidRun, ApplyDecide, ApplyCommit, ApplyCommitFails, ApplySettle;
      Await(c);
      var keyMissing: bool := *;
      if keyMissing { ThrowInCallback(c); return; }
      RecordRefresh(c);
      if calls[c].phase.Missed? { AdoptTheWinner(c); }
    }

    method AdoptTheWinner(c: CallId)
      requires Valid() && c in calls && calls[c].phase.Missed?
      modifies this
      ensures Reached(c) && (calls[c].phase.Stamping? || calls[c].phase.Leaving?)
    {
      hide Exec, ValidRun;
      Await(c);
      var thrown: bool := *;
      if thrown { ThrowInCallback(c); } else { ReloadAfterMiss(c); }
    }

    method HandleRefusal(c: CallId)
      requires Valid() && c in calls && calls[c].phase.Stamping?
      modifies this
      ensures Reached(c) && calls[c].phase.Leaving?
    {
      Await(c);
      var thrown: bool := *;
      if thrown { ThrowInCallback(c); } else { StampNeedsRelogin(c); }
    }

    /** performRefresh, every database call of which may throw. */
    method PerformRefresh(c: CallId)
      requires Valid() && c in calls && calls[c].phase.Calling?
      modifies this
      ensures Reached(c) && calls[c].phase.Leaving?
    {
      AskProvider(c);
      if calls[c].phase.Granted? { KeepAnswer(c); }
      if calls[c].phase.Stamping? { HandleRefusal(c); }
    }

    /** The callback of the lock: it never throws, so its transaction can commit. */
    method Callback(c: CallId)
      requires Valid() && c in calls && calls[c].phase.Entered?
      modifies this
      ensures Reached(c) && calls[c].phase.Leaving?
    {
      hide Exec, ValidRun;
      Await(c);
      var thrown: bool := *;
      if thrown { ThrowInCallback(c); return; }
      RereadUnderLock(c);
      if calls[c].phase.Calling? { PerformRefresh(c); }
    }

    method Commits(c: CallId)
      requires Valid() && c in calls && calls[c].phase.Leaving?
      modifies this
      ensures Reached(c) && calls[c].phase.Settling?
    {
      Await(c);
      var committed: bool := *;
      EndTransaction(c, committed);
    }

    method WaitForLock(c: CallId)
      requires Valid() && c in calls && calls[c].phase.Queued?
      modifies this
      ensures Reached(c) && (calls[c].phase.Entered? || calls[c].phase.Settling?)
    {
      Await(c);
      var granted: bool := *;
      if granted && calls[c].id !in locks { AcquireLock(c); } else { GiveUpLock(c); }
    }

    /** The promise behind an in-flight entry: the refresh under the lock, then its cleanup. */
    method RefreshUnderLock(c: CallId)
      requires Valid() && c in calls && calls[c].phase.Queued?
      modifies this
      ensures Reached(c) && calls[c].phase.Done?
    {
      WaitForLock(c);
      if calls[c].phase.Entered? {
        Callback(c);
        Commits(c);
      }
      Await(c);
      Finally(c);
    }

    /** `resolve`: an outcome, or none while the call still waits for the promise it joined.  The
        whole of it is a stretch of a run, and a token it returns was committed for this
        credential. */
    method Resolve(c: CallId, p: Proc, id: Id, stale: bool) returns (out: Option<Outcome>)
      requires Valid() && c !in calls
      modifies this
      ensures Valid() && old(history) <= history && c in calls && calls[c].id == id
      ensures if out.Some? then calls[c].phase == Done(out.value) else calls[c].phase.Joined?
      ensures out.Some? && out.value.Token? ==> (id, out.value.access) in log.minted
    {
      hide Exec, ValidRun;
      LoadCredential(c, p, id);
      if calls[c].phase.Loaded? {
        Await(c);
        DoRefresh(c, stale);
        if calls[c].phase.Queued? { RefreshUnderLock(c); }
      }
      ReturnedTokensWereCommitted(history, c);
      out := if calls[c].phase.Done? then Some(calls[c].phase.out) else None;
    }
  }
}
