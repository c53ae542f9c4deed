/**
 Which tokens a rotation stores, and which the next refresh sends: what the provider named, and of
 what it did not name, what was held.
 */
module CodexRefreshTokens {
  import opened Wrappers
  import opened CodexRefresh
  import opened CodexRefreshProofs
  import opened CodexRefreshTheorems

  // ---------------------------------------------------------------- from the grant to the commit

  /** Call `c` can write nothing any more. */
  predicate Spent(s: State, c: CallId)
    requires c in s.calls
  {
    var phase := s.calls[c].phase;
    || phase.Missed? || phase.Settling? || phase.Done? || phase.Dead?
    || (phase.Stamping? && !phase.refused)
    || (phase.Leaving? && (s.calls[c].id !in s.staged || s.staged[s.calls[c].id].status != Active))
  }

  /** Call `c` still has the rotation of `cred` to `next`, unwritten or staged, or can write nothing. */
  predicate Carries(s: State, c: CallId, cred: Cred, next: Tokens) {
    && c in s.calls && s.calls[c].id == cred.id
    && (Spent(s, c)
        || s.calls[c].phase == Granted(cred, next)
        || (s.calls[c].phase == Leaving(cred, Token(next.access)) && cred.id in s.staged
            && s.staged[cred.id] == Row(cred.row.version + 1, Active, next)))
  }

  /** While a call holds the lock, only its own steps and the end of its process change what is
      staged for its row. */
  lemma OthersLeaveStaged(s: State, step: Step, c: CallId)
    requires Inv(s) && Enabled(s, step) && c in s.calls && s.calls[c].phase.Locked()
    requires Actor(step) != Some(c) && step != Crash(s.calls[c].proc)
    ensures var s' := Apply(s, step);
            var id := s.calls[c].id;
            && (id in s'.staged <==> id in s.staged)
            && (id in s.staged ==> s'.staged[id] == s.staged[id])
  {
    hide Inv, ApplyPersist, ApplyStamp, ApplyCommit, ApplyCommitFails;
    Known(s, c);
    Frame(s, step);
    var id := s.calls[c].id;
    match step
    case Persist(d) =>
      Known(s, d);
      PersistMoves(s, d);
      assert id in s.staged <==> id in s.staged - {s.calls[d].phase.cred.id};
      assert id in Apply(s, step).staged <==> id in Apply(s, step).staged - {s.calls[d].phase.cred.id};
    case Stamp(d) =>
      Known(s, d);
      StampMoves(s, d);
      assert id in s.staged <==> id in s.staged - {s.calls[d].phase.cred.id};
      assert id in Apply(s, step).staged <==> id in Apply(s, step).staged - {s.calls[d].phase.cred.id};
    case Commit(d) => Known(s, d); CommitMoves(s, d);
    case CommitFails(d) => Known(s, d); CommitFailsMoves(s, d);
    case _ =>
  }

  lemma OthersKeepCarrying(s: State, step: Step, c: CallId, cred: Cred, next: Tokens)
    requires Inv(s) && Enabled(s, step) && Carries(s, c, cred, next)
    requires Actor(step) != Some(c) && step != Crash(s.calls[c].proc)
    ensures Carries(Apply(s, step), c, cred, next)
  {
    hide Inv, Apply;
    OnlyTheActorMoves(s, step, c);
    if s.calls[c].phase.Leaving? { OthersLeaveStaged(s, step, c); }
  }

  lemma CrashKeepsCarrying(s: State, p: Proc, c: CallId, cred: Cred, next: Tokens)
    requires Carries(s, c, cred, next) && s.calls[c].proc == p
    ensures Carries(Apply(s, Crash(p)), c, cred, next)
  {
  }

  /** A call that has not staged anything finds nothing staged for its row. */
  lemma NothingStaged(s: State, c: CallId)
    requires Inv(s) && c in s.calls && s.calls[c].phase.Locked() && !s.calls[c].phase.Leaving?
    ensures s.calls[c].id !in s.staged && s.calls[c].phase.cred.id == s.calls[c].id
  {
    hide Inv;
    Known(s, c);
    KnownStaged(s, s.calls[c].id);
  }

  lemma PersistCarries(s: State, c: CallId, cred: Cred, next: Tokens)
    requires Inv(s) && Enabled(s, Persist(c)) && Carries(s, c, cred, next)
    ensures Carries(Apply(s, Persist(c)), c, cred, next)
  {
    NothingStaged(s, c);
    hide Inv;
  }

  lemma StampCarries(s: State, c: CallId, cred: Cred, next: Tokens)
    requires Inv(s) && Enabled(s, Stamp(c)) && Carries(s, c, cred, next)
    ensures Carries(Apply(s, Stamp(c)), c, cred, next)
  {
    NothingStaged(s, c);
    hide Inv;
    Known(s, c);
  }

  lemma ErrorCarries(s: State, c: CallId, cred: Cred, next: Tokens)
    requires Inv(s) && Enabled(s, CallbackError(c)) && Carries(s, c, cred, next)
    ensures Carries(Apply(s, CallbackError(c)), c, cred, next)
  {
    NothingStaged(s, c);
    hide Inv;
  }

  lemma ReloadCarries(s: State, c: CallId, cred: Cred, next: Tokens)
    requires Inv(s) && Enabled(s, Reload(c)) && Carries(s, c, cred, next)
    ensures Carries(Apply(s, Reload(c)), c, cred, next)
  {
    NothingStaged(s, c);
    hide Inv;
  }

  lemma EndCarries(s: State, step: Step, c: CallId, cred: Cred, next: Tokens)
    requires Enabled(s, step) && Carries(s, c, cred, next)
    requires step == Commit(c) || step == CommitFails(c) || step == Settle(c) || step == JoinSettle(c)
    ensures Carries(Apply(s, step), c, cred, next)
  {
  }

  lemma StepCarries(s: State, step: Step, c: CallId, cred: Cred, next: Tokens)
    requires Inv(s) && Enabled(s, step) && Carries(s, c, cred, next)
    ensures Carries(Apply(s, step), c, cred, next)
  {
    if Actor(step) != Some(c) {
      hide *;
      if step == Crash(s.calls[c].proc) {
        CrashKeepsCarrying(s, s.calls[c].proc, c, cred, next);
      } else {
        OthersKeepCarrying(s, step, c, cred, next);
      }
    } else {
      hide Apply, Inv;
      match step
      case Persist(_) => PersistCarries(s, c, cred, next);
      case Reload(_) => ReloadCarries(s, c, cred, next);
      case Stamp(_) => StampCarries(s, c, cred, next);
      case CallbackError(_) => ErrorCarries(s, c, cred, next);
      case Commit(_) => EndCarries(s, step, c, cred, next);
      case CommitFails(_) => EndCarries(s, step, c, cred, next);
      case Settle(_) => EndCarries(s, step, c, cred, next);
      case JoinSettle(_) => EndCarries(s, step, c, cred, next);
      case _ =>
    }
  }

  lemma {:induction false} RunCarries(s: State, steps: seq<Step>, c: CallId, cred: Cred, next: Tokens)
    requires Inv(s) && ValidRun(s, steps) && Carries(s, c, cred, next)
    ensures Carries(Exec(s, steps), c, cred, next) && Inv(Exec(s, steps))
    decreases |steps|
  {
    if steps != [] {
      hide Inv, Apply, Carries;
      StepCarries(s, steps[0], c, cred, next);
      StepKeeps(s, steps[0]);
      RunCarries(Apply(s, steps[0]), steps[1..], c, cred, next);
    }
  }

  /** `row` holds each token that `answer` names, and the held one of each that it does not. */
  predicate Rotated(row: Tokens, held: Tokens, answer: Answer)
    requires answer.Grant?
  {
    && row.access == (match answer.access case Some(t) => t case None => held.access)
    && row.refresh == (match answer.refresh case Some(t) => t case None => held.refresh)
    && row.idToken == (match answer.idToken case Some(t) => t case None => held.idToken)
  }

  lemma GrantIsCarried(s: State, grant: Step)
    requires Inv(s) && grant.Receive? && Enabled(s, grant) && grant.answer.Grant?
    ensures var cred := s.calls[grant.c].phase.cred;
            var s' := Apply(s, grant);
            && s'.calls[grant.c].phase.Granted? && Carries(s', grant.c, cred, s'.calls[grant.c].phase.next)
            && Rotated(s'.calls[grant.c].phase.next, cred.row.tokens, grant.answer)
  {
    hide Inv;
    Known(s, grant.c);
  }

  lemma CommitStores(s: State, c: CallId, k: Instance, cred: Cred, next: Tokens)
    requires Inv(s) && Carries(s, c, cred, next) && Persists(s, Commit(c), k)
    ensures k == cred.Key() && s.calls[c].phase.out == Token(next.access)
    ensures var s' := Apply(s, Commit(c));
            k.id in s'.rows && s'.rows[k.id] == Row(k.version + 1, Active, next)
  {
  }

  /** When a call receives a grant, and the commit of its transaction stores a rotation, whatever
      runs in between, the row is active at the next version with the tokens of the answer, the
      ones it left out kept from those the call held; and the call is given the new access token. */
  lemma ARotationStoresWhatWasGranted(past: seq<Step>, grant: Step, between: seq<Step>, k: Instance)
    requires ValidRun(INIT, past) && grant.Receive? && Enabled(Exec(INIT, past), grant) && grant.answer.Grant?
    requires ValidRun(Apply(Exec(INIT, past), grant), between)
    requires Persists(Exec(Apply(Exec(INIT, past), grant), between), Commit(grant.c), k)
    ensures var s := Exec(INIT, past);
            var t := Exec(Apply(s, grant), between);
            var rows := Apply(t, Commit(grant.c)).rows;
            && k == s.calls[grant.c].phase.cred.Key()
            && k.id in rows && rows[k.id].version == k.version + 1 && rows[k.id].status == Active
            && Rotated(rows[k.id].tokens, s.calls[grant.c].phase.cred.row.tokens, grant.answer)
            && t.calls[grant.c].phase.out == Token(rows[k.id].tokens.access)
  {
    hide Inv, Apply;
    var s := Exec(INIT, past);
    var cred, s' := s.calls[grant.c].phase.cred, Apply(s, grant);
    Reachable(past);
    StepKeeps(s, grant);
    GrantIsCarried(s, grant);
    var next := s'.calls[grant.c].phase.next;
    RunCarries(s', between, grant.c, cred, next);
    CommitStores(Exec(s', between), grant.c, k, cred, next);
  }

  // ---------------------------------------------------------------- from the commit to the next send

  /** Whatever is, or is held, at instance `k` has the tokens `tokens`. */
  ghost predicate Holds(s: State, k: Instance, tokens: Tokens) {
    && k.id in s.issued
    && (k.id in s.rows ==> k.version <= s.rows[k.id].version)
    && (k.id in s.rows && s.rows[k.id].version == k.version ==> s.rows[k.id].tokens == tokens)
    && (forall c | c in s.calls :: CallHolds(s.calls[c], k, tokens))
    && (k.id in s.staged && s.staged[k.id].version == k.version ==> s.staged[k.id].tokens == tokens)
  }

  ghost predicate CallHolds(caller: Caller, k: Instance, tokens: Tokens) {
    (caller.phase.Loaded? || caller.phase.Leading()) && caller.phase.cred.Key() == k ==> caller.phase.cred.row.tokens == tokens
  }

  lemma CallKeepsHolding(s: State, step: Step, k: Instance, tokens: Tokens, c: CallId)
    requires Inv(s) && Enabled(s, step) && Holds(s, k, tokens) && c in Apply(s, step).calls
    requires Actor(step) == Some(c)
    ensures CallHolds(Apply(s, step).calls[c], k, tokens)
  {
    hide Inv;
    if step.Load? || step.Reread? || step.Decide? {
      hide Apply, Holds;
      FromTheRow(s, step, k, tokens, c);
    } else {
      hide Apply;
      KeptCred(s, step, c);
    }
  }

  /** A call that loads, re-reads or decides holds what is stored, or what it held. */
  lemma FromTheRow(s: State, step: Step, k: Instance, tokens: Tokens, c: CallId)
    requires Inv(s) && Enabled(s, step) && Holds(s, k, tokens) && c in Apply(s, step).calls
    requires Actor(step) == Some(c) && (step.Load? || step.Reread? || step.Decide?)
    ensures CallHolds(Apply(s, step).calls[c], k, tokens)
  {
    hide Inv, ApplyReceive, ApplyPersist, ApplyReload, ApplyStamp, ApplyCallbackError, ApplyCommit, ApplyCommitFails, ApplySettle;
    if step.Load? {
      hide ApplyReread, ApplyDecide;
    } else {
      Known(s, c);
      if step.Reread? { hide ApplyLoad, ApplyDecide; } else { hide ApplyLoad, ApplyReread; }
    }
  }

  /** Every other step of a call keeps the credential it holds, or ends with none. */
  lemma KeptCred(s: State, step: Step, c: CallId)
    requires Enabled(s, step) && Actor(step) == Some(c) && !step.Load? && !step.Reread? && !step.Decide?
    ensures c in s.calls && c in Apply(s, step).calls
    ensures var was, now := s.calls[c].phase, Apply(s, step).calls[c].phase;
            && (now.Loaded? || now.Leading() ==> was.Leading() && now.cred == was.cred)
  {
    if step.Receive? || step.Persist? || step.Reload? {
      hide ApplyStamp, ApplyCallbackError, ApplyCommit, ApplyCommitFails, ApplySettle, ApplyCrash, ApplyReread, ApplyDecide;
    } else {
      hide ApplyReceive, ApplyPersist, ApplyReload, ApplyCrash, ApplyReread, ApplyDecide;
    }
  }

  lemma RowKeepsHolding(s: State, step: Step, k: Instance, tokens: Tokens)
    requires Inv(s) && Enabled(s, step) && Holds(s, k, tokens)
    requires step.Commit? || step.Connect? || step.Reconnect? || step.Disconnect? || step.Quarantine?
    ensures var s' := Apply(s, step);
            && k.id in s'.issued
            && (k.id in s'.rows ==> k.version <= s'.rows[k.id].version)
            && (k.id in s'.rows && s'.rows[k.id].version == k.version ==> s'.rows[k.id].tokens == tokens)
  {
    hide Inv, CallHolds;
    if step.Commit? {
      Known(s, step.c);
      KnownStaged(s, s.calls[step.c].id);
    }
  }

  lemma IssuedStays(s: State, step: Step)
    requires Enabled(s, step)
    ensures s.issued <= Apply(s, step).issued
    ensures forall c | c in Apply(s, step).calls && Actor(step) != Some(c) :: c in s.calls
  {
    hide ApplyReread, ApplyReceive, ApplyPersist, ApplyReload, ApplyStamp, ApplyCallbackError, ApplyCommit, ApplyCommitFails, ApplySettle, ApplyDecide;
    match step
    case Reread(d) => RereadMoves(s, d);
    case Receive(d, answer) => ReceiveMoves(s, d, answer);
    case Persist(d) => PersistMoves(s, d);
    case Reload(d) => ReloadMoves(s, d);
    case Stamp(d) => StampMoves(s, d);
    case CallbackError(d) => CallbackErrorMoves(s, d);
    case Commit(d) => CommitMoves(s, d);
    case CommitFails(d) => CommitFailsMoves(s, d);
    case Settle(d) => SettleMoves(s, d);
    case Decide(d, stale) => DecideMoves(s, d, stale);
    case _ =>
  }

  lemma StagedKeepsHolding(s: State, step: Step, k: Instance, tokens: Tokens)
    requires Inv(s) && Enabled(s, step) && Holds(s, k, tokens)
    requires step.Persist? || step.Stamp? || step.Commit? || step.CommitFails? || step.Crash?
    ensures var s' := Apply(s, step);
            k.id in s'.staged && s'.staged[k.id].version == k.version ==> s'.staged[k.id].tokens == tokens
  {
    hide Inv, CallHolds;
    if !step.Crash? { Known(s, step.c); }
  }

  lemma CrashKeepsHolding(s: State, p: Proc, k: Instance, tokens: Tokens, c: CallId)
    requires Holds(s, k, tokens) && c in s.calls
    ensures c in Apply(s, Crash(p)).calls && CallHolds(Apply(s, Crash(p)).calls[c], k, tokens)
  {
  }

  lemma StepKeepsHolding(s: State, step: Step, k: Instance, tokens: Tokens)
    requires Inv(s) && Enabled(s, step) && Holds(s, k, tokens)
    ensures Holds(Apply(s, step), k, tokens)
  {
    hide Inv, Apply, CallHolds;
    var s' := Apply(s, step);
    IssuedStays(s, step);
    Frame(s, step);
    if step.Commit? || step.Connect? || step.Reconnect? || step.Disconnect? || step.Quarantine? {
      RowKeepsHolding(s, step, k, tokens);
    }
    if step.Persist? || step.Stamp? || step.Commit? || step.CommitFails? || step.Crash? {
      StagedKeepsHolding(s, step, k, tokens);
    }
    forall c | c in s'.calls ensures CallHolds(s'.calls[c], k, tokens) {
      if Actor(step) == Some(c) {
        CallKeepsHolding(s, step, k, tokens, c);
      } else {
        if step == Crash(s.calls[c].proc) {
          CrashKeepsHolding(s, step.p, k, tokens, c);
        } else {
          OnlyTheActorMoves(s, step, c);
        }
      }
    }
  }

  lemma {:induction false} RunKeepsHolding(s: State, steps: seq<Step>, k: Instance, tokens: Tokens)
    requires Inv(s) && ValidRun(s, steps) && Holds(s, k, tokens)
    ensures Holds(Exec(s, steps), k, tokens)
    decreases |steps|
  {
    if steps != [] {
      hide Inv, Apply, Holds;
      StepKeepsHolding(s, steps[0], k, tokens);
      StepKeeps(s, steps[0]);
      RunKeepsHolding(Apply(s, steps[0]), steps[1..], k, tokens);
    }
  }

  /** Nobody holds the next version of a row before the commit that makes it. */
  lemma CommitHolds(s: State, c: CallId, k: Instance)
    requires Inv(s) && Persists(s, Commit(c), k)
    ensures var s' := Apply(s, Commit(c));
            k.id in s'.rows && Holds(s', Instance(k.id, k.version + 1), s'.rows[k.id].tokens)
  {
    hide Inv;
    Known(s, c);
    KnownStaged(s, k.id);
    var s' := Apply(s, Commit(c));
    CommitMoves(s, c);
    forall d | d in s'.calls ensures CallHolds(s'.calls[d], Instance(k.id, k.version + 1), s'.rows[k.id].tokens) {
      assert d in s.calls;
      Known(s, d);
    }
  }

  /** The refresh of a row that a rotation stored sends the refresh token the provider granted
      then, or the one held before if it granted none. */
  lemma TheNextRefreshSendsWhatWasGranted(
    past: seq<Step>, grant: Step, between: seq<Step>, k: Instance, after: seq<Step>, send: Step)
    requires ValidRun(INIT, past) && grant.Receive? && Enabled(Exec(INIT, past), grant) && grant.answer.Grant?
    requires ValidRun(Apply(Exec(INIT, past), grant), between)
    requires Persists(Exec(Apply(Exec(INIT, past), grant), between), Commit(grant.c), k)
    requires ValidRun(Apply(Exec(Apply(Exec(INIT, past), grant), between), Commit(grant.c)), after)
    requires Sends(Exec(Apply(Exec(Apply(Exec(INIT, past), grant), between), Commit(grant.c)), after), send,
                   Instance(k.id, k.version + 1))
    ensures var s := Exec(INIT, past);
            var u := Exec(Apply(Exec(Apply(s, grant), between), Commit(grant.c)), after);
            u.calls[send.c].phase.cred.row.tokens.refresh
            == if grant.answer.refresh.Some? then grant.answer.refresh.value
               else s.calls[grant.c].phase.cred.row.tokens.refresh
  {
    hide Inv, Apply;
    var s := Exec(INIT, past);
    var t := Exec(Apply(s, grant), between);
    var committed, next := Apply(t, Commit(grant.c)), Instance(k.id, k.version + 1);
    ARotationStoresWhatWasGranted(past, grant, between, k);
    Reachable(past);
    StepKeeps(s, grant);
    RunKeeps(Apply(s, grant), between);
    StepKeeps(t, Commit(grant.c));
    CommitHolds(t, grant.c, k);
    RunKeepsHolding(committed, after, next, committed.rows[k.id].tokens);
    assert CallHolds(Exec(committed, after).calls[send.c], next, committed.rows[k.id].tokens);
  }

  // ---------------------------------------------------------------- what a call is told

  /** Under the lock a call goes ahead exactly when the row is active at the version it loaded, asks
      for a new login exactly when there is no active row, and else takes the stored token. */
  lemma RereadTells(s: State, c: CallId)
    requires Enabled(s, Reread(c))
    ensures var was, now, id := s.calls[c].phase, Apply(s, Reread(c)).calls[c].phase, s.calls[c].id;
            && (now.Calling? <==> id in s.rows && s.rows[id].status == Active && s.rows[id].version == was.cred.row.version)
            && (now == Leaving(was.cred, ReloginRequired) <==> id !in s.rows || s.rows[id].status != Active)
            && (now.Calling? ==> now.cred == Cred(id, s.rows[id]))
            && (!now.Calling? && id in s.rows && s.rows[id].status == Active ==>
                  now == Leaving(was.cred, Token(s.rows[id].tokens.access)))
  {
  }

  /** After a missed write a call takes the stored token of an active row, and else asks for a new
      login without a refusal. */
  lemma ReloadTells(s: State, c: CallId)
    requires Enabled(s, Reload(c))
    ensures var was, now, id := s.calls[c].phase, Apply(s, Reload(c)).calls[c].phase, s.calls[c].id;
            if id in s.rows && s.rows[id].status == Active
            then now == Leaving(was.cred, Token(s.rows[id].tokens.access))
            else now == Stamping(was.cred, false)
  {
  }

  /** With no row at all a call asks for a new login; a row is loaded whatever its status. */
  lemma LoadTells(s: State, c: CallId, p: Proc, id: Id)
    requires Enabled(s, Load(c, p, id))
    ensures var now := Apply(s, Load(c, p, id)).calls[c];
            now == Caller(p, id, if id in s.rows then Loaded(Cred(id, s.rows[id])) else Done(ReloginRequired))
  {
  }

  /** A fresh token is handed out as loaded, a stale one refreshed by the call in flight for its
      instance or by this one; only a permanent refusal leads to the stamp. */
  lemma AnswersTell(s: State, step: Step)
    requires Enabled(s, step) && (step.Decide? || step.Receive?)
    ensures var was, now := s.calls[step.c].phase, Apply(s, step).calls[step.c].phase;
            && (step.Decide? && step.stale ==>
                  var slot := (s.calls[step.c].proc, was.cred.Key());
                  now == if slot in s.inflight then Joined(s.inflight[slot]) else Queued(was.cred))
            && (step.Decide? ==> (now == Done(Token(was.cred.row.tokens.access)) <==> !step.stale))
            && (step.Receive? ==> (now == Stamping(was.cred, true) <==> step.answer.Permanent?))
            && (step.Receive? ==> (now == Leaving(was.cred, Failed) <==> step.answer.Transient?))
  {
    hide ApplyReread, ApplyPersist, ApplyReload, ApplyStamp, ApplyCallbackError, ApplyCommit, ApplyCommitFails, ApplySettle;
  }

  /** A time-out, a thrown error and a failed commit fail; a refusal asks for a new login; what the
      committed callback returned is what the promise, and every call that joined it, gets. */
  lemma EndsTell(s: State, step: Step)
    requires Enabled(s, step)
    requires step.LockTimeout? || step.Stamp? || step.CallbackError? || step.Commit? || step.CommitFails? || step.Settle? || step.JoinSettle?
    ensures var was, now := s.calls[step.c].phase, Apply(s, step).calls[step.c].phase;
            && (step.LockTimeout? || step.CommitFails? ==> now == Settling(was.cred, Failed))
            && (step.Stamp? ==> now == Leaving(was.cred, ReloginRequired))
            && (step.CallbackError? ==> now == Leaving(was.cred, Failed))
            && (step.Commit? ==> now == Settling(was.cred, was.out))
            && (step.Settle? ==> now == Done(was.out))
            && (step.JoinSettle? ==> now == Done(s.calls[was.leader].phase.out))
  {
    hide ApplyReread, ApplyDecide, ApplyReceive, ApplyPersist, ApplyReload, ApplyCrash, ApplyLoad, ApplyTakeLock;
    if step.Commit? {
      hide ApplyCommitFails, ApplyStamp, ApplyCallbackError, ApplySettle;
    } else if step.CommitFails? {
      hide ApplyCommit, ApplyStamp, ApplyCallbackError, ApplySettle;
    } else {
      hide ApplyCommit, ApplyCommitFails;
    }
  }
}
