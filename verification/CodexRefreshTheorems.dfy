/**
 What the refresh protocol promises, for every run of every number of calls in every
 number of processes, with connects, reconnects, disconnects, quarantines, crashes and
 failed commits interleaved anywhere.

 A run with two distinguished steps is written `past`, `first`, `between`, `last`.
 */
module CodexRefreshTheorems {
  import opened Wrappers
  import opened CodexRefresh
  import opened CodexRefreshProofs

  // ---------------------------------------------------------------- runs

  lemma StepKeeps(s: State, step: Step)
    requires Inv(s) && Enabled(s, step)
    ensures Inv(Apply(s, step))
  {
    hide Inv;
    match step
    case Load(c, p, id) => LoadKeeps(s, c, p, id);
    case Decide(c, stale) => DecideKeeps(s, c, stale);
    case TakeLock(c) => TakeLockKeeps(s, c);
    case LockTimeout(c) => LockTimeoutKeeps(s, c);
    case Reread(c) => RereadKeeps(s, c);
    case Send(c) => SendKeeps(s, c);
    case Receive(c, answer) => ReceiveKeeps(s, c, answer);
    case Persist(c) => PersistKeeps(s, c);
    case Reload(c) => ReloadKeeps(s, c);
    case Stamp(c) => StampKeeps(s, c);
    case CallbackError(c) => CallbackErrorKeeps(s, c);
    case Commit(c) => CommitKeeps(s, c);
    case CommitFails(c) => CommitFailsKeeps(s, c);
    case Settle(c) => SettleKeeps(s, c);
    case JoinSettle(c) => JoinSettleKeeps(s, c);
    case Crash(p) => CrashKeeps(s, p);
    case Connect(id, tokens) => ConnectKeeps(s, id, tokens);
    case Reconnect(id, tokens) => ReconnectKeeps(s, id, tokens);
    case Disconnect(id) => DisconnectKeeps(s, id);
    case Quarantine(id, status) => QuarantineKeeps(s, id, status);
  }

  lemma {:induction false} RunKeeps(s: State, steps: seq<Step>)
    requires Inv(s) && ValidRun(s, steps)
    ensures Inv(Exec(s, steps))
    decreases |steps|
  {
    if steps != [] {
      StepKeeps(s, steps[0]);
      RunKeeps(Apply(s, steps[0]), steps[1..]);
    }
  }

  lemma {:induction false} RunsInSequence(s: State, a: seq<Step>, b: seq<Step>)
    requires ValidRun(s, a) && ValidRun(Exec(s, a), b)
    ensures ValidRun(s, a + b) && Exec(s, a + b) == Exec(Exec(s, a), b)
    decreases |a|
  {
    if a == [] {
      assert a + b == b;
    } else {
      assert (a + b)[1..] == a[1..] + b;
      RunsInSequence(Apply(s, a[0]), a[1..], b);
    }
  }

  /** Every reachable state satisfies the invariant. */
  lemma Reachable(past: seq<Step>)
    requires ValidRun(INIT, past)
    ensures Inv(Exec(INIT, past))
  {
    InitHolds();
    RunKeeps(INIT, past);
  }

  // ---------------------------------------------------------------- what steps do

  /** `step` commits rotated tokens for instance `k`. */
  predicate Persists(s: State, step: Step, k: Instance) {
    && step.Commit? && Enabled(s, step)
    && s.calls[step.c].id in s.staged && s.staged[s.calls[step.c].id].status == Active
    && s.calls[step.c].phase.cred.Key() == k
  }

  /** `step` sends the refresh token of instance `k` to the provider. */
  predicate Sends(s: State, step: Step, k: Instance) {
    step.Send? && Enabled(s, step) && s.calls[step.c].phase.cred.Key() == k
  }

  /** `step` brings process `p` the tokens that replace those of instance `k`. */
  predicate Grants(s: State, step: Step, p: Proc, k: Instance) {
    && step.Receive? && Enabled(s, step) && step.answer.Grant?
    && s.calls[step.c].proc == p && s.calls[step.c].phase.cred.Key() == k
  }

  /** `step` is a database failure or a crash that drops the tokens process `p` was granted for `k`. */
  predicate Drops(s: State, step: Step, p: Proc, k: Instance) {
    Enabled(s, step) &&
    match step
    case Crash(q) => q == p
    case CallbackError(c) =>
      s.calls[c].phase.Granted? && s.calls[c].proc == p && s.calls[c].phase.cred.Key() == k
    case CommitFails(c) =>
      && s.calls[c].id in s.staged && s.staged[s.calls[c].id].status == Active
      && s.calls[c].proc == p && s.calls[c].phase.cred.Key() == k
    case _ => false
  }

  predicate DropsDuring(s: State, steps: seq<Step>, p: Proc, k: Instance)
    requires ValidRun(s, steps)
    decreases |steps|
  {
    steps != [] && (Drops(s, steps[0], p, k) || DropsDuring(Apply(s, steps[0]), steps[1..], p, k))
  }

  lemma {:induction false} PersistedStays(s: State, steps: seq<Step>)
    requires ValidRun(s, steps)
    ensures s.log.persisted <= Exec(s, steps).log.persisted
    decreases |steps|
  {
    if steps != [] { PersistedStays(Apply(s, steps[0]), steps[1..]); }
  }

  lemma {:induction false} OutstandingStays(s: State, steps: seq<Step>, p: Proc, k: Instance)
    requires ValidRun(s, steps) && (p, k) in s.log.outstanding && !DropsDuring(s, steps, p, k)
    ensures (p, k) in Exec(s, steps).log.outstanding
    decreases |steps|
  {
    if steps != [] { OutstandingStays(Apply(s, steps[0]), steps[1..], p, k); }
  }

  // ---------------------------------------------------------------- who moves

  /** The call a step belongs to; none for crashes and outside changes. */
  function Actor(step: Step): Option<CallId> {
    match step
    case Crash(_) => None
    case Connect(_, _) => None
    case Reconnect(_, _) => None
    case Disconnect(_) => None
    case Quarantine(_, _) => None
    case _ => Some(step.c)
  }

  /** Call `c` alone is at another phase. */
  predicate Moves(s: State, s': State, c: CallId) {
    c in s.calls && c in s'.calls && s'.calls == s.calls[c := s.calls[c].(phase := s'.calls[c].phase)]
  }

  lemma RereadMoves(s: State, c: CallId)
    requires c in s.calls && s.calls[c].phase.Entered?
    ensures Moves(s, ApplyReread(s, c), c) && ApplyReread(s, c).issued == s.issued
    ensures ApplyReread(s, c).rows == s.rows && ApplyReread(s, c).staged == s.staged
  {
  }

  lemma ReceiveMoves(s: State, c: CallId, answer: Answer)
    requires c in s.calls && s.calls[c].phase.Awaiting?
    ensures Moves(s, ApplyReceive(s, c, answer), c) && ApplyReceive(s, c, answer).issued == s.issued
    ensures ApplyReceive(s, c, answer).rows == s.rows && ApplyReceive(s, c, answer).staged == s.staged
  {
  }

  lemma PersistMoves(s: State, c: CallId)
    requires c in s.calls && s.calls[c].phase.Granted?
    ensures Moves(s, ApplyPersist(s, c), c) && ApplyPersist(s, c).issued == s.issued
    ensures ApplyPersist(s, c).rows == s.rows
    ensures var id := s.calls[c].phase.cred.id; ApplyPersist(s, c).staged - {id} == s.staged - {id}
  {
  }

  lemma ReloadMoves(s: State, c: CallId)
    requires c in s.calls && s.calls[c].phase.Missed?
    ensures Moves(s, ApplyReload(s, c), c) && ApplyReload(s, c).issued == s.issued
    ensures ApplyReload(s, c).rows == s.rows && ApplyReload(s, c).staged == s.staged
  {
  }

  lemma StampMoves(s: State, c: CallId)
    requires c in s.calls && s.calls[c].phase.Stamping?
    ensures Moves(s, ApplyStamp(s, c), c) && ApplyStamp(s, c).issued == s.issued
    ensures ApplyStamp(s, c).rows == s.rows
    ensures var id := s.calls[c].phase.cred.id; ApplyStamp(s, c).staged - {id} == s.staged - {id}
  {
  }

  lemma CallbackErrorMoves(s: State, c: CallId)
    requires c in s.calls && s.calls[c].phase.Locked() && !s.calls[c].phase.Leaving?
    ensures Moves(s, ApplyCallbackError(s, c), c) && ApplyCallbackError(s, c).issued == s.issued
    ensures ApplyCallbackError(s, c).rows == s.rows && ApplyCallbackError(s, c).staged == s.staged
  {
  }

  lemma CommitMoves(s: State, c: CallId)
    requires c in s.calls && s.calls[c].phase.Leaving?
    ensures Moves(s, ApplyCommit(s, c), c) && ApplyCommit(s, c).issued == s.issued
    ensures var id := s.calls[c].id;
            var s' := ApplyCommit(s, c);
            s'.rows - {id} == s.rows - {id} && s'.staged == s.staged - {id}
  {
  }

  lemma CommitFailsMoves(s: State, c: CallId)
    requires c in s.calls && s.calls[c].phase.Leaving?
    ensures Moves(s, ApplyCommitFails(s, c), c) && ApplyCommitFails(s, c).issued == s.issued
    ensures var id := s.calls[c].id;
            var s' := ApplyCommitFails(s, c);
            s'.rows - {id} == s.rows - {id} && s'.staged == s.staged - {id}
    ensures ApplyCommitFails(s, c).rows == s.rows
  {
  }

  lemma SettleMoves(s: State, c: CallId)
    requires c in s.calls && s.calls[c].phase.Settling?
    ensures Moves(s, ApplySettle(s, c), c) && ApplySettle(s, c).issued == s.issued
    ensures ApplySettle(s, c).rows == s.rows && ApplySettle(s, c).staged == s.staged
  {
  }

  lemma DecideMoves(s: State, c: CallId, stale: bool)
    requires c in s.calls && s.calls[c].phase.Loaded?
    ensures Moves(s, ApplyDecide(s, c, stale), c) && ApplyDecide(s, c, stale).issued == s.issued
    ensures ApplyDecide(s, c, stale).rows == s.rows && ApplyDecide(s, c, stale).staged == s.staged
  {
  }

  /** A step moves at most the call it belongs to, and a crash the calls of its process. */
  lemma OnlyTheActorMoves(s: State, step: Step, c: CallId)
    requires Enabled(s, step) && c in s.calls
    requires Actor(step) != Some(c) && step != Crash(s.calls[c].proc)
    ensures c in Apply(s, step).calls && Apply(s, step).calls[c] == s.calls[c]
  {
    hide ApplyReread, ApplyReceive, ApplyPersist, ApplyReload, ApplyStamp, ApplyCallbackError, ApplyCommit, ApplyCommitFails, ApplySettle, ApplyDecide;
    match step
    case Reread(d) => RereadMoves(s, d);
    case Receive(d, answer) => ReceiveMoves(s, d, answer);
    case Persist(d) => PersistMoves(s, d);
    case Reload(d) => ReloadMoves(s, d);
    case Stamp(d) => StampMoves(s, d);
    case CallbackError(d) => CallbackErrorMoves(s, d);
    case Commit(d) => CommitMoves(s, d);
    case CommitFails(d) => CommitFailsMoves(s, d);
    case Settle(d) => SettleMoves(s, d);
    case Decide(d, stale) => DecideMoves(s, d, stale);
    case _ =>
  }

  // ---------------------------------------------------------------- the one-time token

  lemma SpentIsOver(s: State, step: Step, k: Instance)
    requires Inv(s) && k in s.log.persisted
    ensures !Persists(s, step, k) && !Sends(s, step, k)
  {
    assert SpentOk(s, k);
    if (step.Commit? || step.Send?) && step.c in s.calls {
      assert CallOk(s, step.c);
      assert s.calls[step.c].id in s.staged ==> StagedOk(s, s.calls[step.c].id);
    }
  }

  lemma OutstandingIsNotSent(s: State, step: Step, p: Proc, k: Instance)
    requires Inv(s) && (p, k) in s.log.outstanding
    ensures !Sends(s, step, k)
  {
    if step.Send? && step.c in s.calls { assert CallOk(s, step.c); }
  }

  /** Once a refresh of an instance is committed, no later step commits another refresh of
      that instance or sends its refresh token again. */
  lemma PersistedOnceAndNeverSentAgain(
    past: seq<Step>, first: Step, between: seq<Step>, last: Step, k: Instance)
    requires ValidRun(INIT, past) && Persists(Exec(INIT, past), first, k)
    requires ValidRun(Apply(Exec(INIT, past), first), between)
    ensures var later := Exec(Apply(Exec(INIT, past), first), between);
            !Persists(later, last, k) && !Sends(later, last, k)
  {
    var s := Exec(INIT, past);
    var s' := Apply(s, first);
    var later := Exec(s', between);
    Reachable(past);
    StepKeeps(s, first);
    RunKeeps(s', between);
    PersistedStays(s', between);
    SpentIsOver(later, last, k);
  }

  /** After the provider granted a refresh, the spent token goes out again only if a
      database failure or a crash dropped the granted tokens in between. */
  lemma SpentTokenResentOnlyAfterLoss(
    past: seq<Step>, first: Step, between: seq<Step>, last: Step, p: Proc, k: Instance)
    requires ValidRun(INIT, past) && Grants(Exec(INIT, past), first, p, k)
    requires ValidRun(Apply(Exec(INIT, past), first), between)
    requires Sends(Exec(Apply(Exec(INIT, past), first), between), last, k)
    ensures DropsDuring(Apply(Exec(INIT, past), first), between, p, k)
  {
    var s := Exec(INIT, past);
    var s' := Apply(s, first);
    Reachable(past);
    StepKeeps(s, first);
    RunKeeps(s', between);
    if !DropsDuring(s', between, p, k) {
      OutstandingStays(s', between, p, k);
      OutstandingIsNotSent(Exec(s', between), last, p, k);
    }
  }

  /** One refresher per credential across all processes, one per instance within a process,
      and a joined call waits on exactly that one. */
  lemma SingleFlight(past: seq<Step>, c: CallId, d: CallId)
    requires ValidRun(INIT, past)
    ensures var s := Exec(INIT, past);
            c in s.calls && d in s.calls ==>
              && (s.calls[c].phase.Locked() && s.calls[d].phase.Locked() && s.calls[c].id == s.calls[d].id ==> c == d)
              && ((s.calls[c].phase.Leading() && s.calls[d].phase.Leading()
                   && s.calls[c].proc == s.calls[d].proc
                   && s.calls[c].phase.cred.Key() == s.calls[d].phase.cred.Key()) ==> c == d)
              && (s.calls[c].phase.Joined? && s.calls[c].phase.leader == d ==> s.calls[d].id == s.calls[c].id)
  {
    Reachable(past);
    var s := Exec(INIT, past);
    if c in s.calls && d in s.calls {
      assert CallOk(s, c) && CallOk(s, d);
    }
  }

  // ---------------------------------------------------------------- needs_relogin

  /** The committed row `id` turns `needs_relogin`. */
  predicate TurnsRelogin(s: State, s': State, id: Id) {
    id in s'.rows && s'.rows[id].status == NeedsRelogin && (id in s.rows ==> s.rows[id].status != NeedsRelogin)
  }

  /** Call `c` may stamp row `id`: it is at the still-active instance whose refresh was refused. */
  predicate MayStamp(s: State, c: CallId, id: Id) {
    && c in s.calls && s.calls[c].phase.Leaving? && id in s.rows && s.rows[id].status == Active
    && s.calls[c].phase.cred.Key() == Instance(id, s.rows[id].version)
    && Instance(id, s.rows[id].version) in s.log.refused
  }

  lemma CommitStampsTheRefused(s: State, c: CallId, id: Id)
    requires Inv(s) && Enabled(s, Commit(c)) && TurnsRelogin(s, Apply(s, Commit(c)), id)
    ensures MayStamp(s, c, id) && Apply(s, Commit(c)).rows == s.rows[id := s.rows[id].(status := NeedsRelogin)]
  {
    assert CallOk(s, c);
    assert id == s.calls[c].id && id in s.staged;
    assert StagedOk(s, id);
  }

  /** A step makes a stored credential `needs_relogin` only if it is the quarantine of that
      row, or the commit of a call whose refresh of exactly that still-active instance the
      provider refused; nothing but the status of that row changes. */
  lemma OnlyTheRefusedInstanceIsStamped(past: seq<Step>, step: Step, id: Id)
    requires ValidRun(INIT, past) && Enabled(Exec(INIT, past), step)
    requires TurnsRelogin(Exec(INIT, past), Apply(Exec(INIT, past), step), id)
    ensures var s := Exec(INIT, past);
            && id in s.rows && Apply(s, step).rows == s.rows[id := s.rows[id].(status := NeedsRelogin)]
            && (step == Quarantine(id, NeedsRelogin) || (step.Commit? && MayStamp(s, step.c, id)))
  {
    Reachable(past);
    var s := Exec(INIT, past);
    Frame(s, step);
    if step.Commit? { CommitStampsTheRefused(s, step.c, id); }
  }

  /** Steps that end or undo call `c`'s transaction. */
  predicate Ends(s: State, step: Step, c: CallId)
    requires c in s.calls
  {
    step == Commit(c) || step == CommitFails(c) || step == Crash(s.calls[c].proc)
  }

  /** The transaction of call `c` stays open through a run. */
  predicate StaysOpen(s: State, steps: seq<Step>, c: CallId)
    requires ValidRun(s, steps)
    decreases |steps|
  {
    c in s.calls &&
    (steps == [] || (!Ends(s, steps[0], c) && StaysOpen(Apply(s, steps[0]), steps[1..], c)))
  }

  lemma {:induction false} StagedRowWaits(s: State, steps: seq<Step>, c: CallId)
    requires Inv(s) && ValidRun(s, steps) && StaysOpen(s, steps, c)
    requires c in s.calls && s.calls[c].phase.Leaving? && s.calls[c].id in s.staged
    ensures var s' := Exec(s, steps);
            var id := s.calls[c].id;
            && c in s'.calls && s'.calls[c] == s.calls[c]
            && id in s'.staged && s'.staged[id] == s.staged[id]
            && id in s.rows && id in s'.rows && s'.rows[id] == s.rows[id]
    decreases |steps|
  {
    hide Inv, Apply;
    var id := s.calls[c].id;
    KnownStaged(s, id);
    if steps != [] {
      var s' := Apply(s, steps[0]);
      StepKeeps(s, steps[0]);
      LeavingStays(s, steps[0], c);
      OtherStepLeavesStaged(s, steps[0], c);
      OtherStepLeavesRow(s, steps[0], c);
      StagedRowWaits(s', steps[1..], c);
    }
  }

  /** Which steps can change the staged and the committed rows. */
  lemma Frame(s: State, step: Step)
    requires Enabled(s, step)
    ensures !step.Persist? && !step.Stamp? && !step.Commit? && !step.CommitFails? && !step.Crash? ==>
              Apply(s, step).staged == s.staged
    ensures !step.Commit? && !step.Connect? && !step.Reconnect? && !step.Disconnect? && !step.Quarantine? ==>
              Apply(s, step).rows == s.rows
  {
    hide ApplyReread, ApplyReceive, ApplyPersist, ApplyReload, ApplyStamp, ApplyCallbackError, ApplyCommit, ApplyCommitFails, ApplySettle, ApplyDecide;
    match step
    case Reread(d) => RereadMoves(s, d);
    case Receive(d, answer) => ReceiveMoves(s, d, answer);
    case Persist(d) => PersistMoves(s, d);
    case Reload(d) => ReloadMoves(s, d);
    case Stamp(d) => StampMoves(s, d);
    case CallbackError(d) => CallbackErrorMoves(s, d);
    case Commit(d) => CommitMoves(s, d);
    case CommitFails(d) => CommitFailsMoves(s, d);
    case Settle(d) => SettleMoves(s, d);
    case Decide(d, stale) => DecideMoves(s, d, stale);
    case _ =>
  }

  lemma LeavingStays(s: State, step: Step, c: CallId)
    requires Enabled(s, step) && c in s.calls && s.calls[c].phase.Leaving? && !Ends(s, step, c)
    ensures c in Apply(s, step).calls && Apply(s, step).calls[c] == s.calls[c]
  {
    hide Apply;
    OnlyTheActorMoves(s, step, c);
  }

  lemma OtherStepLeavesStaged(s: State, step: Step, c: CallId)
    requires Inv(s) && Enabled(s, step)
    requires c in s.calls && s.calls[c].phase.Leaving? && s.calls[c].id in s.staged && !Ends(s, step, c)
    ensures var s' := Apply(s, step);
            var id := s.calls[c].id;
            id in s'.staged && s'.staged[id] == s.staged[id]
  {
    hide Inv, ApplyPersist, ApplyStamp, ApplyCommit, ApplyCommitFails;
    Known(s, c);
    Frame(s, step);
    var id := s.calls[c].id;
    match step
    case Persist(d) => Known(s, d); PersistMoves(s, d); assert id in s.staged - {s.calls[d].phase.cred.id};
    case Stamp(d) => Known(s, d); StampMoves(s, d); assert id in s.staged - {s.calls[d].phase.cred.id};
    case Commit(d) => Known(s, d); CommitMoves(s, d);
    case CommitFails(d) => Known(s, d); CommitFailsMoves(s, d);
    case _ =>
  }

  lemma OtherStepLeavesRow(s: State, step: Step, c: CallId)
    requires Inv(s) && Enabled(s, step)
    requires c in s.calls && s.calls[c].phase.Leaving? && s.calls[c].id in s.staged && !Ends(s, step, c)
    ensures var s' := Apply(s, step);
            var id := s.calls[c].id;
            id in s.rows && id in s'.rows && s'.rows[id] == s.rows[id]
  {
    hide Inv, ApplyCommit;
    Known(s, c);
    KnownStaged(s, s.calls[c].id);
    Frame(s, step);
    if step.Commit? {
      Known(s, step.c);
      CommitMoves(s, step.c);
      assert s.calls[c].id in s.rows - {s.calls[step.c].id};
    }
  }

  lemma StampStages(s: State, c: CallId)
    requires Inv(s) && Enabled(s, Stamp(c)) && Matches(s.rows, s.calls[c].phase.cred.Key())
    ensures var s' := Apply(s, Stamp(c));
            var id := s.calls[c].id;
            && s.calls[c].phase.refused && id in s.rows && s.rows[id].status == Active && s'.rows == s.rows
            && c in s'.calls && s'.calls[c].phase.Leaving? && s'.calls[c].id == id
            && id in s'.staged && s'.staged[id] == s.rows[id].(status := NeedsRelogin)
  {
    hide Inv;
    Known(s, c);
  }

  lemma EndingPublishes(s: State, c: CallId)
    requires c in s.calls && s.calls[c].phase.Leaving? && s.calls[c].id in s.staged
    ensures Enabled(s, Commit(c)) && Enabled(s, CommitFails(c))
    ensures Apply(s, Commit(c)).rows == s.rows[s.calls[c].id := s.staged[s.calls[c].id]]
    ensures Apply(s, CommitFails(c)).rows == s.rows
  {
  }

  /** When the provider refuses permanently while the instance is still current, the status
      reaches the committed row, whatever else runs before the transaction ends, because the
      callback returns the failure; had it thrown, the rollback would have left the row active. */
  lemma RefusalReachesTheCommittedRow(past: seq<Step>, c: CallId, between: seq<Step>)
    requires ValidRun(INIT, past) && Enabled(Exec(INIT, past), Stamp(c))
    requires var s := Exec(INIT, past); Matches(s.rows, s.calls[c].phase.cred.Key())
    requires var s' := Apply(Exec(INIT, past), Stamp(c)); ValidRun(s', between) && StaysOpen(s', between, c)
    ensures var s := Exec(INIT, past);
            var id := s.calls[c].id;
            var open := Exec(Apply(s, Stamp(c)), between);
            && s.calls[c].phase.refused && id in s.rows
            && Enabled(open, Commit(c)) && Enabled(open, CommitFails(c))
            && id in Apply(open, Commit(c)).rows
            && Apply(open, Commit(c)).rows[id] == s.rows[id].(status := NeedsRelogin)
            && id in Apply(open, CommitFails(c)).rows
            && Apply(open, CommitFails(c)).rows[id] == s.rows[id]
            && s.rows[id].status == Active
  {
    Reachable(past);
    var s := Exec(INIT, past);
    StepKeeps(s, Stamp(c));
    hide Inv, Exec, Apply;
    StampStages(s, c);
    StagedRowWaits(Apply(s, Stamp(c)), between, c);
    EndingPublishes(Exec(Apply(s, Stamp(c)), between), c);
  }

  // ---------------------------------------------------------------- what callers get

  /** A token handed to a caller was carried by a committed row of its credential: rotated
      tokens are never returned unless they were persisted. */
  lemma ReturnedTokensWereCommitted(past: seq<Step>, c: CallId)
    requires ValidRun(INIT, past)
    ensures var s := Exec(INIT, past);
            c in s.calls && s.calls[c].phase.Done? && s.calls[c].phase.out.Token? ==>
              (s.calls[c].id, s.calls[c].phase.out.access) in s.log.minted
  {
    Reachable(past);
    var s := Exec(INIT, past);
    if c in s.calls { assert CallOk(s, c); }
  }
}
