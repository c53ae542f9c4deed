/**
 The rotating-token refresh protocol of packages/db/src/codex-token-resolver.ts, as a
 state machine whose steps are the pieces of code between two awaits.

 Any number of calls in any number of processes may be in progress.  The database is
 the table of committed credential rows, one advisory transaction lock per credential
 id, and at most one staged (written but not yet committed) row per lock holder: the
 writes of the refresh callback run inside the transaction that holds the lock, so they
 become visible, and release the row, only when that transaction commits.

 `log` only records what happened; no step reads it.
 */
module CodexRefresh {
  import opened Wrappers

  type Id = nat
  type Proc = nat
  type CallId = nat
  type Secret = nat

  datatype Status = Active | NeedsRelogin | Errored

  datatype Tokens = Tokens(access: Secret, refresh: Secret, idToken: Secret)

  datatype Row = Row(version: nat, status: Status, tokens: Tokens)

  /** A loaded snapshot of one row. */
  datatype Cred = Cred(id: Id, row: Row) {
    function Key(): Instance { Instance(id, row.version) }
  }

  /** A credential instance: row id and version. */
  datatype Instance = Instance(id: Id, version: nat)

  /** What a call resolves to: an access token, CodexReloginRequired, or any other error. */
  datatype Outcome = Token(access: Secret) | ReloginRequired | Failed

  /** The provider rotates any subset of the three tokens. */
  datatype Answer =
    | Grant(access: Option<Secret>, refresh: Option<Secret>, idToken: Option<Secret>)
    | Permanent
    | Transient

  datatype Phase =
    | Loaded(cred: Cred)                       // resolve() has read the row
    | Joined(leader: CallId)                   // waiting on another call's promise
    | Queued(cred: Cred)                       // in the in-flight map, waiting for the lock
    | Entered(cred: Cred)                      // holds the lock, about to re-read
    | Calling(cred: Cred)                      // re-read matched, about to call the provider
    | Awaiting(cred: Cred)                     // refresh token sent
    | Granted(cred: Cred, next: Tokens)        // provider rotated, about to persist
    | Missed(cred: Cred)                       // persist wrote no row, about to reload
    | Stamping(cred: Cred, refused: bool)      // caught CodexReloginRequired
    | Leaving(cred: Cred, out: Outcome)        // callback returned, commit pending
    | Settling(cred: Cred, out: Outcome)       // transaction over, promise not settled
    | Done(out: Outcome)
    | Dead                                     // its process crashed
  {
    /** Inside the lock transaction. */
    predicate Locked() {
      Entered? || Calling? || Awaiting? || Granted? || Missed? || Stamping? || Leaving?
    }

    /** Owns an entry of its process's in-flight map. */
    predicate Leading() {
      Queued? || Locked() || Settling?
    }
  }

  datatype Caller = Caller(proc: Proc, id: Id, phase: Phase)

  /**
   What has happened so far; no step reads it.
    - minted: the access tokens that committed rows have carried
    - refused: the instances whose refresh the provider refused permanently
    - persisted: the instances a refresh of which was committed
    - outstanding: the refreshes the provider granted to a process and that no crash or
      database failure has since dropped
   */
  datatype Log = Log(
    minted: set<(Id, Secret)>,
    refused: set<Instance>,
    persisted: set<Instance>,
    outstanding: set<(Proc, Instance)>)

  datatype State = State(
    rows: map<Id, Row>,
    issued: set<Id>,
    locks: map<Id, CallId>,
    staged: map<Id, Row>,
    calls: map<CallId, Caller>,
    inflight: map<(Proc, Instance), CallId>,
    log: Log)

  datatype Step =
    | Load(c: CallId, p: Proc, id: Id)
    | Decide(c: CallId, stale: bool)
    | TakeLock(c: CallId)
    | LockTimeout(c: CallId)
    | Reread(c: CallId)
    | Send(c: CallId)
    | Receive(c: CallId, answer: Answer)
    | Persist(c: CallId)
    | Reload(c: CallId)
    | Stamp(c: CallId)
    | CallbackError(c: CallId)
    | Commit(c: CallId)
    | CommitFails(c: CallId)
    | Settle(c: CallId)
    | JoinSettle(c: CallId)
    | Crash(p: Proc)
    | Connect(id: Id, tokens: Tokens)
    | Reconnect(id: Id, tokens: Tokens)
    | Disconnect(id: Id)
    | Quarantine(id: Id, status: Status)

  const INIT := State(map[], {}, map[], map[], map[], map[], Log({}, {}, {}, {}))

  // ---------------------------------------------------------------- steps

  /** When a step can happen.  Writers of a row wait for its row lock, so the environment
      never touches a row with a staged write. */
  predicate Enabled(s: State, step: Step) {
    match step
    case Load(c, p, id) => c !in s.calls
    case Decide(c, _) => c in s.calls && s.calls[c].phase.Loaded?
    case TakeLock(c) => c in s.calls && s.calls[c].phase.Queued? && s.calls[c].id !in s.locks
    case LockTimeout(c) => c in s.calls && s.calls[c].phase.Queued?
    case Reread(c) => c in s.calls && s.calls[c].phase.Entered?
    case Send(c) => c in s.calls && s.calls[c].phase.Calling?
    case Receive(c, _) => c in s.calls && s.calls[c].phase.Awaiting?
    case Persist(c) => c in s.calls && s.calls[c].phase.Granted?
    case Reload(c) => c in s.calls && s.calls[c].phase.Missed?
    case Stamp(c) => c in s.calls && s.calls[c].phase.Stamping?
    case CallbackError(c) =>
      c in s.calls && s.calls[c].phase.Locked() && !s.calls[c].phase.Leaving?
    case Commit(c) => c in s.calls && s.calls[c].phase.Leaving?
    case CommitFails(c) => c in s.calls && s.calls[c].phase.Leaving?
    case Settle(c) => c in s.calls && s.calls[c].phase.Settling?
    case JoinSettle(c) =>
      && c in s.calls && s.calls[c].phase.Joined?
      && s.calls[c].phase.leader in s.calls && s.calls[s.calls[c].phase.leader].phase.Done?
    case Crash(p) => true
    case Connect(id, _) => id !in s.issued
    case Reconnect(id, _) => id in s.rows && id !in s.staged
    case Disconnect(id) => id in s.rows && id !in s.staged
    case Quarantine(id, status) => id in s.rows && id !in s.staged && status != Active
  }

  function SetPhase(s: State, c: CallId, phase: Phase): State
    requires c in s.calls
  {
    s.(calls := s.calls[c := s.calls[c].(phase := phase)])
  }

  /** The compare-and-set guard shared by the persist and the status write. */
  predicate Matches(rows: map<Id, Row>, key: Instance) {
    key.id in rows && rows[key.id].version == key.version && rows[key.id].status == Active
  }

  function ApplyLoad(s: State, c: CallId, p: Proc, id: Id): State {
    var phase := if id in s.rows then Loaded(Cred(id, s.rows[id])) else Done(ReloginRequired);
    s.(calls := s.calls[c := Caller(p, id, phase)])
  }

  function ApplyDecide(s: State, c: CallId, stale: bool): State
    requires c in s.calls && s.calls[c].phase.Loaded?
  {
    var cred := s.calls[c].phase.cred;
    var slot := (s.calls[c].proc, cred.Key());
    if !stale then SetPhase(s, c, Done(Token(cred.row.tokens.access)))
    else if slot in s.inflight then SetPhase(s, c, Joined(s.inflight[slot]))
    else SetPhase(s, c, Queued(cred)).(inflight := s.inflight[slot := c])
  }

  function ApplyTakeLock(s: State, c: CallId): State
    requires c in s.calls && s.calls[c].phase.Queued?
  {
    SetPhase(s, c, Entered(s.calls[c].phase.cred)).(locks := s.locks[s.calls[c].id := c])
  }

  function ApplyReread(s: State, c: CallId): State
    requires c in s.calls && s.calls[c].phase.Entered?
  {
    var cred := s.calls[c].phase.cred;
    var id := s.calls[c].id;
    if id !in s.rows || s.rows[id].status != Active then
      SetPhase(s, c, Leaving(cred, ReloginRequired))
    else if s.rows[id].version != cred.row.version then
      SetPhase(s, c, Leaving(cred, Token(s.rows[id].tokens.access)))
    else
      SetPhase(s, c, Calling(Cred(id, s.rows[id])))
  }

  function Merge(held: Tokens, answer: Answer): Tokens
    requires answer.Grant?
  {
    Tokens(
      if answer.access.Some? then answer.access.value else held.access,
      if answer.refresh.Some? then answer.refresh.value else held.refresh,
      if answer.idToken.Some? then answer.idToken.value else held.idToken)
  }

  function ApplyReceive(s: State, c: CallId, answer: Answer): State
    requires c in s.calls && s.calls[c].phase.Awaiting?
  {
    var cred := s.calls[c].phase.cred;
    match answer
    case Grant(_, _, _) =>
      SetPhase(s, c, Granted(cred, Merge(cred.row.tokens, answer)))
        .(log := s.log.(outstanding := s.log.outstanding + {(s.calls[c].proc, cred.Key())}))
    case Permanent =>
      SetPhase(s, c, Stamping(cred, true)).(log := s.log.(refused := s.log.refused + {cred.Key()}))
    case Transient => SetPhase(s, c, Leaving(cred, Failed))
  }

  function ApplyPersist(s: State, c: CallId): State
    requires c in s.calls && s.calls[c].phase.Granted?
  {
    var cred := s.calls[c].phase.cred;
    var next := s.calls[c].phase.next;
    if Matches(s.rows, cred.Key()) then
      SetPhase(s, c, Leaving(cred, Token(next.access)))
        .(staged := s.staged[cred.id := Row(cred.row.version + 1, Active, next)])
    else
      SetPhase(s, c, Missed(cred))
  }

  function ApplyReload(s: State, c: CallId): State
    requires c in s.calls && s.calls[c].phase.Missed?
  {
    var cred := s.calls[c].phase.cred;
    var id := s.calls[c].id;
    if id in s.rows && s.rows[id].status == Active then
      SetPhase(s, c, Leaving(cred, Token(s.rows[id].tokens.access)))
    else
      SetPhase(s, c, Stamping(cred, false))
  }

  function ApplyStamp(s: State, c: CallId): State
    requires c in s.calls && s.calls[c].phase.Stamping?
  {
    var cred := s.calls[c].phase.cred;
    var s' := SetPhase(s, c, Leaving(cred, ReloginRequired));
    if Matches(s.rows, cred.Key()) then
      s'.(staged := s.staged[cred.id := s.rows[cred.id].(status := NeedsRelogin)])
    else s'
  }

  function Drop(s: State, p: Proc, key: Instance): State {
    s.(log := s.log.(outstanding := s.log.outstanding - {(p, key)}))
  }

  /** A thrown database error, or the missing encryption key, inside the callback. */
  function ApplyCallbackError(s: State, c: CallId): State
    requires c in s.calls && s.calls[c].phase.Locked() && !s.calls[c].phase.Leaving?
  {
    var phase := s.calls[c].phase;
    var s' := SetPhase(s, c, Leaving(phase.cred, Failed));
    if phase.Granted? then Drop(s', s.calls[c].proc, phase.cred.Key()) else s'
  }

  /** What a commit or a rollback of call `c`'s transaction does with its staged row. */
  function Unlock(s: State, c: CallId, out: Outcome): State
    requires c in s.calls && s.calls[c].phase.Leaving?
  {
    var id := s.calls[c].id;
    SetPhase(s, c, Settling(s.calls[c].phase.cred, out))
      .(locks := s.locks - {id}, staged := s.staged - {id})
  }

  function ApplyCommit(s: State, c: CallId): State
    requires c in s.calls && s.calls[c].phase.Leaving?
  {
    var id := s.calls[c].id;
    var key := s.calls[c].phase.cred.Key();
    var s' := Unlock(s, c, s.calls[c].phase.out);
    if id !in s.staged then s'
    else
      var row := s.staged[id];
      s'.(rows := s.rows[id := row],
          log := if row.status != Active then s.log
                 else s.log.(minted := s.log.minted + {(id, row.tokens.access)},
                             persisted := s.log.persisted + {key}))
  }

  function ApplyCommitFails(s: State, c: CallId): State
    requires c in s.calls && s.calls[c].phase.Leaving?
  {
    var id := s.calls[c].id;
    var s' := Unlock(s, c, Failed);
    if id in s.staged && s.staged[id].status == Active
    then Drop(s', s.calls[c].proc, s.calls[c].phase.cred.Key())
    else s'
  }

  function ApplySettle(s: State, c: CallId): State
    requires c in s.calls && s.calls[c].phase.Settling?
  {
    var slot := (s.calls[c].proc, s.calls[c].phase.cred.Key());
    var s' := SetPhase(s, c, Done(s.calls[c].phase.out));
    if slot in s.inflight && s.inflight[slot] == c then s'.(inflight := s.inflight - {slot}) else s'
  }

  predicate HeldBy(s: State, id: Id, p: Proc) {
    id in s.locks && s.locks[id] in s.calls && s.calls[s.locks[id]].proc == p
  }

  /** The process dies: its calls and in-flight map vanish, its transactions roll back. */
  function ApplyCrash(s: State, p: Proc): State {
    State(
      s.rows, s.issued,
      map id | id in s.locks && !HeldBy(s, id, p) :: s.locks[id],
      map id | id in s.staged && !HeldBy(s, id, p) :: s.staged[id],
      map c | c in s.calls :: if s.calls[c].proc == p then s.calls[c].(phase := Dead) else s.calls[c],
      map slot: (Proc, Instance) | slot in s.inflight && slot.0 != p :: s.inflight[slot],
      s.log.(outstanding := set e | e in s.log.outstanding && e.0 != p))
  }

  /** Write a row from outside the refresh protocol. */
  function Install(s: State, id: Id, row: Row): State {
    s.(rows := s.rows[id := row], issued := s.issued + {id},
       log := s.log.(minted := s.log.minted + {(id, row.tokens.access)}))
  }

  function Apply(s: State, step: Step): State
    requires Enabled(s, step)
  {
    match step
    case Load(c, p, id) => ApplyLoad(s, c, p, id)
    case Decide(c, stale) => ApplyDecide(s, c, stale)
    case TakeLock(c) => ApplyTakeLock(s, c)
    case LockTimeout(c) => SetPhase(s, c, Settling(s.calls[c].phase.cred, Failed))
    case Reread(c) => ApplyReread(s, c)
    case Send(c) => SetPhase(s, c, Awaiting(s.calls[c].phase.cred))
    case Receive(c, answer) => ApplyReceive(s, c, answer)
    case Persist(c) => ApplyPersist(s, c)
    case Reload(c) => ApplyReload(s, c)
    case Stamp(c) => ApplyStamp(s, c)
    case CallbackError(c) => ApplyCallbackError(s, c)
    case Commit(c) => ApplyCommit(s, c)
    case CommitFails(c) => ApplyCommitFails(s, c)
    case Settle(c) => ApplySettle(s, c)
    case JoinSettle(c) => SetPhase(s, c, Done(s.calls[s.calls[c].phase.leader].phase.out))
    case Crash(p) => ApplyCrash(s, p)
    case Connect(id, tokens) => Install(s, id, Row(1, Active, tokens))
    case Reconnect(id, tokens) => Install(s, id, Row(s.rows[id].version + 1, Active, tokens))
    case Disconnect(id) => s.(rows := s.rows - {id})
    case Quarantine(id, status) => s.(rows := s.rows[id := s.rows[id].(status := status)])
  }

  predicate ValidRun(s: State, steps: seq<Step>)
    decreases |steps|
  {
    steps == [] || (Enabled(s, steps[0]) && ValidRun(Apply(s, steps[0]), steps[1..]))
  }

  function Exec(s: State, steps: seq<Step>): State
    requires ValidRun(s, steps)
    decreases |steps|
  {
    if steps == [] then s else Exec(Apply(s, steps[0]), steps[1..])
  }
}
