/**
 The connection token resolver of packages/db/src/connection-token-resolver.ts as a state
 machine whose steps are the pieces of code between two awaits.

 There is no lock across processes here: one in-flight map per process, and rows guarded
 only by the compare-and-set on (id, version).  Every write that changes a row's status or
 credential bumps its version; the other fields can be edited from outside without.
 */
module ConnectionRefresh {
  import opened Wrappers

  type Id = nat
  type Proc = nat
  type CallId = nat
  type Secret = nat

  datatype Status = Active | NeedsReauth | Revoked | Errored

  datatype Kind = OAuth2 | ApiKey | Other

  /** What a version of a row fixes. */
  datatype Content = Content(status: Status, credential: Secret)

  /** `shared`: the row belongs to the workspace, not to one of its subjects. */
  datatype Row = Row(
    version: nat, status: Status, kind: Kind, credential: Secret, expiresAt: Option<int>, scopes: set<string>,
    shared: bool)
  {
    function Fixed(): Content { Content(status, credential) }
  }

  datatype Cred = Cred(id: Id, row: Row) {
    function Key(): Instance { Instance(id, row.version) }
  }

  datatype Instance = Instance(id: Id, version: nat)

  /** Why a refresh failed: the token endpoint's HTTP status, or anything else. */
  datatype Failure = Http(status: int) | OtherError

  datatype Reason = MissingConnection | Expired | InsufficientScope | RefreshFailed

  datatype Outcome = Headers(id: Id, credential: Secret) | AuthNeeded(reason: Reason)

  /** How a shared refresh promise settled. */
  datatype Result = Fresh(cred: Cred) | Broken(failure: Failure)

  datatype Phase =
    | Loaded(cred: Cred)                      // the row has been read
    | Joined(cred: Cred, leader: CallId)      // waiting on another call's promise
    | Leading(cred: Cred)                     // in the in-flight map, about to call the endpoint
    | Awaiting(cred: Cred)                    // refresh token sent
    | Granted(cred: Cred, next: Secret)       // endpoint rotated, about to persist
    | Confirming(cred: Cred)                  // persisted, about to read the row back
    | Missed(cred: Cred)                      // about to read whatever row won
    | Ending(cred: Cred, result: Result)      // refresh over, in-flight entry still there
    | Settled(cred: Cred, result: Result)     // promise settled
    | Stamping(cred: Cred, failure: Failure)  // caught a permanent failure
    | Done(out: Outcome)
    | Dead
  {
    /** Owns an entry of its process's in-flight map. */
    predicate InFlight() {
      Leading? || Awaiting? || Granted? || Confirming? || Missed? || Ending?
    }
  }

  /** `promise` is how the refresh this call led settled, kept for the calls that joined it. */
  datatype Caller = Caller(proc: Proc, promise: Option<Result>, phase: Phase)

  /**
   What has happened so far; no step reads it.
    - contents: the status and credential of every instance there has been
    - stored: every row there has been
    - rejected: the instances whose refresh the endpoint rejected for good
    - persisted: the instances a refresh of which was written
   */
  datatype Log = Log(
    contents: map<Instance, Content>, stored: set<Cred>, rejected: set<Instance>, persisted: set<Instance>)

  datatype State = State(
    rows: map<Id, Row>,
    calls: map<CallId, Caller>,
    inflight: map<(Proc, Instance), CallId>,
    log: Log)

  datatype Step =
    | Load(c: CallId, p: Proc, id: Id)
    | Decide(c: CallId, force: bool, now: int, wanted: set<string>)
    | Send(c: CallId, keyConfigured: bool)
    | Grant(c: CallId, next: Secret)
    | Reject(c: CallId, failure: Failure)
    | Persist(c: CallId, expiresAt: Option<int>, scopes: Option<set<string>>)
    | Confirm(c: CallId)
    | AdoptWinner(c: CallId)
    | Break(c: CallId)
    | Settle(c: CallId)
    | JoinSettle(c: CallId)
    | Continue(c: CallId, now: int, wanted: set<string>)
    | Stamp(c: CallId)
    | Crash(p: Proc)
    | Create(id: Id, row: Row)
    | Change(id: Id, row: Row)

  const INIT := State(map[], map[], map[], Log(map[], {}, {}, {}))

  const REFRESH_WINDOW_MS := 60_000

  // ---------------------------------------------------------------- pure parts

  /** A rejected grant, as opposed to throttling, a time-out, a 5xx or a network error. */
  predicate IsPermanentRefreshError(failure: Failure) {
    failure.Http? && failure.status >= 400 && failure.status < 500 && failure.status != 408 && failure.status != 429
  }

  predicate ShouldRefresh(row: Row, force: bool, now: int) {
    row.kind == OAuth2 && (force || (row.expiresAt.Some? && row.expiresAt.value <= now + REFRESH_WINDOW_MS))
  }

  function AuthNeededForStatus(row: Row, now: int): Outcome {
    if row.status == Revoked then AuthNeeded(MissingConnection)
    else if row.expiresAt.Some? && row.expiresAt.value <= now then AuthNeeded(Expired)
    else AuthNeeded(RefreshFailed)
  }

  function Snapshot(cred: Cred, now: int, wanted: set<string>): Outcome {
    if cred.row.status != Active then AuthNeededForStatus(cred.row, now)
    else if !(wanted <= cred.row.scopes) then AuthNeeded(InsufficientScope)
    else Headers(cred.id, cred.row.credential)
  }

  // ---------------------------------------------------------------- steps

  predicate Enabled(s: State, step: Step) {
    match step
    case Load(c, p, id) => c !in s.calls
    case Decide(c, _, _, _) => c in s.calls && s.calls[c].phase.Loaded?
    case Send(c, _) => c in s.calls && s.calls[c].phase.Leading?
    case Grant(c, _) => c in s.calls && s.calls[c].phase.Awaiting?
    case Reject(c, _) => c in s.calls && s.calls[c].phase.Awaiting?
    case Persist(c, _, _) => c in s.calls && s.calls[c].phase.Granted?
    case Confirm(c) => c in s.calls && s.calls[c].phase.Confirming?
    case AdoptWinner(c) => c in s.calls && s.calls[c].phase.Missed?
    case Break(c) =>
      c in s.calls && (s.calls[c].phase.Granted? || s.calls[c].phase.Confirming? || s.calls[c].phase.Missed?
                       || s.calls[c].phase.Stamping?)
    case Settle(c) => c in s.calls && s.calls[c].phase.Ending?
    case JoinSettle(c) =>
      c in s.calls && s.calls[c].phase.Joined?
      && s.calls[c].phase.leader in s.calls && s.calls[s.calls[c].phase.leader].promise.Some?
    case Continue(c, _, _) => c in s.calls && s.calls[c].phase.Settled?
    case Stamp(c) => c in s.calls && s.calls[c].phase.Stamping?
    case Crash(p) => true
    case Create(id, row) => id !in s.rows
    case Change(id, row) =>
      && id in s.rows
      && (row.version == s.rows[id].version + 1
          || (row.version == s.rows[id].version && row.Fixed() == s.rows[id].Fixed()))
  }

  function SetPhase(s: State, c: CallId, phase: Phase): State
    requires c in s.calls
  {
    s.(calls := s.calls[c := s.calls[c].(phase := phase)])
  }

  /** Write a row and record its content under its instance. */
  function Put(s: State, id: Id, row: Row): State {
    s.(rows := s.rows[id := row],
       log := s.log.(contents := s.log.contents[Instance(id, row.version) := row.Fixed()],
                     stored := s.log.stored + {Cred(id, row)}))
  }

  /** The resolver reads the rows shared in the workspace, and no others. */
  predicate Readable(rows: map<Id, Row>, id: Id) {
    id in rows && rows[id].shared
  }

  predicate AtVersion(rows: map<Id, Row>, key: Instance) {
    key.id in rows && rows[key.id].version == key.version
  }

  function ApplyDecide(s: State, c: CallId, force: bool, now: int, wanted: set<string>): State
    requires c in s.calls && s.calls[c].phase.Loaded?
  {
    var cred := s.calls[c].phase.cred;
    var slot := (s.calls[c].proc, cred.Key());
    if cred.row.status != Active then SetPhase(s, c, Done(AuthNeededForStatus(cred.row, now)))
    else if !ShouldRefresh(cred.row, force, now) then SetPhase(s, c, Done(Snapshot(cred, now, wanted)))
    else if slot in s.inflight then SetPhase(s, c, Joined(cred, s.inflight[slot]))
    else SetPhase(s, c, Leading(cred)).(inflight := s.inflight[slot := c])
  }

  function ApplyReject(s: State, c: CallId, failure: Failure): State
    requires c in s.calls && s.calls[c].phase.Awaiting?
  {
    var cred := s.calls[c].phase.cred;
    var s' := SetPhase(s, c, Ending(cred, Broken(failure)));
    if IsPermanentRefreshError(failure)
    then s'.(log := s.log.(rejected := s.log.rejected + {cred.Key()}))
    else s'
  }

  function ApplyPersist(s: State, c: CallId, expiresAt: Option<int>, scopes: Option<set<string>>): State
    requires c in s.calls && s.calls[c].phase.Granted?
  {
    var cred := s.calls[c].phase.cred;
    var key := cred.Key();
    if AtVersion(s.rows, key) && s.rows[key.id].status == Active then
      var row := s.rows[key.id].(
        version := key.version + 1, credential := s.calls[c].phase.next, expiresAt := expiresAt,
        scopes := if scopes.Some? then scopes.value else s.rows[key.id].scopes);
      var s' := Put(SetPhase(s, c, Confirming(cred)), key.id, row);
      s'.(log := s'.log.(persisted := s.log.persisted + {key}))
    else SetPhase(s, c, Missed(cred))
  }

  /** The row read back by id: any readable row after our own write, only an active one otherwise. */
  function ApplyConfirm(s: State, c: CallId): State
    requires c in s.calls && s.calls[c].phase.Confirming?
  {
    var cred := s.calls[c].phase.cred;
    if Readable(s.rows, cred.id) then SetPhase(s, c, Ending(cred, Fresh(Cred(cred.id, s.rows[cred.id]))))
    else SetPhase(s, c, Missed(cred))
  }

  function ApplyAdoptWinner(s: State, c: CallId): State
    requires c in s.calls && s.calls[c].phase.Missed?
  {
    var cred := s.calls[c].phase.cred;
    if Readable(s.rows, cred.id) && s.rows[cred.id].status == Active
    then SetPhase(s, c, Ending(cred, Fresh(Cred(cred.id, s.rows[cred.id]))))
    else SetPhase(s, c, Ending(cred, Broken(OtherError)))
  }

  function ApplySettle(s: State, c: CallId): State
    requires c in s.calls && s.calls[c].phase.Ending?
  {
    var cred := s.calls[c].phase.cred;
    var slot := (s.calls[c].proc, cred.Key());
    var caller := s.calls[c].(promise := Some(s.calls[c].phase.result), phase := Settled(cred, s.calls[c].phase.result));
    var s' := s.(calls := s.calls[c := caller]);
    if slot in s.inflight && s.inflight[slot] == c then s'.(inflight := s.inflight - {slot}) else s'
  }

  /** What every caller, the leader or a joined one, does with the settled promise. */
  function ApplyContinue(s: State, c: CallId, now: int, wanted: set<string>): State
    requires c in s.calls && s.calls[c].phase.Settled?
  {
    var phase := s.calls[c].phase;
    match phase.result
    case Fresh(cred) => SetPhase(s, c, Done(Snapshot(cred, now, wanted)))
    case Broken(failure) =>
      if IsPermanentRefreshError(failure) then SetPhase(s, c, Stamping(phase.cred, failure))
      else SetPhase(s, c, Done(AuthNeeded(RefreshFailed)))
  }

  function ApplyStamp(s: State, c: CallId): State
    requires c in s.calls && s.calls[c].phase.Stamping?
  {
    var key := s.calls[c].phase.cred.Key();
    var s' := SetPhase(s, c, Done(AuthNeeded(RefreshFailed)));
    if AtVersion(s.rows, key)
    then Put(s', key.id, s.rows[key.id].(status := NeedsReauth, version := key.version + 1))
    else s'
  }

  function ApplyCrash(s: State, p: Proc): State {
    s.(calls := map c | c in s.calls :: if s.calls[c].proc == p then s.calls[c].(phase := Dead) else s.calls[c],
       inflight := map slot: (Proc, Instance) | slot in s.inflight && slot.0 != p :: s.inflight[slot])
  }

  function Apply(s: State, step: Step): State
    requires Enabled(s, step)
  {
    match step
    case Load(c, p, id) =>
      s.(calls := s.calls[c := Caller(p, None,
        if Readable(s.rows, id) then Loaded(Cred(id, s.rows[id])) else Done(AuthNeeded(MissingConnection)))])
    case Decide(c, force, now, wanted) => ApplyDecide(s, c, force, now, wanted)
    case Send(c, keyConfigured) =>
      SetPhase(s, c, if keyConfigured then Awaiting(s.calls[c].phase.cred)
                     else Ending(s.calls[c].phase.cred, Broken(OtherError)))
    case Grant(c, next) => SetPhase(s, c, Granted(s.calls[c].phase.cred, next))
    case Reject(c, failure) => ApplyReject(s, c, failure)
    case Persist(c, expiresAt, scopes) => ApplyPersist(s, c, expiresAt, scopes)
    case Confirm(c) => ApplyConfirm(s, c)
    case AdoptWinner(c) => ApplyAdoptWinner(s, c)
    case Break(c) =>
      SetPhase(s, c, if s.calls[c].phase.Stamping? then Done(AuthNeeded(RefreshFailed))
                     else Ending(s.calls[c].phase.cred, Broken(OtherError)))
    case Settle(c) => ApplySettle(s, c)
    case JoinSettle(c) =>
      SetPhase(s, c, Settled(s.calls[c].phase.cred, s.calls[s.calls[c].phase.leader].promise.value))
    case Continue(c, now, wanted) => ApplyContinue(s, c, now, wanted)
    case Stamp(c) => ApplyStamp(s, c)
    case Crash(p) => ApplyCrash(s, p)
    case Create(id, row) => Put(s, id, row.(version := 1))
    case Change(id, row) => Put(s, id, row)
  }

  predicate ValidRun(s: State, steps: seq<Step>)
    decreases |steps|
  {
    steps == [] || (Enabled(s, steps[0]) && ValidRun(Apply(s, steps[0]), steps[1..]))
  }

  function Exec(s: State, steps: seq<Step>): State
    requires ValidRun(s, steps)
    decreases |steps|
  {
    if steps == [] then s else Exec(Apply(s, steps[0]), steps[1..])
  }

  // ---------------------------------------------------------------- the invariant

  /** A snapshot is the content its instance had, and the row has not gone back before it. */
  ghost predicate CredOk(s: State, cred: Cred) {
    && cred in s.log.stored
    && cred.Key() in s.log.contents && s.log.contents[cred.Key()] == cred.row.Fixed()
    && cred.id in s.rows && cred.row.version <= s.rows[cred.id].version
  }

  ghost predicate ResultOk(s: State, k: Instance, result: Result) {
    match result
    case Fresh(cred) => cred.id == k.id && CredOk(s, cred)
    case Broken(failure) => IsPermanentRefreshError(failure) ==> k in s.log.rejected
  }

  ghost predicate OutOk(s: State, out: Outcome) {
    out.Headers? ==>
      exists k | k in s.log.contents ::
        k.id == out.id && s.log.contents[k].status == Active && s.log.contents[k].credential == out.credential
  }

  /** The instance whose promise a call waits for or has. */
  ghost predicate CallOk(s: State, c: CallId)
    requires c in s.calls
  {
    var caller := s.calls[c];
    var phase := caller.phase;
    && (!phase.Done? && !phase.Dead? ==> CredOk(s, phase.cred))
    && (phase.Loaded? || phase.InFlight() ==> caller.promise.None?)
    && (!phase.Done? && !phase.Dead? && !phase.Loaded? ==> phase.cred.row.status == Active)
    && (phase.InFlight() ==>
          var slot := (caller.proc, phase.cred.Key());
          slot in s.inflight && s.inflight[slot] == c)
    && (phase.Ending? || phase.Settled? ==> ResultOk(s, phase.cred.Key(), phase.result))
    && (phase.Stamping? ==> IsPermanentRefreshError(phase.failure) && phase.cred.Key() in s.log.rejected)
    && (phase.Done? ==> OutOk(s, phase.out))
    && (phase.Joined? ==> phase.leader in s.calls && JoinOk(s, s.calls[phase.leader], phase.cred.Key()))
  }

  /** The leader a call joined is still refreshing the same instance, or its promise is about it. */
  ghost predicate JoinOk(s: State, leader: Caller, k: Instance) {
    if leader.promise.Some? then ResultOk(s, k, leader.promise.value)
    else leader.phase.Dead? || (leader.phase.InFlight() && leader.phase.cred.Key() == k)
  }

  ghost predicate SlotOk(s: State, slot: (Proc, Instance))
    requires slot in s.inflight
  {
    && s.inflight[slot] in s.calls
    && var caller := s.calls[s.inflight[slot]];
       && caller.proc == slot.0 && caller.promise.None?
       && caller.phase.InFlight() && caller.phase.cred.Key() == slot.1
  }

  /** Rows are the latest content recorded for their id. */
  ghost predicate RowOk(s: State, id: Id)
    requires id in s.rows
  {
    var k := Instance(id, s.rows[id].version);
    Cred(id, s.rows[id]) in s.log.stored && k in s.log.contents && s.log.contents[k] == s.rows[id].Fixed()
  }

  ghost predicate PastOk(s: State, k: Instance)
    requires k in s.log.contents
  {
    k.id in s.rows && k.version <= s.rows[k.id].version
  }

  ghost predicate SpentOk(s: State, k: Instance)
    requires k in s.log.persisted
  {
    k.id in s.rows && k.version < s.rows[k.id].version
  }

  ghost predicate Calls(s: State) {
    forall c | c in s.calls :: CallOk(s, c)
  }

  ghost predicate Tables(s: State) {
    && (forall slot | slot in s.inflight :: SlotOk(s, slot))
    && (forall id | id in s.rows :: RowOk(s, id))
    && (forall k | k in s.log.contents :: PastOk(s, k))
    && (forall k | k in s.log.persisted :: SpentOk(s, k))
  }

  ghost predicate Inv(s: State) {
    Calls(s) && Tables(s)
  }
}
