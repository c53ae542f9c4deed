/**
 What the connection token resolver promises, for every run of every number of calls in
 every number of processes, with rows created, revoked or changed and processes crashing
 anywhere in between.
 */
module ConnectionRefreshTheorems {
  import opened Wrappers
  import opened ConnectionRefresh

  // ---------------------------------------------------------------- one call moves

  ghost predicate Advances(s: State, s': State, c: CallId) {
    && c in s.calls && c in s'.calls
    && s' == s.(calls := s.calls[c := s'.calls[c]], log := s.log.(rejected := s'.log.rejected))
    && s.log.rejected <= s'.log.rejected
    && s'.calls[c].proc == s.calls[c].proc && s'.calls[c].promise == s.calls[c].promise
    && !s.calls[c].phase.Dead?
    && s.calls[c].phase.InFlight() == s'.calls[c].phase.InFlight()
    && (s.calls[c].phase.InFlight() ==> s.calls[c].phase.cred.Key() == s'.calls[c].phase.cred.Key())
    && CallOk(s', c)
  }

  lemma Known(s: State, c: CallId)
    requires Inv(s) && c in s.calls
    ensures CallOk(s, c)
  {
  }

  lemma Stored(s: State, id: Id)
    requires Inv(s) && id in s.rows
    ensures RowOk(s, id)
  {
  }

  lemma AdvancedCall(s: State, s': State, c: CallId, d: CallId)
    requires Inv(s) && Advances(s, s', c) && d in s'.calls
    ensures CallOk(s', d)
  {
    if d != c {
      hide Inv;
      Known(s, d);
    }
  }

  lemma AdvancedTables(s: State, s': State, c: CallId)
    requires Inv(s) && Advances(s, s', c)
    ensures Tables(s')
  {
    hide CallOk;
    forall slot | slot in s'.inflight ensures SlotOk(s', slot) { assert SlotOk(s, slot); }
    forall id | id in s'.rows ensures RowOk(s', id) { assert RowOk(s, id); }
  }

  lemma Advance(s: State, s': State, c: CallId)
    requires Inv(s) && Advances(s, s', c)
    ensures Inv(s')
  {
    hide CallOk, Advances;
    forall d | d in s'.calls ensures CallOk(s', d) { AdvancedCall(s, s', c, d); }
    AdvancedTables(s, s', c);
  }

  // ---------------------------------------------------------------- a row changes

  /** Row `id` gets new content under a version it never had. */
  ghost predicate Writes(s: State, s': State, id: Id, row: Row) {
    && (if id in s.rows then row.version == s.rows[id].version + 1 else row.version == 1)
    && s' == Put(s, id, row).(log := Put(s, id, row).log.(persisted := s'.log.persisted))
    && s.log.persisted <= s'.log.persisted
    && forall k | k in s'.log.persisted && k !in s.log.persisted :: k.id == id && id in s.rows && k.version < row.version
  }

  lemma WriteCall(s: State, s': State, id: Id, row: Row, c: CallId)
    requires Inv(s) && Writes(s, s', id, row) && c in s.calls
    ensures CallOk(s', c)
  {
    assert CallOk(s, c);
    assert Instance(id, row.version) in s.log.contents ==> PastOk(s, Instance(id, row.version));
    var out := s.calls[c].phase;
    if out.Done? && out.out.Headers? {
      var k :| k in s.log.contents && k.id == out.out.id && s.log.contents[k].status == Active
               && s.log.contents[k].credential == out.out.credential;
      assert s'.log.contents[k] == s.log.contents[k];
    }
  }

  lemma Write(s: State, s': State, id: Id, row: Row)
    requires Inv(s) && Writes(s, s', id, row)
    ensures Inv(s')
  {
    forall c | c in s'.calls ensures CallOk(s', c) { WriteCall(s, s', id, row, c); }
    forall slot | slot in s'.inflight ensures SlotOk(s', slot) { assert SlotOk(s, slot); }
    forall i | i in s'.rows ensures RowOk(s', i) { assert i != id ==> RowOk(s, i); }
    forall k | k in s'.log.contents ensures PastOk(s', k) { assert k in s.log.contents ==> PastOk(s, k); }
    forall k | k in s'.log.persisted ensures SpentOk(s', k) { assert k in s.log.persisted ==> SpentOk(s, k); }
  }

  lemma EditedCall(s: State, id: Id, row: Row, stored: set<Cred>, c: CallId)
    requires Inv(s) && id in s.rows && row.version == s.rows[id].version && s.log.stored <= stored && c in s.calls
    ensures CallOk(s.(rows := s.rows[id := row], log := s.log.(stored := stored)), c)
  {
    hide Inv;
    Known(s, c);
  }

  /** Editing a row without a new version. */
  lemma EditKeeps(s: State, id: Id, row: Row)
    requires Inv(s) && id in s.rows && row.version == s.rows[id].version && row.Fixed() == s.rows[id].Fixed()
    ensures Inv(Put(s, id, row))
  {
    var stored := s.log.stored + {Cred(id, row)};
    var s' := s.(rows := s.rows[id := row], log := s.log.(stored := stored));
    assert RowOk(s, id);
    assert s.log.contents[Instance(id, row.version) := row.Fixed()] == s.log.contents;
    assert Put(s, id, row) == s';
    hide CallOk;
    forall c | c in s'.calls ensures CallOk(s', c) { EditedCall(s, id, row, stored, c); }
    forall slot | slot in s'.inflight ensures SlotOk(s', slot) { assert SlotOk(s, slot); }
    forall i | i in s'.rows ensures RowOk(s', i) { assert RowOk(s, i); }
  }

  lemma ChangeKeeps(s: State, id: Id, row: Row)
    requires Inv(s) && Enabled(s, Change(id, row))
    ensures Inv(Apply(s, Change(id, row)))
  {
    hide Inv;
    if row.version == s.rows[id].version { EditKeeps(s, id, row); } else { Write(s, Put(s, id, row), id, row); }
  }

  // ---------------------------------------------------------------- every step keeps it

  lemma InitHolds()
    ensures Inv(INIT)
  {
  }

  lemma LoadKeeps(s: State, c: CallId, p: Proc, id: Id)
    requires Inv(s) && Enabled(s, Load(c, p, id))
    ensures Inv(Apply(s, Load(c, p, id)))
  {
    var s' := Apply(s, Load(c, p, id));
    forall d | d in s'.calls ensures CallOk(s', d) {
      if d != c { assert CallOk(s, d); } else if id in s.rows { assert RowOk(s, id); }
    }
    forall slot | slot in s'.inflight ensures SlotOk(s', slot) { assert SlotOk(s, slot); }
    forall i | i in s'.rows ensures RowOk(s', i) { assert RowOk(s, i); }
  }

  /** A snapshot of recorded content answers with content recorded as active. */
  lemma SnapshotOk(s: State, cred: Cred, now: int, wanted: set<string>)
    requires CredOk(s, cred)
    ensures OutOk(s, Snapshot(cred, now, wanted))
  {
  }

  lemma LedCall(s: State, c: CallId, d: CallId)
    requires Inv(s) && c in s.calls && s.calls[c].phase.Loaded? && s.calls[c].phase.cred.row.status == Active && d in s.calls
    requires (s.calls[c].proc, s.calls[c].phase.cred.Key()) !in s.inflight
    ensures var cred := s.calls[c].phase.cred;
            CallOk(SetPhase(s, c, Leading(cred)).(inflight := s.inflight[(s.calls[c].proc, cred.Key()) := c]), d)
  {
    hide Inv;
    Known(s, c);
    Known(s, d);
  }

  lemma LeadKeeps(s: State, c: CallId)
    requires Inv(s) && c in s.calls && s.calls[c].phase.Loaded?
    requires s.calls[c].phase.cred.row.status == Active
    requires (s.calls[c].proc, s.calls[c].phase.cred.Key()) !in s.inflight
    ensures var cred := s.calls[c].phase.cred;
            Inv(SetPhase(s, c, Leading(cred)).(inflight := s.inflight[(s.calls[c].proc, cred.Key()) := c]))
  {
    assert s.calls[c].promise.None? by { Known(s, c); }
    hide CallOk;
    var cred := s.calls[c].phase.cred;
    var s' := SetPhase(s, c, Leading(cred)).(inflight := s.inflight[(s.calls[c].proc, cred.Key()) := c]);
    forall d | d in s'.calls ensures CallOk(s', d) { LedCall(s, c, d); }
    forall slot | slot in s'.inflight ensures SlotOk(s', slot) { assert slot in s.inflight ==> SlotOk(s, slot); }
    forall i | i in s'.rows ensures RowOk(s', i) { assert RowOk(s, i); }
  }

  lemma DecideKeeps(s: State, c: CallId, force: bool, now: int, wanted: set<string>)
    requires Inv(s) && Enabled(s, Decide(c, force, now, wanted))
    ensures Inv(Apply(s, Decide(c, force, now, wanted)))
  {
    var cred := s.calls[c].phase.cred;
    var slot := (s.calls[c].proc, cred.Key());
    hide Inv;
    if cred.row.status == Active && ShouldRefresh(cred.row, force, now) {
      if slot in s.inflight { JoinKeeps(s, c, slot); } else { LeadKeeps(s, c); }
    } else {
      AnswerKeeps(s, c, now, wanted);
    }
  }

  lemma AnswerKeeps(s: State, c: CallId, now: int, wanted: set<string>)
    requires Inv(s) && c in s.calls && s.calls[c].phase.Loaded?
    ensures Inv(SetPhase(s, c, Done(Snapshot(s.calls[c].phase.cred, now, wanted))))
  {
    hide Inv;
    Known(s, c);
    SnapshotOk(s, s.calls[c].phase.cred, now, wanted);
    Advance(s, SetPhase(s, c, Done(Snapshot(s.calls[c].phase.cred, now, wanted))), c);
  }

  lemma JoinKeeps(s: State, c: CallId, slot: (Proc, Instance))
    requires Inv(s) && c in s.calls && s.calls[c].phase.Loaded? && s.calls[c].phase.cred.row.status == Active
    requires slot in s.inflight && slot == (s.calls[c].proc, s.calls[c].phase.cred.Key())
    ensures Inv(SetPhase(s, c, Joined(s.calls[c].phase.cred, s.inflight[slot])))
  {
    assert CallOk(s, c) && SlotOk(s, slot);
    Advance(s, SetPhase(s, c, Joined(s.calls[c].phase.cred, s.inflight[slot])), c);
  }

  lemma SendKeeps(s: State, c: CallId, keyConfigured: bool)
    requires Inv(s) && Enabled(s, Send(c, keyConfigured))
    ensures Inv(Apply(s, Send(c, keyConfigured)))
  {
    hide Inv;
    Known(s, c);
    Advance(s, Apply(s, Send(c, keyConfigured)), c);
  }

  lemma GrantKeeps(s: State, c: CallId, next: Secret)
    requires Inv(s) && Enabled(s, Grant(c, next))
    ensures Inv(Apply(s, Grant(c, next)))
  {
    hide Inv;
    Known(s, c);
    Advance(s, Apply(s, Grant(c, next)), c);
  }

  lemma RejectKeeps(s: State, c: CallId, failure: Failure)
    requires Inv(s) && Enabled(s, Reject(c, failure))
    ensures Inv(Apply(s, Reject(c, failure)))
  {
    hide Inv;
    Known(s, c);
    Advance(s, Apply(s, Reject(c, failure)), c);
  }

  /** A persist that hits: the row is written, then the call moves on. */
  lemma PersistHits(s: State, c: CallId, expiresAt: Option<int>, scopes: Option<set<string>>)
    requires Inv(s) && Enabled(s, Persist(c, expiresAt, scopes))
    requires Apply(s, Persist(c, expiresAt, scopes)).calls[c].phase.Confirming?
    ensures Inv(Apply(s, Persist(c, expiresAt, scopes)).(calls := s.calls))
  {
    hide Inv;
    var s' := Apply(s, Persist(c, expiresAt, scopes));
    var id := s.calls[c].phase.cred.id;
    Known(s, c);
    Write(s, s'.(calls := s.calls), id, s'.rows[id]);
  }

  lemma PersistKeeps(s: State, c: CallId, expiresAt: Option<int>, scopes: Option<set<string>>)
    requires Inv(s) && Enabled(s, Persist(c, expiresAt, scopes))
    ensures Inv(Apply(s, Persist(c, expiresAt, scopes)))
  {
    hide Inv;
    var s' := Apply(s, Persist(c, expiresAt, scopes));
    Known(s, c);
    if s'.calls[c].phase.Confirming? {
      PersistHits(s, c, expiresAt, scopes);
      Known(s'.(calls := s.calls), c);
      Advance(s'.(calls := s.calls), s', c);
    } else {
      Advance(s, s', c);
    }
  }

  lemma ReadBackKeeps(s: State, c: CallId, step: Step)
    requires Inv(s) && Enabled(s, step) && (step == Confirm(c) || step == AdoptWinner(c) || step == Break(c))
    ensures Inv(Apply(s, step))
  {
    hide Inv;
    Known(s, c);
    Stored(s, s.calls[c].phase.cred.id);
    Advance(s, Apply(s, step), c);
  }

  lemma SettledCalls(s: State, c: CallId, d: CallId)
    requires Inv(s) && Enabled(s, Settle(c)) && d in s.calls
    ensures CallOk(Apply(s, Settle(c)), d)
  {
    hide Inv;
    Known(s, c);
    Known(s, d);
  }

  lemma SettleKeeps(s: State, c: CallId)
    requires Inv(s) && Enabled(s, Settle(c))
    ensures Inv(Apply(s, Settle(c)))
  {
    hide CallOk;
    var s' := Apply(s, Settle(c));
    forall d | d in s'.calls ensures CallOk(s', d) { SettledCalls(s, c, d); }
    forall slot | slot in s'.inflight ensures SlotOk(s', slot) { assert SlotOk(s, slot); }
    forall id | id in s'.rows ensures RowOk(s', id) { assert RowOk(s, id); }
  }

  lemma JoinSettleKeeps(s: State, c: CallId)
    requires Inv(s) && Enabled(s, JoinSettle(c))
    ensures Inv(Apply(s, JoinSettle(c)))
  {
    hide Inv;
    Known(s, c);
    Advance(s, Apply(s, JoinSettle(c)), c);
  }

  lemma ContinueKeeps(s: State, c: CallId, now: int, wanted: set<string>)
    requires Inv(s) && Enabled(s, Continue(c, now, wanted))
    ensures Inv(Apply(s, Continue(c, now, wanted)))
  {
    hide Inv;
    Known(s, c);
    var result := s.calls[c].phase.result;
    if result.Fresh? { SnapshotOk(s, result.cred, now, wanted); }
    Advance(s, Apply(s, Continue(c, now, wanted)), c);
  }

  lemma StampHits(s: State, c: CallId)
    requires Inv(s) && Enabled(s, Stamp(c)) && AtVersion(s.rows, s.calls[c].phase.cred.Key())
    ensures Inv(Apply(s, Stamp(c)).(calls := s.calls))
  {
    hide Inv;
    var s', id := Apply(s, Stamp(c)), s.calls[c].phase.cred.id;
    Write(s, s'.(calls := s.calls), id, s'.rows[id]);
  }

  lemma StampKeeps(s: State, c: CallId)
    requires Inv(s) && Enabled(s, Stamp(c))
    ensures Inv(Apply(s, Stamp(c)))
  {
    hide Inv;
    var s' := Apply(s, Stamp(c));
    if AtVersion(s.rows, s.calls[c].phase.cred.Key()) {
      StampHits(s, c);
      Advance(s'.(calls := s.calls), s', c);
    } else {
      Advance(s, s', c);
    }
  }

  lemma CrashedCalls(s: State, p: Proc, d: CallId)
    requires Inv(s) && d in s.calls
    ensures d in Apply(s, Crash(p)).calls && CallOk(Apply(s, Crash(p)), d)
  {
    hide Inv;
    Known(s, d);
    if s.calls[d].phase.Joined? {
      assert JoinOk(s, s.calls[s.calls[d].phase.leader], s.calls[d].phase.cred.Key());
    }
  }

  lemma CrashKeeps(s: State, p: Proc)
    requires Inv(s)
    ensures Inv(Apply(s, Crash(p)))
  {
    hide CallOk;
    var s' := Apply(s, Crash(p));
    forall d | d in s'.calls ensures CallOk(s', d) { CrashedCalls(s, p, d); }
    forall slot | slot in s'.inflight ensures SlotOk(s', slot) { assert SlotOk(s, slot); }
    forall id | id in s'.rows ensures RowOk(s', id) { assert RowOk(s, id); }
  }

  lemma StepKeeps(s: State, step: Step)
    requires Inv(s) && Enabled(s, step)
    ensures Inv(Apply(s, step))
  {
    match step
    case Load(c, p, id) => LoadKeeps(s, c, p, id);
    case Decide(c, force, now, wanted) => DecideKeeps(s, c, force, now, wanted);
    case Send(c, keyConfigured) => SendKeeps(s, c, keyConfigured);
    case Grant(c, next) => GrantKeeps(s, c, next);
    case Reject(c, failure) => RejectKeeps(s, c, failure);
    case Persist(c, expiresAt, scopes) => PersistKeeps(s, c, expiresAt, scopes);
    case Confirm(c) => ReadBackKeeps(s, c, step);
    case AdoptWinner(c) => ReadBackKeeps(s, c, step);
    case Break(c) => ReadBackKeeps(s, c, step);
    case Settle(c) => SettleKeeps(s, c);
    case JoinSettle(c) => JoinSettleKeeps(s, c);
    case Continue(c, now, wanted) => ContinueKeeps(s, c, now, wanted);
    case Stamp(c) => StampKeeps(s, c);
    case Crash(p) => CrashKeeps(s, p);
    case Create(id, row) => Write(s, Apply(s, step), id, row.(version := 1));
    case Change(id, row) => ChangeKeeps(s, id, row);
  }

  lemma {:induction false} RunKeeps(s: State, steps: seq<Step>)
    requires Inv(s) && ValidRun(s, steps)
    ensures Inv(Exec(s, steps))
    decreases |steps|
  {
    if steps != [] {
      StepKeeps(s, steps[0]);
      RunKeeps(Apply(s, steps[0]), steps[1..]);
    }
  }

  lemma {:induction false} RunsInSequence(s: State, a: seq<Step>, b: seq<Step>)
    requires ValidRun(s, a) && ValidRun(Exec(s, a), b)
    ensures ValidRun(s, a + b) && Exec(s, a + b) == Exec(Exec(s, a), b)
    decreases |a|
  {
    if a == [] {
      assert a + b == b;
    } else {
      assert (a + b)[1..] == a[1..] + b;
      RunsInSequence(Apply(s, a[0]), a[1..], b);
    }
  }

  /** Every reachable state satisfies the invariant. */
  lemma Reachable(past: seq<Step>)
    requires ValidRun(INIT, past)
    ensures Inv(Exec(INIT, past))
  {
    InitHolds();
    RunKeeps(INIT, past);
  }

  // ---------------------------------------------------------------- at most one persist

  /** `step` writes rotated tokens over instance `k`. */
  predicate Persists(s: State, step: Step, k: Instance) {
    step.Persist? && Enabled(s, step) && s.calls[step.c].phase.cred.Key() == k
    && AtVersion(s.rows, k) && s.rows[k.id].status == Active
  }

  lemma {:induction false} PersistedStays(s: State, steps: seq<Step>)
    requires ValidRun(s, steps)
    ensures s.log.persisted <= Exec(s, steps).log.persisted
    decreases |steps|
  {
    if steps != [] { PersistedStays(Apply(s, steps[0]), steps[1..]); }
  }

  /** With no lock, in any interleaving, at most one refresh of an instance is written. */
  lemma AtMostOneRefreshPersists(past: seq<Step>, first: Step, between: seq<Step>, last: Step, k: Instance)
    requires ValidRun(INIT, past) && Persists(Exec(INIT, past), first, k)
    requires ValidRun(Apply(Exec(INIT, past), first), between)
    ensures !Persists(Exec(Apply(Exec(INIT, past), first), between), last, k)
  {
    var s := Exec(INIT, past);
    var s' := Apply(s, first);
    Reachable(past);
    StepKeeps(s, first);
    RunKeeps(s', between);
    PersistedStays(s', between);
    assert SpentOk(Exec(s', between), k);
  }

  /** `step` gives row `id` a new version from outside. */
  predicate Replaces(s: State, step: Step, id: Id)
    requires id in s.rows
  {
    step.Change? && step.id == id && step.row.version != s.rows[id].version
  }

  /** `step` writes credential bytes of row `id`: a persist whose compare-and-set matches, or a
      change from outside with a new version. */
  predicate WritesBytes(s: State, step: Step, id: Id)
    requires id in s.rows
  {
    Persists(s, step, Instance(id, s.rows[id].version)) || Replaces(s, step, id)
  }

  predicate BytesWritten(s: State, steps: seq<Step>, id: Id)
    requires ValidRun(s, steps)
    decreases |steps|
  {
    steps != [] && id in s.rows && (WritesBytes(s, steps[0], id) || BytesWritten(Apply(s, steps[0]), steps[1..], id))
  }

  lemma OtherStepsWriteNoBytes(s: State, step: Step, id: Id)
    requires Enabled(s, step) && id in s.rows
    ensures id in Apply(s, step).rows
    ensures Apply(s, step).rows[id].credential != s.rows[id].credential ==> WritesBytes(s, step, id)
  {
  }

  /** Through any run the stored bytes stay, unless a persist whose compare-and-set matched, or a
      change from outside, was among its steps: whoever loses the race writes none. */
  lemma {:induction false} LosersWriteNoBytes(s: State, steps: seq<Step>, id: Id)
    requires ValidRun(s, steps) && id in s.rows
    ensures id in Exec(s, steps).rows
    ensures Exec(s, steps).rows[id].credential != s.rows[id].credential ==> BytesWritten(s, steps, id)
    decreases |steps|
  {
    if steps != [] {
      OtherStepsWriteNoBytes(s, steps[0], id);
      LosersWriteNoBytes(Apply(s, steps[0]), steps[1..], id);
    }
  }

  /** A refresher whose compare-and-set missed ends its promise, as soon as it reads the
      row again, with the row if that is shared and active then, or fails. */
  lemma LosersAdoptOrFail(past: seq<Step>, c: CallId)
    requires ValidRun(INIT, past)
    requires var s := Exec(INIT, past); c in s.calls && s.calls[c].phase.Missed?
    ensures var s := Exec(INIT, past);
            var key := s.calls[c].phase.cred.Key();
            var result := Apply(s, AdoptWinner(c)).calls[c].phase.result;
            if result.Fresh?
            then Readable(s.rows, key.id) && result.cred == Cred(key.id, s.rows[key.id]) && s.rows[key.id].status == Active
            else !IsPermanentRefreshError(result.failure) && key.id in s.rows
                 && !(s.rows[key.id].shared && s.rows[key.id].status == Active)
  {
    Reachable(past);
    assert CallOk(Exec(INIT, past), c);
  }

  // ---------------------------------------------------------------- needs_reauth

  /** `step` brings the call that refreshes instance `k` a permanent failure. */
  predicate Rejects(s: State, step: Step, k: Instance) {
    step.Reject? && Enabled(s, step) && IsPermanentRefreshError(step.failure) && s.calls[step.c].phase.cred.Key() == k
  }

  predicate RejectedDuring(s: State, steps: seq<Step>, k: Instance)
    requires ValidRun(s, steps)
    decreases |steps|
  {
    steps != [] && (Rejects(s, steps[0], k) || RejectedDuring(Apply(s, steps[0]), steps[1..], k))
  }

  lemma RejectionIsRecorded(s: State, step: Step, k: Instance)
    requires Enabled(s, step)
    ensures k in Apply(s, step).log.rejected <==> k in s.log.rejected || Rejects(s, step, k)
  {
  }

  /** The recorded rejections of a run are the permanent failures among its answers. */
  lemma {:induction false} RejectionIsAPermanentAnswer(s: State, steps: seq<Step>, k: Instance)
    requires ValidRun(s, steps)
    ensures k in Exec(s, steps).log.rejected <==> k in s.log.rejected || RejectedDuring(s, steps, k)
    decreases |steps|
  {
    if steps != [] {
      RejectionIsRecorded(s, steps[0], k);
      RejectionIsAPermanentAnswer(Apply(s, steps[0]), steps[1..], k);
    }
  }

  /** Which steps write rows, and that a persist writes only an active one. */
  lemma RowsFrame(s: State, step: Step)
    requires Enabled(s, step)
    ensures !step.Persist? && !step.Stamp? && !step.Create? && !step.Change? ==> Apply(s, step).rows == s.rows
  {
  }

  lemma PersistFrame(s: State, step: Step, id: Id)
    requires Enabled(s, step) && step.Persist?
    ensures id in Apply(s, step).rows <==> id in s.rows
    ensures id in s.rows && Apply(s, step).rows[id] != s.rows[id] ==>
              s.rows[id].status == Active && Apply(s, step).rows[id].status == Active
  {
  }

  /** `cred` was loaded from row `id` at its present version. */
  predicate LoadedFrom(cred: Cred, row: Row, id: Id) {
    cred.Key() == Instance(id, row.version) && cred.row.Fixed() == row.Fixed()
  }

  /** A stamp hits the active instance the call loaded, or nothing. */
  lemma StampFrame(s: State, c: CallId, id: Id)
    requires Inv(s) && Enabled(s, Stamp(c))
    ensures id in Apply(s, Stamp(c)).rows <==> id in s.rows
    ensures id in s.rows && Apply(s, Stamp(c)).rows[id] != s.rows[id] ==>
              && s.rows[id].status == Active && LoadedFrom(s.calls[c].phase.cred, s.rows[id], id)
              && Instance(id, s.rows[id].version) in s.log.rejected
              && Apply(s, Stamp(c)).rows
                 == s.rows[id := s.rows[id].(status := NeedsReauth, version := s.rows[id].version + 1)]
  {
    hide Inv;
    Known(s, c);
    if s.calls[c].phase.cred.id in s.rows { Stored(s, s.calls[c].phase.cred.id); }
  }

  lemma StampHitsTheRejected(s: State, step: Step, id: Id)
    requires Inv(s) && Enabled(s, step) && !step.Create? && !step.Change?
    requires id in Apply(s, step).rows && Apply(s, step).rows[id].status == NeedsReauth
    requires id in s.rows ==> s.rows[id].status != NeedsReauth
    ensures && step.Stamp? && id in s.rows && s.rows[id].status == Active
            && LoadedFrom(s.calls[step.c].phase.cred, s.rows[id], id)
            && Instance(id, s.rows[id].version) in s.log.rejected
            && Apply(s, step).rows ==
                 s.rows[id := s.rows[id].(status := NeedsReauth, version := s.rows[id].version + 1)]
  {
    hide Inv, Apply;
    RowsFrame(s, step);
    if step.Persist? { PersistFrame(s, step, id); }
    if step.Stamp? { StampFrame(s, step.c, id); }
  }

  /** A step of the resolver makes a row `needs_reauth` only after the token endpoint rejected,
      with a 4xx other than 408 and 429, the refresh of exactly the instance the row is still
      at, which is active; its credential is kept. */
  lemma OnlyARejectedGrantNeedsReauth(past: seq<Step>, step: Step, id: Id)
    requires ValidRun(INIT, past) && Enabled(Exec(INIT, past), step)
    requires var s := Exec(INIT, past);
             && !step.Create? && !step.Change?
             && id in Apply(s, step).rows && Apply(s, step).rows[id].status == NeedsReauth
             && (id in s.rows ==> s.rows[id].status != NeedsReauth)
    ensures var s := Exec(INIT, past);
            && step.Stamp? && id in s.rows && s.rows[id].status == Active
            && LoadedFrom(s.calls[step.c].phase.cred, s.rows[id], id)
            && RejectedDuring(INIT, past, Instance(id, s.rows[id].version))
            && Apply(s, step).rows ==
                 s.rows[id := s.rows[id].(status := NeedsReauth, version := s.rows[id].version + 1)]
  {
    Reachable(past);
    var s := Exec(INIT, past);
    StampHitsTheRejected(s, step, id);
    RejectionIsAPermanentAnswer(INIT, past, Instance(id, s.rows[id].version));
  }

  lemma OutsideFrame(s: State, step: Step, id: Id)
    requires Enabled(s, step) && (step.Create? || step.Change?) && step.id != id && id in s.rows
    ensures id in Apply(s, step).rows && Apply(s, step).rows[id] == s.rows[id]
  {
  }

  lemma DeadRowStays(s: State, step: Step, id: Id)
    requires Inv(s) && Enabled(s, step) && id in s.rows && s.rows[id].status != Active
    requires !(step.Change? && step.id == id)
    ensures id in Apply(s, step).rows && Apply(s, step).rows[id] == s.rows[id]
  {
    hide Inv, Apply;
    RowsFrame(s, step);
    if step.Persist? { PersistFrame(s, step, id); }
    if step.Stamp? { StampFrame(s, step.c, id); }
    if step.Create? || step.Change? { OutsideFrame(s, step, id); }
  }

  /** A revoked or otherwise dead row is never revived by the resolver. */
  lemma DeadRowsStayDead(past: seq<Step>, step: Step, id: Id)
    requires ValidRun(INIT, past) && Enabled(Exec(INIT, past), step)
    requires var s := Exec(INIT, past); id in s.rows && s.rows[id].status != Active && !step.Change?
    ensures var s := Exec(INIT, past); id in Apply(s, step).rows && Apply(s, step).rows[id] == s.rows[id]
  {
    Reachable(past);
    DeadRowStays(Exec(INIT, past), step, id);
  }

  /** Headers handed to a caller carry a credential its row stored while active. */
  lemma HeadersWereStoredActive(past: seq<Step>, c: CallId)
    requires ValidRun(INIT, past)
    ensures var s := Exec(INIT, past);
            c in s.calls && s.calls[c].phase.Done? ==> OutOk(s, s.calls[c].phase.out)
  {
    Reachable(past);
    var s := Exec(INIT, past);
    if c in s.calls { assert CallOk(s, c); }
  }
}
