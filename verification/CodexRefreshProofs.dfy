/** The invariant of the rotating-token refresh protocol, and that every step keeps it. */
module CodexRefreshProofs {
  import opened CodexRefresh

  // ---------------------------------------------------------------- the invariant

  /** The stored row can no longer match a compare-and-set on `k`. */
  ghost predicate Moved(rows: map<Id, Row>, k: Instance) {
    k.id in rows ==>
      rows[k.id].version > k.version || (rows[k.id].version == k.version && rows[k.id].status != Active)
  }

  /** The lock holder still has the tokens granted for `k`: unwritten or staged. */
  ghost predicate InHand(s: State, p: Proc, k: Instance) {
    && k.id in s.locks && s.locks[k.id] in s.calls
    && var caller := s.calls[s.locks[k.id]];
       && caller.proc == p && caller.phase.Locked() && caller.phase.cred.Key() == k
       && (caller.phase.Granted?
           || (caller.phase.Leaving? && k.id in s.staged && s.staged[k.id].status == Active))
  }

  ghost predicate Unspent(s: State, k: Instance) {
    k !in s.log.persisted && forall p :: (p, k) !in s.log.outstanding
  }

  ghost predicate CredOk(s: State, id: Id, cred: Cred) {
    && cred.id == id && id in s.issued
    && (id in s.rows ==> cred.row.version <= s.rows[id].version)
    && (id, cred.row.tokens.access) in s.log.minted
  }

  ghost predicate OutOk(s: State, id: Id, out: Outcome) {
    out.Token? ==> (id, out.access) in s.log.minted
  }

  /** What the phase of one call says about the rest of the state. */
  ghost predicate CallOk(s: State, c: CallId)
    requires c in s.calls
  {
    var caller := s.calls[c];
    var phase := caller.phase;
    && (phase.Loaded? || phase.Leading() ==> CredOk(s, caller.id, phase.cred))
    && (phase.Locked() ==> caller.id in s.locks && s.locks[caller.id] == c)
    && (phase.Leading() ==>
          var slot := (caller.proc, phase.cred.Key());
          slot in s.inflight && s.inflight[slot] == c)
    && (phase.Calling? ==> Unspent(s, phase.cred.Key()))
    && (phase.Missed? || (phase.Stamping? && !phase.refused) ==> Moved(s.rows, phase.cred.Key()))
    && (phase.Stamping? && phase.refused ==> phase.cred.Key() in s.log.refused)
    && (phase.Done? || phase.Settling? || (phase.Leaving? && caller.id !in s.staged) ==>
          OutOk(s, caller.id, phase.out))
    && (phase.Joined? ==> phase.leader in s.calls && s.calls[phase.leader].id == caller.id)
  }

  ghost predicate LockOk(s: State, id: Id)
    requires id in s.locks
  {
    s.locks[id] in s.calls && s.calls[s.locks[id]].id == id && s.calls[s.locks[id]].phase.Locked()
  }

  ghost predicate SlotOk(s: State, slot: (Proc, Instance))
    requires slot in s.inflight
  {
    && s.inflight[slot] in s.calls
    && var caller := s.calls[s.inflight[slot]];
       caller.proc == slot.0 && caller.phase.Leading() && caller.phase.cred.Key() == slot.1
  }

  /** A staged row is the one row its lock holder may write, over an unchanged original. */
  ghost predicate StagedOk(s: State, id: Id)
    requires id in s.staged
  {
    && id in s.locks && s.locks[id] in s.calls
    && var phase := s.calls[s.locks[id]].phase;
       && phase.Leaving? && phase.cred.id == id
       && Matches(s.rows, phase.cred.Key())
       && ((s.staged[id].status == Active && s.staged[id].version == phase.cred.row.version + 1
            && phase.out == Token(s.staged[id].tokens.access))
           || (s.staged[id] == s.rows[id].(status := NeedsRelogin)
               && phase.cred.Key() in s.log.refused
               && phase.out == ReloginRequired))
  }

  ghost predicate RowOk(s: State, id: Id)
    requires id in s.rows
  {
    id in s.issued && (id, s.rows[id].tokens.access) in s.log.minted
  }

  /** No row is at an instance whose refresh was committed. */
  ghost predicate SpentOk(s: State, k: Instance)
    requires k in s.log.persisted
  {
    k.id in s.issued && (k.id in s.rows ==> s.rows[k.id].version > k.version)
  }

  ghost predicate OutstandingOk(s: State, e: (Proc, Instance))
    requires e in s.log.outstanding
  {
    e.1.id in s.issued && (Moved(s.rows, e.1) || InHand(s, e.0, e.1))
  }

  ghost predicate Calls(s: State) {
    forall c | c in s.calls :: CallOk(s, c)
  }

  /** Locks, in-flight entries, staged and committed rows agree with the calls. */
  ghost predicate Tables(s: State) {
    && (forall id | id in s.locks :: LockOk(s, id))
    && (forall slot | slot in s.inflight :: SlotOk(s, slot))
    && (forall id | id in s.staged :: StagedOk(s, id))
    && (forall id | id in s.rows :: RowOk(s, id))
  }

  /** The rows have moved on from every spent instance. */
  ghost predicate Ledger(s: State) {
    && (forall k | k in s.log.persisted :: SpentOk(s, k))
    && (forall e | e in s.log.outstanding :: OutstandingOk(s, e))
  }

  ghost predicate Inv(s: State) {
    Calls(s) && Tables(s) && Ledger(s)
  }

  /** What the invariant says of one call, its row and the grant it may hold. */
  lemma Known(s: State, c: CallId)
    requires Inv(s) && c in s.calls
    ensures CallOk(s, c)
    ensures s.calls[c].id in s.rows ==> RowOk(s, s.calls[c].id)
    ensures s.calls[c].phase.Locked() ==>
              var key := s.calls[c].phase.cred.Key();
              && (key in s.log.persisted ==> SpentOk(s, key))
              && ((s.calls[c].proc, key) in s.log.outstanding ==> OutstandingOk(s, (s.calls[c].proc, key)))
  {
  }

  lemma KnownSlot(s: State, slot: (Proc, Instance))
    requires Inv(s) && slot in s.inflight
    ensures SlotOk(s, slot)
  {
  }

  lemma KnownStaged(s: State, id: Id)
    requires Inv(s)
    ensures id in s.staged ==> StagedOk(s, id)
  {
  }

  // ---------------------------------------------------------------- one call moves

  /** `s'` is `s` after call `c` alone moved: to a phase with the same locks and in-flight
      entry, perhaps staging its row, perhaps recording a refusal or a grant. */
  ghost predicate Advances(s: State, s': State, c: CallId) {
    && c in s.calls
    && var caller := s.calls[c];
       var phase := caller.phase;
       && s'.calls.Keys == s.calls.Keys
       && (forall d | d in s.calls && d != c :: s'.calls[d] == s.calls[d])
       && s'.calls[c] == caller.(phase := s'.calls[c].phase)
       && var phase' := s'.calls[c].phase;
          && s'.rows == s.rows && s'.issued == s.issued && s'.locks == s.locks && s'.inflight == s.inflight
          && !phase.Leaving? && phase.Locked() == phase'.Locked() && phase.Leading() == phase'.Leading()
          && (phase.Leading() ==> phase.cred.Key() == phase'.cred.Key())
          && (s'.staged == s.staged
              || (caller.id in s'.staged && s'.staged == s.staged[caller.id := s'.staged[caller.id]]
                  && StagedOk(s', caller.id)))
          && s'.log.minted == s.log.minted && s'.log.persisted == s.log.persisted
          && s.log.refused <= s'.log.refused
          && (forall e | e in s'.log.outstanding ::
                if phase.Locked() && e == (caller.proc, phase.cred.Key())
                then OutstandingOk(s', e) else e in s.log.outstanding)
          && CallOk(s', c)
  }

  lemma AdvanceCalls(s: State, s': State, c: CallId)
    requires Calls(s) && Tables(s) && Advances(s, s', c)
    ensures Calls(s')
  {
  }

  lemma AdvanceSlot(s: State, s': State, c: CallId, slot: (Proc, Instance))
    requires Advances(s, s', c) && slot in s.inflight && SlotOk(s, slot)
    ensures SlotOk(s', slot)
  {
    hide CallOk, StagedOk, OutstandingOk;
  }

  lemma AdvanceStaged(s: State, s': State, c: CallId, id: Id)
    requires Advances(s, s', c) && id in s'.staged && (id in s.staged ==> StagedOk(s, id))
    ensures StagedOk(s', id)
  {
    hide CallOk, OutstandingOk;
  }

  lemma AdvanceTables(s: State, s': State, c: CallId)
    requires Calls(s) && Tables(s) && Advances(s, s', c)
    ensures Tables(s')
  {
    hide Calls, CallOk, SlotOk, StagedOk, OutstandingOk;
    forall slot | slot in s'.inflight ensures SlotOk(s', slot) { AdvanceSlot(s, s', c, slot); }
    forall id | id in s'.staged ensures StagedOk(s', id) { AdvanceStaged(s, s', c, id); }
  }

  lemma AdvanceLedger(s: State, s': State, c: CallId)
    requires Inv(s) && Advances(s, s', c)
    ensures Ledger(s')
  {
  }

  lemma Advance(s: State, s': State, c: CallId)
    requires Inv(s) && Advances(s, s', c)
    ensures Inv(s')
  {
    AdvanceCalls(s, s', c);
    AdvanceTables(s, s', c);
    AdvanceLedger(s, s', c);
  }

  // ---------------------------------------------------------------- the environment moves

  /** A row changed from outside; it never returns to an instance it has left. */
  ghost predicate Rewrites(s: State, s': State, id: Id) {
    && id !in s.staged
    && s' == s.(rows := s'.rows, issued := s.issued + {id}, log := s.log.(minted := s'.log.minted))
    && s.log.minted <= s'.log.minted
    && (forall i | i != id :: (i in s'.rows <==> i in s.rows) && (i in s.rows ==> s'.rows[i] == s.rows[i]))
    && (id in s'.rows ==> RowOk(s', id))
    && (id in s.issued && id in s'.rows ==>
          && id in s.rows && s.rows[id].version <= s'.rows[id].version
          && (s.rows[id].version == s'.rows[id].version && s'.rows[id].status == Active ==>
                s.rows[id].status == Active))
  }

  lemma RewriteCalls(s: State, s': State, id: Id)
    requires Calls(s) && Tables(s) && Rewrites(s, s', id)
    ensures Calls(s')
  {
  }

  lemma RewriteTables(s: State, s': State, id: Id)
    requires Calls(s) && Tables(s) && Rewrites(s, s', id)
    ensures Tables(s')
  {
  }

  lemma RewriteLedger(s: State, s': State, id: Id)
    requires Inv(s) && Rewrites(s, s', id)
    ensures Ledger(s')
  {
  }

  lemma Rewrite(s: State, s': State, id: Id)
    requires Inv(s) && Rewrites(s, s', id)
    ensures Inv(s')
  {
    RewriteCalls(s, s', id);
    RewriteTables(s, s', id);
    RewriteLedger(s, s', id);
  }

  // ---------------------------------------------------------------- a call takes the lead

  ghost predicate Leads(s: State, s': State, c: CallId) {
    && c in s.calls && s.calls[c].phase.Loaded?
    && var caller := s.calls[c];
       var slot := (caller.proc, caller.phase.cred.Key());
       slot !in s.inflight
       && s' == s.(calls := s.calls[c := caller.(phase := Queued(caller.phase.cred))],
                   inflight := s.inflight[slot := c])
  }

  lemma LeadCalls(s: State, s': State, c: CallId)
    requires Calls(s) && Tables(s) && Leads(s, s', c)
    ensures Calls(s')
  {
  }

  lemma LeadSlot(s: State, s': State, c: CallId, slot: (Proc, Instance))
    requires Leads(s, s', c) && slot in s'.inflight && (slot in s.inflight ==> SlotOk(s, slot))
    ensures SlotOk(s', slot)
  {
  }

  lemma LeadStaged(s: State, s': State, c: CallId, id: Id)
    requires Leads(s, s', c) && id in s.staged && StagedOk(s, id)
    ensures StagedOk(s', id)
  {
  }

  lemma LeadTables(s: State, s': State, c: CallId)
    requires Calls(s) && Tables(s) && Leads(s, s', c)
    ensures Tables(s')
  {
    hide Calls, SlotOk, StagedOk;
    forall slot | slot in s'.inflight ensures SlotOk(s', slot) { LeadSlot(s, s', c, slot); }
    forall id | id in s'.staged ensures StagedOk(s', id) { LeadStaged(s, s', c, id); }
  }

  lemma LeadLedger(s: State, s': State, c: CallId)
    requires Inv(s) && Leads(s, s', c)
    ensures Ledger(s')
  {
  }

  lemma Lead(s: State, s': State, c: CallId)
    requires Inv(s) && Leads(s, s', c)
    ensures Inv(s')
  {
    LeadCalls(s, s', c);
    LeadTables(s, s', c);
    LeadLedger(s, s', c);
  }

  // ---------------------------------------------------------------- a transaction ends

  /** Call `c`'s transaction ended, its staged row written or dropped. */
  ghost predicate Unlocks(s: State, s': State, c: CallId) {
    && c in s.calls && s.calls[c].phase.Leaving? && c in s'.calls && s'.calls[c].phase.Settling?
    && var caller := s.calls[c];
       var id := caller.id;
       var key := caller.phase.cred.Key();
       && s'.calls == s.calls[c := caller.(phase := Settling(caller.phase.cred, s'.calls[c].phase.out))]
       && s'.locks == s.locks - {id} && s'.staged == s.staged - {id}
       && s'.inflight == s.inflight && s'.issued == s.issued
       && (s'.rows == s.rows || (id in s.staged && s'.rows == s.rows[id := s.staged[id]] && RowOk(s', id)))
       && s.log.minted <= s'.log.minted && s'.log.refused == s.log.refused
       && s.log.persisted <= s'.log.persisted <= s.log.persisted + {key}
       && (key in s'.log.persisted ==> SpentOk(s', key))
       && s'.log.outstanding <= s.log.outstanding
       && ((caller.proc, key) in s'.log.outstanding ==> Moved(s'.rows, key))
       && OutOk(s', id, s'.calls[c].phase.out)
  }

  lemma UnlockCalls(s: State, s': State, c: CallId)
    requires Calls(s) && Tables(s) && Unlocks(s, s', c)
    ensures Calls(s')
  {
  }

  lemma UnlockStaged(s: State, s': State, c: CallId, id: Id)
    requires Unlocks(s, s', c) && CallOk(s, c) && id in s'.staged && StagedOk(s, id)
    ensures StagedOk(s', id)
  {
  }

  lemma UnlockTables(s: State, s': State, c: CallId)
    requires Calls(s) && Tables(s) && Unlocks(s, s', c)
    ensures Tables(s')
  {
    hide StagedOk, SpentOk;
    forall id | id in s'.locks ensures LockOk(s', id) { assert LockOk(s, id); }
    forall slot | slot in s'.inflight ensures SlotOk(s', slot) { assert SlotOk(s, slot); }
    forall id | id in s'.staged ensures StagedOk(s', id) { UnlockStaged(s, s', c, id); }
  }

  lemma UnlockSpent(s: State, s': State, c: CallId, k: Instance)
    requires Tables(s) && Unlocks(s, s', c) && k in s'.log.persisted && (k in s.log.persisted ==> SpentOk(s, k))
    ensures SpentOk(s', k)
  {
    var id := s.calls[c].id;
    if id in s.staged { assert StagedOk(s, id); }
  }

  lemma UnlockOutstanding(s: State, s': State, c: CallId, e: (Proc, Instance))
    requires Tables(s) && Unlocks(s, s', c) && CallOk(s, c)
    requires e in s'.log.outstanding && OutstandingOk(s, e)
    ensures OutstandingOk(s', e)
  {
    var id := s.calls[c].id;
    if id in s.staged { assert StagedOk(s, id); }
  }

  lemma UnlockLedger(s: State, s': State, c: CallId)
    requires Inv(s) && Unlocks(s, s', c)
    ensures Ledger(s')
  {
    hide Tables, SpentOk, OutstandingOk;
    forall k | k in s'.log.persisted ensures SpentOk(s', k) { UnlockSpent(s, s', c, k); }
    forall e | e in s'.log.outstanding ensures OutstandingOk(s', e) { UnlockOutstanding(s, s', c, e); }
  }

  lemma EndOfTransaction(s: State, s': State, c: CallId)
    requires Inv(s) && Unlocks(s, s', c)
    ensures Inv(s')
  {
    UnlockCalls(s, s', c);
    UnlockTables(s, s', c);
    UnlockLedger(s, s', c);
  }

  // ---------------------------------------------------------------- every step keeps it

  lemma InitHolds()
    ensures Inv(INIT)
  {
  }

  lemma LockTimeoutKeeps(s: State, c: CallId)
    requires Inv(s) && Enabled(s, LockTimeout(c))
    ensures Inv(Apply(s, LockTimeout(c)))
  {
    hide Inv;
    Known(s, c);
    Advance(s, Apply(s, LockTimeout(c)), c);
  }

  /** The lock holder that finds its instance still current is the only one with a claim to it. */
  lemma FreshIsUnspent(s: State, c: CallId)
    requires Inv(s) && c in s.calls && s.calls[c].phase.Entered?
    requires Matches(s.rows, s.calls[c].phase.cred.Key())
    ensures Unspent(s, s.calls[c].phase.cred.Key())
  {
    var k := s.calls[c].phase.cred.Key();
    assert CallOk(s, c);
    assert k in s.log.persisted ==> SpentOk(s, k);
    forall e | e in s.log.outstanding ensures e.1 != k { assert OutstandingOk(s, e); }
  }

  lemma RereadKeeps(s: State, c: CallId)
    requires Inv(s) && Enabled(s, Reread(c))
    ensures Inv(Apply(s, Reread(c)))
  {
    hide Inv;
    var s' := Apply(s, Reread(c));
    Known(s, c);
    if s'.calls[c].phase.Calling? { FreshIsUnspent(s, c); }
    Advance(s, s', c);
  }

  lemma SendKeeps(s: State, c: CallId)
    requires Inv(s) && Enabled(s, Send(c))
    ensures Inv(Apply(s, Send(c)))
  {
    hide Inv;
    Known(s, c);
    Advance(s, Apply(s, Send(c)), c);
  }

  lemma ReceiveKeeps(s: State, c: CallId, answer: Answer)
    requires Inv(s) && Enabled(s, Receive(c, answer))
    ensures Inv(Apply(s, Receive(c, answer)))
  {
    hide Inv;
    Known(s, c);
    Advance(s, Apply(s, Receive(c, answer)), c);
  }

  lemma PersistKeeps(s: State, c: CallId)
    requires Inv(s) && Enabled(s, Persist(c))
    ensures Inv(Apply(s, Persist(c)))
  {
    hide Inv;
    Known(s, c);
    Advance(s, Apply(s, Persist(c)), c);
  }

  lemma ReloadKeeps(s: State, c: CallId)
    requires Inv(s) && Enabled(s, Reload(c))
    ensures Inv(Apply(s, Reload(c)))
  {
    hide Inv;
    Known(s, c);
    Advance(s, Apply(s, Reload(c)), c);
  }

  lemma StampKeeps(s: State, c: CallId)
    requires Inv(s) && Enabled(s, Stamp(c))
    ensures Inv(Apply(s, Stamp(c)))
  {
    hide Inv;
    Known(s, c);
    Advance(s, Apply(s, Stamp(c)), c);
  }

  lemma CallbackErrorKeeps(s: State, c: CallId)
    requires Inv(s) && Enabled(s, CallbackError(c))
    ensures Inv(Apply(s, CallbackError(c)))
  {
    hide Inv;
    Known(s, c);
    Advance(s, Apply(s, CallbackError(c)), c);
  }

  lemma JoinSettleKeeps(s: State, c: CallId)
    requires Inv(s) && Enabled(s, JoinSettle(c))
    ensures Inv(Apply(s, JoinSettle(c)))
  {
    hide Inv;
    Known(s, c);
    Known(s, s.calls[c].phase.leader);
    Advance(s, Apply(s, JoinSettle(c)), c);
  }

  lemma ConnectKeeps(s: State, id: Id, tokens: Tokens)
    requires Inv(s) && Enabled(s, Connect(id, tokens))
    ensures Inv(Apply(s, Connect(id, tokens)))
  {
    Rewrite(s, Apply(s, Connect(id, tokens)), id);
  }

  lemma ReconnectKeeps(s: State, id: Id, tokens: Tokens)
    requires Inv(s) && Enabled(s, Reconnect(id, tokens))
    ensures Inv(Apply(s, Reconnect(id, tokens)))
  {
    Rewrite(s, Apply(s, Reconnect(id, tokens)), id);
  }

  lemma DisconnectKeeps(s: State, id: Id)
    requires Inv(s) && Enabled(s, Disconnect(id))
    ensures Inv(Apply(s, Disconnect(id)))
  {
    Rewrite(s, Apply(s, Disconnect(id)), id);
  }

  lemma QuarantineKeeps(s: State, id: Id, status: Status)
    requires Inv(s) && Enabled(s, Quarantine(id, status))
    ensures Inv(Apply(s, Quarantine(id, status)))
  {
    Rewrite(s, Apply(s, Quarantine(id, status)), id);
  }

  lemma LoadCalls(s: State, c: CallId, p: Proc, id: Id)
    requires Inv(s) && Enabled(s, Load(c, p, id))
    ensures Calls(Apply(s, Load(c, p, id)))
  {
  }

  lemma LoadTables(s: State, c: CallId, p: Proc, id: Id)
    requires Inv(s) && Enabled(s, Load(c, p, id))
    ensures Tables(Apply(s, Load(c, p, id)))
  {
  }

  lemma LoadLedger(s: State, c: CallId, p: Proc, id: Id)
    requires Inv(s) && Enabled(s, Load(c, p, id))
    ensures Ledger(Apply(s, Load(c, p, id)))
  {
  }

  lemma LoadKeeps(s: State, c: CallId, p: Proc, id: Id)
    requires Inv(s) && Enabled(s, Load(c, p, id))
    ensures Inv(Apply(s, Load(c, p, id)))
  {
    LoadCalls(s, c, p, id);
    LoadTables(s, c, p, id);
    LoadLedger(s, c, p, id);
  }

  lemma TakeLockCalls(s: State, c: CallId)
    requires Inv(s) && Enabled(s, TakeLock(c))
    ensures Calls(Apply(s, TakeLock(c)))
  {
  }

  lemma TakeLockTables(s: State, c: CallId)
    requires Inv(s) && Enabled(s, TakeLock(c))
    ensures Tables(Apply(s, TakeLock(c)))
  {
    var s' := Apply(s, TakeLock(c));
    forall id | id in s'.locks ensures LockOk(s', id) { assert id != s.calls[c].id ==> LockOk(s, id); }
    forall slot | slot in s'.inflight ensures SlotOk(s', slot) { assert SlotOk(s, slot); }
    forall id | id in s'.staged ensures StagedOk(s', id) { assert StagedOk(s, id); }
    forall id | id in s'.rows ensures RowOk(s', id) { assert RowOk(s, id); }
  }

  lemma TakeLockLedger(s: State, c: CallId)
    requires Inv(s) && Enabled(s, TakeLock(c))
    ensures Ledger(Apply(s, TakeLock(c)))
  {
  }

  lemma TakeLockKeeps(s: State, c: CallId)
    requires Inv(s) && Enabled(s, TakeLock(c))
    ensures Inv(Apply(s, TakeLock(c)))
  {
    TakeLockCalls(s, c);
    TakeLockTables(s, c);
    TakeLockLedger(s, c);
  }

  lemma SettleCalls(s: State, c: CallId)
    requires Inv(s) && Enabled(s, Settle(c))
    ensures Calls(Apply(s, Settle(c)))
  {
    hide Ledger;
    assert CallOk(s, c);
  }

  lemma SettleSlot(s: State, c: CallId, slot: (Proc, Instance))
    requires Enabled(s, Settle(c)) && CallOk(s, c)
    requires slot in Apply(s, Settle(c)).inflight && SlotOk(s, slot)
    ensures SlotOk(Apply(s, Settle(c)), slot)
  {
  }

  lemma SettleStaged(s: State, c: CallId, id: Id)
    requires Enabled(s, Settle(c)) && id in s.staged && StagedOk(s, id)
    ensures StagedOk(Apply(s, Settle(c)), id)
  {
  }

  lemma SettleTables(s: State, c: CallId)
    requires Inv(s) && Enabled(s, Settle(c))
    ensures Tables(Apply(s, Settle(c)))
  {
    hide Ledger, SlotOk, StagedOk;
    var s' := Apply(s, Settle(c));
    forall slot | slot in s'.inflight ensures SlotOk(s', slot) { SettleSlot(s, c, slot); }
    forall id | id in s'.staged ensures StagedOk(s', id) { SettleStaged(s, c, id); }
  }

  lemma SettleLedger(s: State, c: CallId)
    requires Inv(s) && Enabled(s, Settle(c))
    ensures Ledger(Apply(s, Settle(c)))
  {
  }

  lemma SettleKeeps(s: State, c: CallId)
    requires Inv(s) && Enabled(s, Settle(c))
    ensures Inv(Apply(s, Settle(c)))
  {
    SettleCalls(s, c);
    SettleTables(s, c);
    SettleLedger(s, c);
  }

  lemma CrashCalls(s: State, p: Proc)
    requires Inv(s) && Enabled(s, Crash(p))
    ensures Calls(Apply(s, Crash(p)))
  {
    hide Tables, Ledger;
  }

  lemma CrashSlot(s: State, p: Proc, slot: (Proc, Instance))
    requires slot in Apply(s, Crash(p)).inflight && slot in s.inflight && SlotOk(s, slot)
    ensures SlotOk(Apply(s, Crash(p)), slot)
  {
  }

  lemma CrashStaged(s: State, p: Proc, id: Id)
    requires id in Apply(s, Crash(p)).staged && id in s.staged && StagedOk(s, id)
    ensures StagedOk(Apply(s, Crash(p)), id)
  {
  }

  lemma CrashTables(s: State, p: Proc)
    requires Inv(s) && Enabled(s, Crash(p))
    ensures Tables(Apply(s, Crash(p)))
  {
    hide Calls, Ledger, SlotOk, StagedOk;
    var s' := Apply(s, Crash(p));
    forall slot | slot in s'.inflight ensures SlotOk(s', slot) { CrashSlot(s, p, slot); }
    forall id | id in s'.staged ensures StagedOk(s', id) { CrashStaged(s, p, id); }
  }

  lemma CrashLedger(s: State, p: Proc)
    requires Inv(s) && Enabled(s, Crash(p))
    ensures Ledger(Apply(s, Crash(p)))
  {
  }

  lemma CrashKeeps(s: State, p: Proc)
    requires Inv(s) && Enabled(s, Crash(p))
    ensures Inv(Apply(s, Crash(p)))
  {
    CrashCalls(s, p);
    CrashTables(s, p);
    CrashLedger(s, p);
  }

  lemma DecideKeeps(s: State, c: CallId, stale: bool)
    requires Inv(s) && Enabled(s, Decide(c, stale))
    ensures Inv(Apply(s, Decide(c, stale)))
  {
    hide Inv;
    Known(s, c);
    var s' := Apply(s, Decide(c, stale));
    var slot := (s.calls[c].proc, s.calls[c].phase.cred.Key());
    if s'.calls[c].phase.Queued? {
      Lead(s, s', c);
    } else {
      if slot in s.inflight {
        KnownSlot(s, slot);
        Known(s, s.inflight[slot]);
      }
      Advance(s, s', c);
    }
  }

  lemma CommitKeeps(s: State, c: CallId)
    requires Inv(s) && Enabled(s, Commit(c))
    ensures Inv(Apply(s, Commit(c)))
  {
    hide Inv;
    Known(s, c);
    KnownStaged(s, s.calls[c].id);
    EndOfTransaction(s, Apply(s, Commit(c)), c);
  }

  lemma CommitFailsKeeps(s: State, c: CallId)
    requires Inv(s) && Enabled(s, CommitFails(c))
    ensures Inv(Apply(s, CommitFails(c)))
  {
    hide Inv;
    Known(s, c);
    KnownStaged(s, s.calls[c].id);
    EndOfTransaction(s, Apply(s, CommitFails(c)), c);
  }
}
