/**
 The per-turn resume path of apps/worker/src/sandbox-resume.ts.

 Every await either succeeds or fails, and while it is pending any number of other workers
 and the reaper may run any sequence of lease operations.  The one thing they do not do is
 operate this call's own holder: its id is unique to the execution, and the liveness loop
 touches it far more often than the reaper's horizon.

 `effects` records what the call did to boxes, the row and its holder, in order; `history`
 the operations on the row that anybody did since the call began.
 */
module SandboxResume {
  import opened Wrappers
  import opened SandboxLease

  datatype Error = Superseded(epoch: nat) | WarmingTimeout | ConflictError | OtherError

  datatype Result<T> = Ok(value: T) | Err(error: Error)

  datatype Outcome = Returned(box: Box, epoch: nat) | Threw(error: Error)

  datatype Effect =
    | BoxCreated(box: Box)                  // the provider created a box for this call
    | BoxDropped(box: Box)                  // the provider stopped a box it was replacing
    | Terminated(box: Box, means: Means, ok: bool)  // this call tried to stop a box
    | Committed(epoch: nat, hit: bool)
    | RolledBack(epoch: nat, hit: bool)     // failWarmingToCold was issued
    | Released

  // ---------------------------------------------------------------- reading the effects

  /** Boxes created and not yet dropped or asked to stop, how often the holder was released,
      and how often a rollback was issued. */
  datatype Summary = Summary(open: set<Box>, releases: nat, rollbacks: nat)

  function After(t: Summary, e: Effect): Summary {
    match e
    case BoxCreated(b) => t.(open := t.open + {b})
    case BoxDropped(b) => t.(open := t.open - {b})
    case Terminated(b, _, _) => t.(open := t.open - {b})
    case Committed(_, _) => t
    case RolledBack(_, _) => t.(rollbacks := t.rollbacks + 1)
    case Released => t.(releases := t.releases + 1)
  }

  function Sum(es: seq<Effect>): Summary {
    if es == [] then Summary({}, 0, 0) else After(Sum(es[..|es| - 1]), es[|es| - 1])
  }

  lemma OneMore(es: seq<Effect>, e: Effect)
    ensures Sum(es + [e]) == After(Sum(es), e)
  {
    assert (es + [e])[..|es|] == es;
  }

  /** How terminateEstablishedSandbox can stop a box: the first means the handle offers. */
  datatype Means = ByDelete | ByTerminate | ByKill | ByClose(closed: bool) | NoMeans

  /** What a box's handle offers, and whether the provider's stop call works or throws. */
  datatype Handle = Handle(
    canDelete: bool, hasState: bool, canTerminate: bool, canKill: bool, canClose: bool, closed: bool, works: bool)

  /** Stopping a box answers true: a stop call was made and did not throw, or the only means is to
      close what is closed already. */
  predicate Stops(h: Handle) {
    ((h.canDelete && h.hasState) || h.canTerminate || h.canKill || h.canClose)
    && (h.works || (!(h.canDelete && h.hasState) && !h.canTerminate && !h.canKill && h.closed))
  }

  /** What the catch block of the spawner does: stop the box, then roll the row back unless
      the attempt was superseded or the box could not be stopped. */
  function Cleanup(created: Option<Box>, handle: Handle, superseded: bool, epoch: nat, hit: bool): seq<Effect> {
    (if created.Some? then [Terminated(created.value, ChooseMeans(handle), Stops(handle))] else [])
    + (if !superseded && (created.None? || Stops(handle)) then [RolledBack(epoch, hit)] else [])
  }

  // ---------------------------------------------------------------- interference

  /** What other workers do; nobody calls the standalone re-arm. */
  predicate Elsewhere(op: Op, h: Holder) {
    !Concerns(op, h) && !op.DoRearm?
  }

  /** The operations of other workers among `ops`. */
  function Foreign(ops: seq<Op>, h: Holder): (r: seq<Op>)
    ensures forall op | op in r :: Elsewhere(op, h)
  {
    if ops == [] then [] else (if Elsewhere(ops[0], h) then [ops[0]] else []) + Foreign(ops[1..], h)
  }

  lemma {:induction false} HolderStays(l: Lease, ops: seq<Op>, h: Holder)
    requires forall op | op in ops :: !Concerns(op, h)
    ensures h in Play(l, ops).holders <==> h in l.holders
    decreases |ops|
  {
    if ops != [] {
      assert !Concerns(ops[0], h);
      HolderStays(Apply(l, ops[0]), ops[1..], h);
    }
  }

  // ---------------------------------------------------------------- pure helpers

  /** Deleting through the client needs the state of the session; of the means of the session itself
      terminate goes before kill, and kill before close. */
  function ChooseMeans(h: Handle): (m: Means)
    ensures m == ByDelete <==> h.canDelete && h.hasState
    ensures m == ByTerminate <==> !(h.canDelete && h.hasState) && h.canTerminate
    ensures m == ByKill <==> !(h.canDelete && h.hasState) && !h.canTerminate && h.canKill
    ensures m.ByClose? <==> !(h.canDelete && h.hasState) && !h.canTerminate && !h.canKill && h.canClose
    ensures m.ByClose? ==> m.closed == h.closed
  {
    if h.canDelete && h.hasState then ByDelete
    else if h.canTerminate then ByTerminate
    else if h.canKill then ByKill
    else if h.canClose then ByClose(h.closed)
    else NoMeans
  }

  /** A time-out message becomes the user-facing warming time-out; supersession never does. */
  function AsWarmingError(error: Error, timedOut: bool): Error {
    if error == OtherError && timedOut then WarmingTimeout else error
  }

  const WARMING_POLL_INTERVAL_MS := 250

  /** How establishing goes for an attached call: it is refused, reattaches to the box, or finds
      the box gone and creates one box after another, each replacing the one before; `last` is
      the one it ends with, none if a create fails. */
  datatype Establishing = Refuses | Reattaches(box: Box) | ColdRestores(replaced: seq<Box>, last: Option<Box>)

  predicate Creates(how: Establishing) {
    how.ColdRestores? && how.last.Some?
  }

  /** Which awaits of an attached call fail. */
  datatype AttachPlan = AttachPlan(readFails: bool, how: Establishing, displayFails: bool)

  /** The last operation of a history published `box` over `epoch`. */
  predicate Published(l: Lease, history: seq<Op>, epoch: nat, box: Box) {
    && history != [] && history[|history| - 1] == DoCommit(epoch, box)
    && Commits(Play(l, history[..|history| - 1]), history[|history| - 1], epoch)
  }

  // ---------------------------------------------------------------- one call

  class TurnResume {
    const holder: Holder
    var lease: Lease
    var released: bool
    var timerRunning: bool
    ghost var effects: seq<Effect>
    ghost const first: Lease
    ghost var history: seq<Op>

    /** The row is what the operations so far lead to, and counts its turns right. */
    ghost predicate Tracked()
      reads this
    {
      lease == Play(first, history) && Counted(lease)
    }

    constructor (holder: Holder, lease: Lease)
      ensures this.holder == holder && this.lease == lease && first == lease
      ensures !released && !timerRunning && effects == [] && history == []
      ensures Counted(lease) ==> Tracked()
    {
      this.holder := holder;
      this.lease := lease;
      released, timerRunning, effects := false, false, [];
      first, history := lease, [];
    }

    ghost method Track(op: Op)
      requires lease == Apply(Play(first, history), op) && Counted(Play(first, history)) && op != DoRearm
      modifies this`history
      ensures Tracked() && history == old(history) + [op]
    {
      CountedWithoutRearm(Play(first, history), [op]);
      PlayInParts(first, history, [op]);
      assert [op][1..] == [];
      history := history + [op];
    }

    /** Other workers run while an await is pending. */
    method Interfere()
      requires Tracked()
      modifies this`lease, this`history
      ensures Tracked() && old(history) <= history
      ensures exists ops: seq<Op> ::
                (forall op | op in ops :: Elsewhere(op, holder)) && lease == Play(old(lease), ops)
      ensures holder in lease.holders <==> holder in old(lease).holders
      ensures old(lease).liveness == Warm && holder in old(lease).holders ==>
                lease.liveness == Warm && lease.epoch == old(lease).epoch && lease.instance == old(lease).instance
      ensures old(lease).epoch <= lease.epoch
    {
      var arbitrary: seq<Op> := *;
      var ops := Foreign(arbitrary, holder);
      HolderStays(lease, ops, holder);
      EpochNeverFalls(lease, ops);
      assert forall op | op in ops :: !Concerns(op, holder);
      CountedWithoutRearm(lease, ops);
      if lease.liveness == Warm && holder in lease.holders { HolderPinsWarmBox(lease, ops, holder); }
      PlayInParts(first, history, ops);
      lease := Play(lease, ops);
      history := history + ops;
    }

    ghost method Note(e: Effect)
      modifies this`effects
      ensures effects == old(effects) + [e]
      ensures Sum(effects) == After(Sum(old(effects)), e)
    {
      OneMore(effects, e);
      effects := effects + [e];
    }

    /** The release closure: takes effect once, however often it is called. */
    method Release()
      requires Tracked()
      modifies this
      ensures Tracked() && old(history) <= history
      ensures released
      ensures old(released) ==>
                lease == old(lease) && effects == old(effects) && timerRunning == old(timerRunning)
      ensures !old(released) ==>
                !timerRunning && effects == old(effects) + [Released] && holder !in lease.holders
                && Sum(effects) == After(Sum(old(effects)), Released)
    {
      if released {
        return;
      }
      released := true;
      timerRunning := false;
      Interfere();
      lease := SandboxLease.Release(lease, holder);
      Track(DoRelease(holder));
      Note(Released);
    }

    /** terminateEstablishedSandbox: true if there is no box, it was already closed, or the
        means its handle offers worked. */
    method Terminate(created: Option<Box>, handle: Handle) returns (ok: bool)
      requires Tracked()
      modifies this`lease, this`effects, this`history
      ensures Tracked() && old(history) <= history
      ensures created.None? ==> ok && effects == old(effects) && lease == old(lease)
      ensures created.Some? ==>
                && effects == old(effects) + [Terminated(created.value, ChooseMeans(handle), ok)]
                && Sum(effects) == After(Sum(old(effects)), Terminated(created.value, ChooseMeans(handle), ok))
      // Without a means to stop it the answer is false; a box that is closed already, and offers
      // no other means, needs no call; of all others the answer is whether the call worked.
      ensures created.Some? ==>
                (ok <==> match ChooseMeans(handle)
                         case NoMeans => false
                         case ByClose(closed) => closed || handle.works
                         case _ => handle.works)
      ensures holder in lease.holders <==> holder in old(lease).holders
    {
      hide Play, Sum;
      if created.None? {
        return true;
      }
      Interfere();
      match ChooseMeans(handle) {
        case ByClose(true) => ok := true;
        case NoMeans => ok := false;
        case _ => ok := handle.works;
      }
      Note(Terminated(created.value, ChooseMeans(handle), ok));
    }

    /** commitWarmingToWarm, after whatever else ran: `seen` is the row it found. */
    method CommitWarm(expectedEpoch: nat, box: Box) returns (hit: bool, ghost seen: Lease)
      requires Tracked()
      modifies this`lease, this`effects, this`history
      ensures Tracked() && old(history) < history
      ensures history[|history| - 1] == DoCommit(expectedEpoch, box) && seen == Play(first, history[..|history| - 1])
      ensures hit <==> WarmingAt(seen, expectedEpoch)
      ensures lease == Commit(seen, expectedEpoch, box)
      ensures effects == old(effects) + [Committed(expectedEpoch, hit)]
      ensures Sum(effects) == Sum(old(effects))
      ensures holder in lease.holders <==> holder in old(lease).holders
    {
      Interfere();
      seen := lease;
      hit := WarmingAt(lease, expectedEpoch);
      if hit {
        lease := lease.(liveness := Warm, instance := Some(box), epoch := lease.epoch + 1);
      }
      Track(DoCommit(expectedEpoch, box));
      Note(Committed(expectedEpoch, hit));
    }

    /** failWarmingToCold, after whatever else ran: `seen` is the row it found. */
    method FailWarming(expectedEpoch: nat) returns (ghost hit: bool, ghost seen: Lease)
      requires Tracked()
      modifies this`lease, this`effects, this`history
      ensures Tracked() && old(history) <= history
      ensures hit <==> WarmingAt(seen, expectedEpoch)
      ensures lease == FailToCold(seen, expectedEpoch)
      ensures effects == old(effects) + [RolledBack(expectedEpoch, hit)]
      ensures Sum(effects) == After(Sum(old(effects)), RolledBack(expectedEpoch, hit))
      ensures holder in lease.holders <==> holder in old(lease).holders
    {
      Interfere();
      seen, hit := lease, WarmingAt(lease, expectedEpoch);
      if lease.liveness == Warming && lease.epoch == expectedEpoch {
        lease := lease.(liveness := Cold, instance := None);
      }
      Track(DoFail(expectedEpoch));
      Note(RolledBack(expectedEpoch, hit));
    }

    /** onSandboxCreated: make the new box's id durable while the row is still warming. */
    method RecordCreated(expectedEpoch: nat, box: Box) returns (r: Result<()>, ghost seen: Option<Lease>)
      requires Tracked()
      modifies this`lease, this`history
      ensures Tracked() && old(history) <= history
      ensures seen.None? ==> r == Err(OtherError)
      // The row it found decides: recorded while warming at the epoch, superseded otherwise.
      ensures seen.Some? ==> r == if WarmingAt(seen.value, expectedEpoch) then Ok(()) else Err(Superseded(expectedEpoch))
      ensures r.Ok? ==>
                exists i :: |old(history)| <= i < |history| && history[i] == DoRecord(expectedEpoch, box)
                            && seen == Some(Play(first, history[..i]))
      ensures holder in lease.holders <==> holder in old(lease).holders
    {
      var serializeFails: bool, recordFails: bool := *, *;
      seen := None;
      if serializeFails { return Err(OtherError), seen; }
      Interfere();
      if recordFails { return Err(OtherError), seen; }
      seen := Some(lease);
      ghost var before := history;
      if !WarmingAt(lease, expectedEpoch) { return Err(Superseded(expectedEpoch)), seen; }
      lease := SandboxLease.RecordCreated(lease, expectedEpoch, box);
      ghost var i := |history|;
      Track(DoRecord(expectedEpoch, box));
      ghost var recorded := history;
      assert recorded[..i] == before;
      Interfere();   // tagging the box is best effort
      assert history[i] == recorded[i] && history[..i] == recorded[..i];
      return Ok(()), seen;
    }

    /** One more box, which replaces the previous one. */
    method CreateBox(expectedEpoch: nat, previous: Option<Box>) returns (created: Option<Box>, r: Result<()>)
      requires Tracked() && Sum(effects).open <= (if previous.Some? then {previous.value} else {})
      modifies this`lease, this`effects, this`history
      ensures Tracked() && old(history) <= history
      ensures Sum(effects).open <= (if created.Some? then {created.value} else {})
      ensures r.Err? ==> r.error == OtherError || r.error == Superseded(expectedEpoch)
      ensures Sum(effects) == Sum(old(effects)).(open := Sum(effects).open)
      ensures holder in lease.holders <==> holder in old(lease).holders
    {
      hide Play, Sum;
      Interfere();
      if previous.Some? { Note(BoxDropped(previous.value)); }
      var createFails: bool := *;
      if createFails { return previous, Err(OtherError); }
      var box: Box := *;
      Note(BoxCreated(box));
      created := Some(box);
      ghost var seen;
      r, seen := RecordCreated(expectedEpoch, box);
      if r.Err? { Note(BoxDropped(box)); }
    }

    /** establishSandboxSessionFromEnvelope: reattach, or create one box after another (a
        restored snapshot replaces its placeholder), recording each. `created` is the box the
        callback saw last. */
    method Establish(expectedEpoch: nat) returns (created: Option<Box>, r: Result<Box>)
      requires Tracked() && Sum(effects).open == {}
      modifies this`lease, this`effects, this`history
      ensures Tracked() && old(history) <= history
      ensures Sum(effects).open <= (if created.Some? then {created.value} else {})
      ensures r.Ok? && created.Some? ==> r.value == created.value
      ensures r.Err? ==> r.error == OtherError || r.error == Superseded(expectedEpoch)
      ensures Sum(effects) == Sum(old(effects)).(open := Sum(effects).open)
      ensures holder in lease.holders <==> holder in old(lease).holders
    {
      hide Play, Sum;
      created := None;
      var attempts: nat := *;
      while attempts > 0
        invariant Tracked() && old(history) <= history
        invariant Sum(effects).open <= (if created.Some? then {created.value} else {})
        invariant Sum(effects) == Sum(old(effects)).(open := Sum(effects).open)
        invariant holder in lease.holders <==> holder in old(lease).holders
      {
        var made;
        created, made := CreateBox(expectedEpoch, created);
        if made.Err? { return created, Err(made.error); }
        attempts := attempts - 1;
      }
      Interfere();
      var failed: bool := *;
      if failed { return created, Err(OtherError); }
      var reattached: Box := *;
      return created, Ok(if created.Some? then created.value else reattached);
    }

    /** The rest of the try block of the spawner: bring the box up and commit it. */
    method Publish(expectedEpoch: nat, box: Box, onMiss: Handle) returns (r: Result<(Box, nat)>)
      requires Tracked() && !released && timerRunning && holder in lease.holders
      requires Sum(effects).open <= {box} && Sum(effects).releases == 0 && Sum(effects).rollbacks == 0
      modifies this
      ensures Tracked() && old(history) <= history && Sum(effects).rollbacks == 0
      ensures r.Ok? ==>
                && r.value == (box, expectedEpoch + 1) && Published(first, history, expectedEpoch, box)
                && !released && timerRunning && holder in lease.holders
                && Sum(effects).releases == 0 && Sum(effects).open <= {box}
                && effects != [] && effects[|effects| - 1] == Committed(expectedEpoch, true)
                && lease.liveness == Warm && lease.epoch == expectedEpoch + 1 && lease.instance == Some(box)
      ensures r.Err? ==>
                && (r.error == OtherError || r.error == Superseded(expectedEpoch))
                && Sum(effects).open <= {box}
                && (released ==> r.error.Superseded? && !timerRunning && holder !in lease.holders)
                && (!released ==> timerRunning)
                && Sum(effects).releases == (if released then 1 else 0)
    {
      hide Sum, Play;
      var displayFails: bool, serializeFails: bool, commitFails: bool := *, *, *;
      Interfere();
      if displayFails { return Err(OtherError); }
      Interfere();   // exposing the stream port never throws
      if serializeFails { return Err(OtherError); }
      if commitFails { Interfere(); return Err(OtherError); }
      var hit;
      ghost var seen;
      hit, seen := CommitWarm(expectedEpoch, box);
      if !hit {
        var _ := Terminate(Some(box), onMiss);
        Release();
        return Err(Superseded(expectedEpoch));
      }
      return Ok((box, lease.epoch));
    }

    /** The try block of the spawner.  `created` is createdEstablished when it ends. */
    method Spawn(expectedEpoch: nat, onMiss: Handle) returns (created: Option<Box>, r: Result<(Box, nat)>)
      requires Tracked() && !released && timerRunning && effects == [] && holder in lease.holders
      modifies this
      ensures Tracked() && old(history) <= history
      ensures r.Ok? ==> Published(first, history, expectedEpoch, r.value.0)
      ensures r.Ok? ==>
                && !released && timerRunning && Sum(effects).releases == 0
                && Sum(effects).open <= {r.value.0}
                && effects != [] && effects[|effects| - 1] == Committed(expectedEpoch, true)
                && r.value.1 == expectedEpoch + 1
                && lease.liveness == Warm && lease.epoch == r.value.1 && lease.instance == Some(r.value.0)
                && holder in lease.holders
      ensures r.Err? ==>
                && (r.error == OtherError || r.error == Superseded(expectedEpoch))
                && Sum(effects).open <= (if created.Some? then {created.value} else {})
                && (released ==> r.error.Superseded? && !timerRunning && holder !in lease.holders)
                && (!released ==> timerRunning)
                && Sum(effects).releases == (if released then 1 else 0)
      ensures Sum(effects).rollbacks == 0
    {
      created := None;
      var envelopeFails: bool := *;
      Interfere();
      if envelopeFails { return created, Err(OtherError); }
      var box: Box;
      var established: Result<Box>;
      created, established := Establish(expectedEpoch);
      if established.Err? { return created, Err(established.error); }
      box := established.value;
      created := Some(box);
      r := Publish(expectedEpoch, box, onMiss);
    }

    /** waitForWarm: poll until the spawner commits, gives up, or the budget is spent.  At most
        one read per poll interval of the budget.  `gone`: a read found no row at all, which is
        reported as supersession at epoch 0. */
    method WaitForWarm(start: int, budgetMs: nat) returns (r: Result<nat>, ghost polls: nat, ghost gone: bool, ghost late: nat)
      requires Tracked() && holder in lease.holders
      modifies this`lease, this`history
      ensures Tracked() && old(history) <= history
      ensures r.Ok? ==> lease.liveness == Warm && lease.epoch == r.value
      ensures gone ==> r == Err(Superseded(0))
      ensures r.Err? && !gone ==>
                || r.error == OtherError || r.error == WarmingTimeout
                || (r.error == Superseded(lease.epoch) && (lease.liveness == Cold || lease.liveness == Draining))
      // It gives up waiting only on a row that is still warming.
      ensures r == Err(WarmingTimeout) && polls > 0 ==> lease.liveness == Warming
      // It polls every 250 ms but for the `late` it gets the processor, until the budget is spent.
      ensures polls * 250 < budgetMs + 250
      ensures r == Err(WarmingTimeout) ==> budgetMs <= polls * 250 + late
      ensures holder in lease.holders
    {
      polls, gone, late := 0, false, 0;
      var deadline := start + budgetMs;
      var now := start;
      while now < deadline
        invariant Tracked() && old(history) <= history && !gone
        invariant now == start + polls * WARMING_POLL_INTERVAL_MS + late
        invariant polls > 0 ==> (polls - 1) * WARMING_POLL_INTERVAL_MS < budgetMs
        invariant holder in lease.holders && (polls > 0 ==> lease.liveness == Warming)
        decreases deadline - now
      {
        var delay: nat, readFails: bool, vanished: bool := *, *, *;
        now := now + WARMING_POLL_INTERVAL_MS + delay;
        late := late + delay;
        Interfere();
        polls := polls + 1;
        if readFails { return Err(OtherError), polls, false, late; }
        if vanished { return Err(Superseded(0)), polls, true, late; }
        match lease.liveness
        case Warm => return Ok(lease.epoch), polls, false, late;
        case Draining => return Err(Superseded(lease.epoch)), polls, false, late;
        case Cold => return Err(Superseded(lease.epoch)), polls, false, late;
        case Warming =>
      }
      return Err(WarmingTimeout), polls, false, late;
    }

    /** establishSandboxSessionFromEnvelope without a callback: no box it creates is recorded. */
    method EstablishAttached(how: Establishing) returns (r: Result<Box>)
      requires Tracked() && Sum(effects).open == {}
      modifies this`lease, this`effects, this`history
      ensures Tracked() && old(history) <= history
      ensures r == if how.Reattaches? then Ok(how.box) else if Creates(how) then Ok(how.last.value) else Err(OtherError)
      ensures Sum(effects) == Sum(old(effects)).(open := if Creates(how) then {how.last.value} else {})
      ensures holder in lease.holders <==> holder in old(lease).holders
      ensures old(lease).liveness == Warm && holder in old(lease).holders ==>
                lease.liveness == Warm && lease.epoch == old(lease).epoch && lease.instance == old(lease).instance
    {
      Interfere();
      match how
      case Refuses => return Err(OtherError);
      case Reattaches(box) => return Ok(box);
      case ColdRestores(replaced, last) =>
        for i := 0 to |replaced|
          invariant Tracked() && old(history) <= history
          invariant Sum(effects) == Sum(old(effects)) && Sum(effects).open == {}
          invariant holder in lease.holders <==> holder in old(lease).holders
          invariant old(lease).liveness == Warm && holder in old(lease).holders ==>
                      lease.liveness == Warm && lease.epoch == old(lease).epoch && lease.instance == old(lease).instance
        {
          Note(BoxCreated(replaced[i]));
          Interfere();
          Note(BoxDropped(replaced[i]));
        }
        if last.None? { return Err(OtherError); }
        Note(BoxCreated(last.value));
        Interfere();
        return Ok(last.value);
    }

    /** The try block of an attached or re-armed call.  `reached`: it came to establish. */
    method Attach(start: int, budgetMs: nat, plan: AttachPlan) returns (r: Result<(Box, nat)>, ghost reached: bool)
      requires Tracked() && Sum(effects).open == {}
      requires holder in lease.holders && (lease.liveness == Warming || lease.liveness == Warm)
      modifies this`lease, this`effects, this`history
      ensures Tracked() && old(history) <= history
      ensures holder in lease.holders
      ensures r.Ok? ==> lease.liveness == Warm && lease.epoch == r.value.1
      ensures r.Ok? <==> reached && (plan.how.Reattaches? || Creates(plan.how)) && !plan.displayFails
      ensures old(lease).liveness == Warm ==>
                && lease.liveness == Warm && lease.epoch == old(lease).epoch && lease.instance == old(lease).instance
                && reached == !plan.readFails && (r.Err? ==> r.error == OtherError)
      ensures Sum(effects) == Sum(old(effects)).(open := if reached && Creates(plan.how) then {plan.how.last.value} else {})
      ensures r.Ok? && Creates(plan.how) ==> r.value.0 == plan.how.last.value
    {
      var leaseEpoch := lease.epoch;
      reached := false;
      if lease.liveness == Warming {
        ghost var polls, gone, late;
        var warmed: Result<nat>;
        warmed, polls, gone, late := WaitForWarm(start, budgetMs);
        if warmed.Err? { return Err(warmed.error), false; }
        leaseEpoch := warmed.value;
      }
      Interfere();
      if plan.readFails { return Err(OtherError), false; }
      var established := EstablishAttached(plan.how);
      if established.Err? { return Err(established.error), true; }
      Interfere();
      if plan.displayFails { return Err(OtherError), true; }
      return Ok((established.value, leaseEpoch)), true;
    }

    /** The catch block of the spawner. */
    method CatchSpawn(error: Error, created: Option<Box>, onCatch: Handle, expectedEpoch: nat, timedOut: bool)
      returns (thrown: Error, ghost hit: bool)
      requires Tracked() && Sum(effects).open <= (if created.Some? then {created.value} else {})
      requires if released then error.Superseded? && !timerRunning && holder !in lease.holders else timerRunning
      requires Sum(effects).releases == (if released then 1 else 0)
      modifies this
      ensures Tracked() && old(history) <= history
      ensures released && !timerRunning && holder !in lease.holders
      ensures Sum(effects).open == {} && Sum(effects).releases == 1
      ensures thrown == if error == OtherError && timedOut then WarmingTimeout else error
      ensures effects == old(effects) + Cleanup(created, onCatch, thrown.Superseded?, expectedEpoch, hit)
                         + (if old(released) then [] else [Released])
      ensures Sum(effects).rollbacks
              == Sum(old(effects)).rollbacks
                 + if !error.Superseded? && (created.None? || Stops(onCatch)) then 1 else 0
    {
      hide Sum, Play;
      hit := false;
      var ok := Terminate(created, onCatch);
      thrown := AsWarmingError(error, timedOut);
      if !error.Superseded? && ok {
        ghost var seen;
        hit, seen := FailWarming(expectedEpoch);
      }
      Release();
    }

    /** The spawner's branch.  `body` is what the try block did; `created` and `hit` are what the
        catch block saw.  `onMiss` and `onCatch` are the handles of the box when the commit misses
        and in the catch block. */
    method ResumeAsSpawner(expectedEpoch: nat, onMiss: Handle, onCatch: Handle, timedOut: bool)
      returns (out: Outcome, ghost body: seq<Effect>, ghost created: Option<Box>, ghost hit: bool)
      requires Tracked() && !released && timerRunning && effects == [] && holder in lease.holders
      modifies this
      ensures Tracked() && old(history) <= history
      ensures out.Returned? ==> Published(first, history, expectedEpoch, out.box)
      ensures out.Returned? ==>
                && !released && timerRunning && Sum(effects).releases == 0 && Sum(effects).rollbacks == 0
                && Sum(effects).open <= {out.box}
                && effects != [] && effects[|effects| - 1] == Committed(expectedEpoch, true)
                && out.epoch == expectedEpoch + 1 && lease.instance == Some(out.box)
                && holder in lease.holders && lease.liveness == Warm && lease.epoch == out.epoch
      ensures out.Threw? ==>
                && released && !timerRunning && holder !in lease.holders
                && Sum(effects).open == {} && Sum(effects).releases == 1
                && Sum(body).rollbacks == 0
                && effects == body + Cleanup(created, onCatch, out.error.Superseded?, expectedEpoch, hit)
                              + (if Sum(body).releases == 1 then [] else [Released])
                && (Sum(body).releases == 1 ==> out.error.Superseded?)
      ensures out.Threw? ==>
                && Sum(effects).rollbacks == (if !out.error.Superseded? && (created.None? || Stops(onCatch)) then 1 else 0)
                && out.error != ConflictError && (out.error == OtherError ==> !timedOut)
                && (out.error == WarmingTimeout ==> timedOut)
    {
      body, created, hit := [], None, false;
      var last: Option<Box>;
      var spawned: Result<(Box, nat)>;
      last, spawned := Spawn(expectedEpoch, onMiss);
      if spawned.Ok? {
        out := Returned(spawned.value.0, spawned.value.1);
        return;
      }
      body, created := effects, last;
      var error: Error;
      error, hit := CatchSpawn(spawned.error, last, onCatch, expectedEpoch, timedOut);
      out := Threw(error);
    }

    /** acquireLease and the start of the liveness timer; none when it throws. */
    method AcquireHolder(conflict: bool, expected: Option<nat>) returns (r: Result<Role>)
      requires Tracked() && !released && !timerRunning && effects == [] && holder !in lease.holders
      modifies this
      ensures Tracked() && old(history) <= history && !released && effects == []
      ensures r.Err? ==> !timerRunning && holder !in lease.holders
      ensures r.Ok? ==> timerRunning && r.value != Conflict && (holder in lease.holders <==> r.value != Fenced)
      ensures r == Ok(Attached) || r == Ok(Rearmed) ==> lease.liveness == Warming || lease.liveness == Warm
      ensures expected.None? ==> r != Ok(Fenced)
    {
      var acquireFails: bool := *;
      Interfere();
      if acquireFails { return Err(OtherError); }
      var acquired := Acquire(lease, holder, conflict, expected);
      if acquired.0 == Conflict { return Err(ConflictError); }
      lease := acquired.1;
      Track(DoAcquire(holder, conflict, expected));
      timerRunning := true;
      return Ok(acquired.0);
    }

    /** The branch of an attached or re-armed call. */
    method ResumeAttached(start: int, budgetMs: nat, plan: AttachPlan, timedOut: bool)
      returns (out: Outcome, ghost reached: bool)
      requires Tracked() && !released && timerRunning && effects == []
      requires holder in lease.holders && (lease.liveness == Warming || lease.liveness == Warm)
      modifies this
      ensures Tracked() && old(history) <= history
      ensures Sum(effects).rollbacks == 0
      ensures Sum(effects).open == if reached && Creates(plan.how) then {plan.how.last.value} else {}
      ensures out.Returned? ==>
                && !released && timerRunning && Sum(effects).releases == 0 && Sum(effects).open <= {out.box}
                && holder in lease.holders && lease.liveness == Warm && lease.epoch == out.epoch
      ensures out.Threw? ==> released && !timerRunning && holder !in lease.holders && Sum(effects).releases == 1
      ensures out.Threw? && reached && Creates(plan.how) ==> plan.displayFails
      ensures old(lease).liveness == Warm ==>
                && reached == !plan.readFails
                && (out.Returned? <==> reached && (plan.how.Reattaches? || Creates(plan.how)) && !plan.displayFails)
      ensures out.Threw? ==> (timedOut ==> out.error != OtherError)
    {
      var attached: Result<(Box, nat)>;
      attached, reached := Attach(start, budgetMs, plan);
      if attached.Ok? {
        out := Returned(attached.value.0, attached.value.1);
      } else {
        Release();
        out := Threw(AsWarmingError(attached.error, timedOut));
      }
    }

    /** resumeBoxForTurn.  `role` tells what acquireLease answered, if it did; `plan` is how the
        providers behave to an attached call, and `reached` whether it came to establish. */
    method Resume(conflict: bool, expected: Option<nat>, start: int, budgetMs: nat, plan: AttachPlan,
                  onMiss: Handle, onCatch: Handle, timedOut: bool)
      returns (out: Outcome, ghost role: Option<Role>, ghost expectedEpoch: nat, ghost reached: bool,
               ghost body: seq<Effect>, ghost created: Option<Box>, ghost hit: bool)
      requires Tracked() && !released && !timerRunning && effects == [] && holder !in lease.holders
      modifies this
      ensures Tracked() && old(history) <= history
      // A call that returns has released nothing, and holds a warm row at the epoch it returns.
      ensures out.Returned? ==>
                && !released && timerRunning && Sum(effects).releases == 0 && Sum(effects).rollbacks == 0
                && Sum(effects).open <= {out.box}
                && holder in lease.holders && lease.liveness == Warm && lease.epoch == out.epoch
      // A spawner that returns published its own box by the epoch compare-and-set.
      ensures out.Returned? && role == Some(Spawner) ==>
                && effects != [] && effects[|effects| - 1] == Committed(expectedEpoch, true)
                && out.epoch == expectedEpoch + 1 && lease.instance == Some(out.box)
                && Published(first, history, expectedEpoch, out.box)
      // A call that throws has no holder and no timer, and released exactly once if registered.
      ensures out.Threw? ==>
                && !timerRunning && holder !in lease.holders
                && (role.Some? ==> released && Sum(effects).releases == 1)
                && (role.None? ==> !released && effects == [])
      // A spawner that throws leaves no box it did not try to stop, and rolled the row back
      // exactly when it may.
      ensures out.Threw? && role == Some(Spawner) ==>
                && Sum(effects).open == {} && Sum(body).rollbacks == 0
                && effects == body + Cleanup(created, onCatch, out.error.Superseded?, expectedEpoch, hit)
                              + (if Sum(body).releases == 1 then [] else [Released])
                && (Sum(body).releases == 1 ==> out.error.Superseded?)
      // It was not superseded, and either created no box or a stop call for the box did not throw,
      // or there was nothing but to close what is closed.
      ensures out.Threw? && role == Some(Spawner) ==>
                (Sum(effects).rollbacks == 1 <==>
                   !out.error.Superseded?
                   && (created.None?
                       || (onCatch.canDelete && onCatch.hasState && onCatch.works)
                       || (!(onCatch.canDelete && onCatch.hasState)
                           && (onCatch.canTerminate || onCatch.canKill || onCatch.canClose)
                           && (onCatch.works || (!onCatch.canTerminate && !onCatch.canKill && onCatch.closed)))))
                && Sum(effects).rollbacks <= 1
      ensures out.Threw? && role != Some(Spawner) ==> Sum(effects).rollbacks == 0
      // A time-out message makes any other failure a warming time-out.
      ensures out.Threw? && role.Some? && timedOut ==> out.error != OtherError
      ensures out.Threw? && role == Some(Spawner) && !timedOut ==> out.error != WarmingTimeout
      // Any other call that throws leaves a box open exactly when it created one to establish
      // with and the display step failed then.
      ensures out.Threw? && role != Some(Spawner) ==>
                Sum(effects).open == if reached && Creates(plan.how) then {plan.how.last.value} else {}
      ensures out.Threw? && reached && Creates(plan.how) ==> plan.displayFails
      ensures reached ==> role == Some(Attached) || role == Some(Rearmed)
      // The resume path passes no epoch and is never fenced.
      ensures expected.None? ==> role != Some(Fenced)
    {
      role, expectedEpoch, reached, body, created, hit := None, 0, false, [], None, false;
      var acquired := AcquireHolder(conflict, expected);
      if acquired.Err? { out := Threw(acquired.error); return; }
      role := Some(acquired.value);
      if acquired.value == Fenced {
        var newer := lease.epoch;
        Release();
        out := Threw(Superseded(newer));
      } else if acquired.value == Spawner {
        expectedEpoch := lease.epoch;
        out, body, created, hit := ResumeAsSpawner(lease.epoch, onMiss, onCatch, timedOut);
      } else {
        out, reached := ResumeAttached(start, budgetMs, plan, timedOut);
      }
    }

    /** The spawner's commit of the marker that stands for a box. */
    method CommitMarker(marker: Box, commitFails: bool) returns (out: Outcome)
      requires Tracked() && !released && !timerRunning && effects == [] && holder in lease.holders
      modifies this
      ensures Tracked() && old(history) <= history && !timerRunning
      ensures out.Returned? ==>
                && !commitFails && !released && Sum(effects).releases == 0 && holder in lease.holders
                && lease.epoch == out.epoch && lease.liveness == Warm
                && lease.instance == Some(marker) && out.box == marker
      ensures out.Threw? ==>
                && (released <==> !commitFails) && Sum(effects).releases == (if commitFails then 0 else 1)
                && (holder in lease.holders <==> commitFails)
      ensures commitFails ==> out == Threw(OtherError)
      ensures Sum(effects).rollbacks == 0 && Sum(effects).open == {}
    {
      hide Play;
      var expectedEpoch := lease.epoch;
      if commitFails {
        Interfere();
        return Threw(OtherError);
      }
      var hit;
      ghost var seen;
      hit, seen := CommitWarm(expectedEpoch, marker);
      if !hit {
        Release();
        return Threw(Superseded(expectedEpoch));
      }
      return Returned(marker, lease.epoch);
    }

    /** acquireSelfhostedLeaseForTurn: the same lease without a box.  It throws without
        releasing its holder exactly when the commit call itself throws. */
    method AcquireSelfhosted(expected: Option<nat>, marker: Box)
      returns (out: Outcome, ghost role: Option<Role>, ghost commitThrew: bool)
      requires Tracked() && !released && !timerRunning && effects == [] && holder !in lease.holders
      modifies this
      ensures Tracked() && old(history) <= history
      ensures out.Returned? ==>
                && !released && Sum(effects).releases == 0 && holder in lease.holders
                && lease.epoch == out.epoch && (role == Some(Attached) || lease.liveness == Warm)
                && (role == Some(Spawner) ==> lease.instance == Some(marker) && out.box == marker)
      ensures out.Threw? && role.Some? ==>
                && (released <==> !commitThrew) && Sum(effects).releases == (if commitThrew then 0 else 1)
                && (holder in lease.holders <==> commitThrew)
      ensures commitThrew ==> out == Threw(OtherError) && role == Some(Spawner)
      ensures role.None? ==> out.Threw? && holder !in lease.holders && effects == []
      ensures Sum(effects).rollbacks == 0 && Sum(effects).open == {} && !timerRunning
    {
      role, commitThrew := None, false;
      var acquireFails: bool, commitFails: bool := *, *;
      Interfere();
      if acquireFails { out := Threw(OtherError); return; }
      var acquired := Acquire(lease, holder, false, expected);
      lease := acquired.1;
      Track(DoAcquire(holder, false, expected));
      role := Some(acquired.0);
      if acquired.0 == Fenced {
        Release();
        out := Threw(Superseded(acquired.1.epoch));
      } else if acquired.0 == Spawner {
        commitThrew := commitFails;
        out := CommitMarker(marker, commitFails);
      } else {
        out := Returned(marker, lease.epoch);
      }
    }
  }

  /** A call attaches to a warm row whose box the provider no longer has: establishing creates
      box 7, the display step fails, and the call throws with box 7 running.  The row still
      names box 1, so nobody else knows of it. */
  method AnAttachedCallStrandsItsBox() returns (out: Outcome, ghost open: set<Box>)
    ensures out.Threw? && open == {7}
  {
    var me := Holder(Turn, 0);
    assert Turns({me}) == {me};
    var call := new TurnResume(me, Lease(Warm, 1, Some(1), {me}, 1, 1));
    call.timerRunning := true;
    ghost var reached;
    out, reached := call.ResumeAttached(0, 0, AttachPlan(false, ColdRestores([], Some(7)), true), false);
    open := Sum(call.effects).open;
  }

  // ---------------------------------------------------------------- two calls on one row

  /** What two calls saw are stretches of one run of the row.  If both returned as spawners for
      one expected epoch, they did so by the same operation: they are one call. */
  lemma OneSpawnerReturnsPerEpoch(
    l: Lease, run: seq<Op>, i: nat, a: seq<Op>, boxA: Box, j: nat, b: seq<Op>, boxB: Box, epoch: nat)
    requires i + |a| <= |run| && run[i..i + |a|] == a && Published(Play(l, run[..i]), a, epoch, boxA)
    requires j + |b| <= |run| && run[j..j + |b|] == b && Published(Play(l, run[..j]), b, epoch, boxB)
    ensures i + |a| == j + |b| && boxA == boxB
  {
    PublishedAt(l, run, i, a, boxA, epoch);
    PublishedAt(l, run, j, b, boxB, epoch);
    CommitsAtOnce(l, run, i + |a| - 1, j + |b| - 1, epoch);
  }

  lemma PublishedAt(l: Lease, run: seq<Op>, i: nat, a: seq<Op>, box: Box, epoch: nat)
    requires i + |a| <= |run| && run[i..i + |a|] == a && Published(Play(l, run[..i]), a, epoch, box)
    ensures CommitsAt(l, run, i + |a| - 1, epoch) && run[i + |a| - 1] == DoCommit(epoch, box)
  {
    var n := |a| - 1;
    assert run[i..i + |a|][n] == run[i + n];
    assert run[..i + n] == run[..i] + a[..n];
    PlayInParts(l, run[..i], a[..n]);
  }
}
