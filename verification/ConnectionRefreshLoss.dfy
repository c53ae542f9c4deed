/**
 What the connection resolver loses by having no lock across processes: a rotation the endpoint
 granted is written exactly when no step has moved the version of the row since the call loaded it.
 */
module ConnectionRefreshLoss {
  import opened Wrappers
  import opened ConnectionRefresh
  import opened ConnectionRefreshTheorems

  // ---------------------------------------------------------------- when a rotation is lost

  /** `step` moves row `id` to a new version: a persist or a stamp that hits, or a change from
      outside that is more than an edit of its kind, expiry, scopes or owner. */
  predicate Moves(s: State, step: Step, id: Id)
    requires Enabled(s, step) && id in s.rows
  {
    match step
    case Persist(_, _, _) => Persists(s, step, Instance(id, s.rows[id].version))
    case Stamp(c) => s.calls[c].phase.cred.Key() == Instance(id, s.rows[id].version)
    case Change(_, _) => Replaces(s, step, id)
    case _ => false
  }

  predicate Moved(s: State, steps: seq<Step>, id: Id)
    requires ValidRun(s, steps)
    decreases |steps|
  {
    steps != [] && id in s.rows && (Moves(s, steps[0], id) || Moved(Apply(s, steps[0]), steps[1..], id))
  }

  lemma PersistRow(s: State, persist: Step, id: Id)
    requires Enabled(s, persist) && persist.Persist? && id in s.rows
    ensures id in Apply(s, persist).rows
    ensures var row := Apply(s, persist).rows[id];
            if Persists(s, persist, Instance(id, s.rows[id].version)) then row.version == s.rows[id].version + 1
            else row == s.rows[id]
  {
  }

  lemma MovingRaisesTheVersion(s: State, step: Step, id: Id)
    requires Enabled(s, step) && id in s.rows
    ensures id in Apply(s, step).rows
    ensures var row := Apply(s, step).rows[id];
            if Moves(s, step, id) then row.version == s.rows[id].version + 1
            else row.version == s.rows[id].version && row.Fixed() == s.rows[id].Fixed()
  {
    if step.Persist? {
      hide ApplyStamp;
      PersistRow(s, step, id);
    } else if step.Stamp? {
      hide ApplyPersist;
    } else {
      hide ApplyPersist, ApplyStamp, ApplyDecide, ApplyReject, ApplyConfirm, ApplyAdoptWinner, ApplySettle, ApplyContinue, ApplyCrash;
      if !step.Create? && !step.Change? {
        hide Apply;
        RowsFrame(s, step);
      }
    }
  }

  lemma {:induction false} MovedIffVersionRose(s: State, steps: seq<Step>, id: Id)
    requires ValidRun(s, steps) && id in s.rows
    ensures id in Exec(s, steps).rows
    ensures var row := Exec(s, steps).rows[id];
            if Moved(s, steps, id) then s.rows[id].version < row.version
            else row.version == s.rows[id].version && row.Fixed() == s.rows[id].Fixed()
    decreases |steps|
  {
    if steps != [] {
      hide Moves, Apply;
      MovingRaisesTheVersion(s, steps[0], id);
      MovedIffVersionRose(Apply(s, steps[0]), steps[1..], id);
    }
  }

  /** What call `c` loaded, as long as it has not ended. */
  predicate Holds(s: State, c: CallId, cred: Cred) {
    c in s.calls && (s.calls[c].phase.Done? || s.calls[c].phase.Dead? || s.calls[c].phase.cred == cred)
  }

  lemma StepKeepsLoaded(s: State, step: Step, c: CallId, cred: Cred)
    requires Enabled(s, step) && Holds(s, c, cred)
    ensures Holds(Apply(s, step), c, cred)
  {
  }

  lemma {:induction false} RunKeepsLoaded(s: State, steps: seq<Step>, c: CallId, cred: Cred)
    requires ValidRun(s, steps) && Holds(s, c, cred)
    ensures Holds(Exec(s, steps), c, cred)
    decreases |steps|
  {
    if steps != [] {
      StepKeepsLoaded(s, steps[0], c, cred);
      RunKeepsLoaded(Apply(s, steps[0]), steps[1..], c, cred);
    }
  }

  /** Call `c` loads row `id` after `past`, and is granted a rotation after `between`. */
  ghost predicate LoadsAndIsGranted(past: seq<Step>, c: CallId, p: Proc, id: Id, between: seq<Step>) {
    && ValidRun(INIT, past) && Enabled(Exec(INIT, past), Load(c, p, id)) && Readable(Exec(INIT, past).rows, id)
    && var s := Apply(Exec(INIT, past), Load(c, p, id));
       && ValidRun(s, between) && c in Exec(s, between).calls && Exec(s, between).calls[c].phase.Granted?
  }

  /** A granted rotation is written exactly when no step has moved the version of the row since
      the call loaded it; otherwise the write misses and no row changes.  Edits in between do
      not stop it: its expiry, and the scopes it names, replace theirs. */
  lemma GrantedRotationIsWrittenIffVersionKept(
    past: seq<Step>, c: CallId, p: Proc, id: Id, between: seq<Step>, expiresAt: Option<int>, scopes: Option<set<string>>)
    requires LoadsAndIsGranted(past, c, p, id, between)
    ensures var s := Apply(Exec(INIT, past), Load(c, p, id));
            var t := Exec(s, between);
            var after := Apply(t, Persist(c, expiresAt, scopes));
            if Moved(s, between, id) then after.rows == t.rows && after.calls[c].phase.Missed?
            else
              && Persists(t, Persist(c, expiresAt, scopes), Instance(id, s.rows[id].version))
              && id in t.rows && id in after.rows
              && after.rows[id].version == s.rows[id].version + 1
              && after.rows[id].Fixed() == Content(Active, t.calls[c].phase.next)
              && after.rows[id].expiresAt == expiresAt
              && after.rows[id].scopes == (if scopes.Some? then scopes.value else t.rows[id].scopes)
              && after.rows[id].kind == t.rows[id].kind && after.rows[id].shared == t.rows[id].shared
  {
    hide Inv, Moved;
    var s := Apply(Exec(INIT, past), Load(c, p, id));
    var t := Exec(s, between);
    var cred := Cred(id, s.rows[id]);
    Reachable(past);
    StepKeeps(Exec(INIT, past), Load(c, p, id));
    RunKeeps(s, between);
    RunKeepsLoaded(s, between, c, cred);
    MovedIffVersionRose(s, between, id);
    Known(t, c);
    assert t.calls[c].phase.cred == cred;
  }

  /** So an edit between the grant and its persist does not stop the persist. */
  lemma AnEditDoesNotStopTheRotation(s: State, c: CallId, row: Row, expiresAt: Option<int>, scopes: Option<set<string>>)
    requires c in s.calls && s.calls[c].phase.Granted?
    requires var id := s.calls[c].phase.cred.id;
             && Enabled(s, Change(id, row)) && row.version == s.rows[id].version && row != s.rows[id]
             && Persists(s, Persist(c, expiresAt, scopes), s.calls[c].phase.cred.Key())
    ensures var id := s.calls[c].phase.cred.id;
            var edited := Apply(s, Change(id, row));
            && edited.rows[id] != s.rows[id] && !Moves(s, Change(id, row), id)
            && Persists(edited, Persist(c, expiresAt, scopes), s.calls[c].phase.cred.Key())
  {
  }

  // ---------------------------------------------------------------- a stamp in between

  predicate ReplacedDuring(s: State, steps: seq<Step>, id: Id)
    requires ValidRun(s, steps)
    decreases |steps|
  {
    steps != [] && id in s.rows && (Replaces(s, steps[0], id) || ReplacedDuring(Apply(s, steps[0]), steps[1..], id))
  }

  lemma DeadRowIsFixed(s: State, step: Step, id: Id)
    requires Inv(s) && Enabled(s, step) && id in s.rows && s.rows[id].status != Active && !Replaces(s, step, id)
    ensures id in Apply(s, step).rows
    ensures Apply(s, step).rows[id].version == s.rows[id].version && Apply(s, step).rows[id].Fixed() == s.rows[id].Fixed()
  {
    hide Inv;
    if !(step.Change? && step.id == id) {
      hide Apply;
      DeadRowStays(s, step, id);
    }
  }

  lemma {:induction false} DeadRowsStay(s: State, steps: seq<Step>, id: Id)
    requires Inv(s) && ValidRun(s, steps) && id in s.rows && s.rows[id].status != Active
    requires !ReplacedDuring(s, steps, id)
    ensures id in Exec(s, steps).rows
    ensures Exec(s, steps).rows[id].version == s.rows[id].version && Exec(s, steps).rows[id].Fixed() == s.rows[id].Fixed()
    decreases |steps|
  {
    if steps != [] {
      hide Inv, Apply;
      DeadRowIsFixed(s, steps[0], id);
      StepKeeps(s, steps[0]);
      DeadRowsStay(Apply(s, steps[0]), steps[1..], id);
    }
  }

  lemma StampedRow(s: State, stamp: Step, id: Id)
    requires Enabled(s, stamp) && stamp.Stamp? && id in s.rows && Moves(s, stamp, id)
    ensures id in Apply(s, stamp).rows
    ensures Apply(s, stamp).rows[id] == s.rows[id].(status := NeedsReauth, version := s.rows[id].version + 1)
  {
  }

  /** When what moved the version is the stamp of another call, the row ends `needs_reauth` with
      the spent credential, and stays so until it gets a new version from outside. */
  lemma AStampLosesTheRotation(
    past: seq<Step>, c: CallId, p: Proc, id: Id, before: seq<Step>, stamp: Step, after: seq<Step>, persist: Step, later: seq<Step>)
    requires LoadsAndIsGranted(past, c, p, id, before + [stamp] + after) && stamp.Stamp?
    requires StampedBetween(Apply(Exec(INIT, past), Load(c, p, id)), id, before, stamp, after)
    requires persist.Persist? && persist.c == c
    requires var t := Exec(Apply(Exec(INIT, past), Load(c, p, id)), before + [stamp] + after);
             ValidRun(Apply(t, persist), later) && !ReplacedDuring(Apply(t, persist), later, id)
    ensures var s := Apply(Exec(INIT, past), Load(c, p, id));
            var end := Exec(Apply(Exec(s, before + [stamp] + after), persist), later);
            && id in end.rows && end.rows[id].version == s.rows[id].version + 1
            && end.rows[id].Fixed() == Content(NeedsReauth, s.rows[id].credential)
  {
    hide Inv, Apply, Moved, Persists, ReplacedDuring;
    var s := Apply(Exec(INIT, past), Load(c, p, id));
    var between := before + [stamp] + after;
    var t := Exec(s, between);
    StampedBetweenMoves(s, id, before, stamp, after);
    MovedIffVersionRose(s, between, id);
    GrantedRotationIsWrittenIffVersionKept(past, c, p, id, between, persist.expiresAt, persist.scopes);
    Reachable(past);
    StepKeeps(Exec(INIT, past), Load(c, p, id));
    RunKeeps(s, between);
    StepKeeps(t, persist);
    DeadRowsStay(Apply(t, persist), later, id);
  }

  /** Of all the steps of a run only `stamp` moves the version of row `id`. */
  predicate StampedBetween(s: State, id: Id, before: seq<Step>, stamp: Step, after: seq<Step>) {
    && ValidRun(s, before) && id in s.rows && !Moved(s, before, id)
    && Enabled(Exec(s, before), stamp) && id in Exec(s, before).rows && Moves(Exec(s, before), stamp, id)
    && ValidRun(Apply(Exec(s, before), stamp), after) && !Moved(Apply(Exec(s, before), stamp), after, id)
  }

  lemma StampedBetweenMoves(s: State, id: Id, before: seq<Step>, stamp: Step, after: seq<Step>)
    requires stamp.Stamp? && StampedBetween(s, id, before, stamp, after)
    ensures var between := before + [stamp] + after;
            && ValidRun(s, between) && id in Exec(s, between).rows
            && Exec(s, between).rows[id].version == s.rows[id].version + 1
            && Exec(s, between).rows[id].Fixed() == Content(NeedsReauth, s.rows[id].credential)
  {
    hide Apply, Moves, Moved;
    var stamped := Apply(Exec(s, before), stamp);
    MovedIffVersionRose(s, before, id);
    StampedRow(Exec(s, before), stamp, id);
    MovedIffVersionRose(stamped, after, id);
    assert before + ([stamp] + after) == before + [stamp] + after && ([stamp] + after)[1..] == after;
    RunsInSequence(s, before, [stamp] + after);
  }

  // ---------------------------------------------------------------- one such run

  const FIRST := Cred(0, Row(1, Active, OAuth2, 10, Some(0), {}, true))

  const ONE_LEADS: seq<Step> := [Create(0, FIRST.row), Load(1, 1, 0), Decide(1, false, 0, {})]
  const TWO_LEADS: seq<Step> := [Load(2, 2, 0), Decide(2, false, 0, {})]
  const BOTH_SEND: seq<Step> := [Send(1, true), Send(2, true), Grant(1, 11), Reject(2, Http(400))]
  const FAIL_FIRST: seq<Step> := [Settle(2), Continue(2, 0, {})]
  const STAMP_FIRST: seq<Step> := [Stamp(2), Persist(1, None, None)]

  function Two(one: Phase, two: Phase, rejected: set<Instance>): State {
    State(map[0 := FIRST.row], map[1 := Caller(1, None, one), 2 := Caller(2, None, two)],
          map[(1, FIRST.Key()) := 1, (2, FIRST.Key()) := 2], Log(map[FIRST.Key() := FIRST.row.Fixed()], {FIRST}, rejected, {}))
  }

  const ONE := State(map[0 := FIRST.row], map[1 := Caller(1, None, Leading(FIRST))],
                     map[(1, FIRST.Key()) := 1], Log(map[FIRST.Key() := FIRST.row.Fixed()], {FIRST}, {}, {}))

  /** The first step of a run leads to `next`. */
  lemma Then(s: State, steps: seq<Step>, next: State)
    requires steps != [] && Enabled(s, steps[0]) && Apply(s, steps[0]) == next && ValidRun(next, steps[1..])
    ensures ValidRun(s, steps) && Exec(s, steps) == Exec(next, steps[1..])
  {
  }

  lemma OneLeads()
    ensures ValidRun(INIT, ONE_LEADS) && Exec(INIT, ONE_LEADS) == ONE
  {
    var rows, log := map[0 := FIRST.row], Log(map[FIRST.Key() := FIRST.row.Fixed()], {FIRST}, {}, {});
    var created := State(rows, map[], map[], log);
    var loaded := State(rows, map[1 := Caller(1, None, Loaded(FIRST))], map[], log);
    assert Apply(INIT, ONE_LEADS[0]) == created;
    assert Apply(created, ONE_LEADS[1]) == loaded;
    assert Apply(loaded, ONE_LEADS[2]) == ONE;
    hide Apply, Enabled;
    Then(loaded, ONE_LEADS[1..][1..], ONE);
    Then(created, ONE_LEADS[1..], loaded);
    Then(INIT, ONE_LEADS, created);
  }

  lemma TwoLeads()
    ensures ValidRun(ONE, TWO_LEADS) && Exec(ONE, TWO_LEADS) == Two(Leading(FIRST), Leading(FIRST), {})
  {
    var loaded := ONE.(calls := map[1 := Caller(1, None, Leading(FIRST)), 2 := Caller(2, None, Loaded(FIRST))]);
    assert Apply(ONE, TWO_LEADS[0]) == loaded;
    assert Apply(loaded, TWO_LEADS[1]) == Two(Leading(FIRST), Leading(FIRST), {});
    hide Apply, Enabled;
    Then(loaded, TWO_LEADS[1..], Two(Leading(FIRST), Leading(FIRST), {}));
    Then(ONE, TWO_LEADS, loaded);
  }

  lemma BothSend()
    ensures ValidRun(Two(Leading(FIRST), Leading(FIRST), {}), BOTH_SEND)
    ensures Exec(Two(Leading(FIRST), Leading(FIRST), {}), BOTH_SEND)
            == Two(Granted(FIRST, 11), Ending(FIRST, Broken(Http(400))), {FIRST.Key()})
  {
    var s := Two(Leading(FIRST), Leading(FIRST), {});
    var one := Two(Awaiting(FIRST), Leading(FIRST), {});
    var two := Two(Awaiting(FIRST), Awaiting(FIRST), {});
    var granted := Two(Granted(FIRST, 11), Awaiting(FIRST), {});
    var rejected := Two(Granted(FIRST, 11), Ending(FIRST, Broken(Http(400))), {FIRST.Key()});
    Sent(s, one, two);
    Answered(two, granted, rejected);
    hide Apply, Enabled;
    Then(granted, BOTH_SEND[1..][1..][1..], rejected);
    Then(two, BOTH_SEND[1..][1..], granted);
    Then(one, BOTH_SEND[1..], two);
    Then(s, BOTH_SEND, one);
  }

  lemma Sent(s: State, one: State, two: State)
    requires s == Two(Leading(FIRST), Leading(FIRST), {}) && one == Two(Awaiting(FIRST), Leading(FIRST), {})
    requires two == Two(Awaiting(FIRST), Awaiting(FIRST), {})
    ensures Enabled(s, Send(1, true)) && Apply(s, Send(1, true)) == one
    ensures Enabled(one, Send(2, true)) && Apply(one, Send(2, true)) == two
  {
  }

  lemma Answered(s: State, granted: State, rejected: State)
    requires s == Two(Awaiting(FIRST), Awaiting(FIRST), {}) && granted == Two(Granted(FIRST, 11), Awaiting(FIRST), {})
    requires rejected == Two(Granted(FIRST, 11), Ending(FIRST, Broken(Http(400))), {FIRST.Key()})
    ensures Enabled(s, Grant(1, 11)) && Apply(s, Grant(1, 11)) == granted
    ensures Enabled(granted, Reject(2, Http(400))) && Apply(granted, Reject(2, Http(400))) == rejected
  {
  }

  const FAILED := State(map[0 := FIRST.row],
                        map[1 := Caller(1, None, Granted(FIRST, 11)),
                            2 := Caller(2, Some(Broken(Http(400))), Stamping(FIRST, Http(400)))],
                        map[(1, FIRST.Key()) := 1], Log(map[FIRST.Key() := FIRST.row.Fixed()], {FIRST}, {FIRST.Key()}, {}))

  lemma FailFirst()
    ensures var s := Two(Granted(FIRST, 11), Ending(FIRST, Broken(Http(400))), {FIRST.Key()});
            ValidRun(s, FAIL_FIRST) && Exec(s, FAIL_FIRST) == FAILED
  {
    var s := Two(Granted(FIRST, 11), Ending(FIRST, Broken(Http(400))), {FIRST.Key()});
    var settled := FAILED.(calls := map[
      1 := Caller(1, None, Granted(FIRST, 11)),
      2 := Caller(2, Some(Broken(Http(400))), Settled(FIRST, Broken(Http(400))))]);
    SettleFirst(s, settled);
    assert Apply(settled, FAIL_FIRST[1]) == FAILED;
    hide Apply, Enabled;
    Then(settled, FAIL_FIRST[1..], FAILED);
    Then(s, FAIL_FIRST, settled);
  }

  lemma SettleFirst(s: State, settled: State)
    requires s == Two(Granted(FIRST, 11), Ending(FIRST, Broken(Http(400))), {FIRST.Key()})
    requires settled == FAILED.(calls := map[
      1 := Caller(1, None, Granted(FIRST, 11)),
      2 := Caller(2, Some(Broken(Http(400))), Settled(FIRST, Broken(Http(400))))])
    ensures Enabled(s, Settle(2)) && Apply(s, Settle(2)) == settled
  {
    assert s.inflight - {(2, FIRST.Key())} == settled.inflight;
  }

  lemma StampFirst()
    ensures ValidRun(FAILED, STAMP_FIRST)
    ensures var end := Exec(FAILED, STAMP_FIRST);
            && 0 in end.rows && end.rows[0].status == NeedsReauth && end.rows[0].credential == 10
            && 1 in end.calls && end.calls[1].phase.Missed?
  {
    var stamped := Apply(FAILED, STAMP_FIRST[0]);
    var missed := Apply(stamped, STAMP_FIRST[1]);
    assert 0 in missed.rows && missed.rows[0].status == NeedsReauth && missed.rows[0].credential == 10;
    assert 1 in missed.calls && missed.calls[1].phase.Missed?;
    hide Apply, Enabled;
    Then(stamped, STAMP_FIRST[1..], missed);
    Then(FAILED, STAMP_FIRST, stamped);
  }

  /** Without a lock across processes a granted rotation can be lost for good.  Two processes
      refresh one expired connection: the endpoint grants the first, rejects the spent token of
      the second, and the second stamps before the first persists, so the row ends
      `needs_reauth` with the spent credential.  The lock of the other resolver excludes this. */
  lemma AGrantedRotationCanBeLost()
    ensures var run := ONE_LEADS + TWO_LEADS + BOTH_SEND + FAIL_FIRST + STAMP_FIRST;
            && ValidRun(INIT, run)
            && var s := Exec(INIT, run);
               && 0 in s.rows && s.rows[0].status == NeedsReauth && s.rows[0].credential == 10
               && 1 in s.calls && s.calls[1].phase.Missed?
  {
    OneLeads();
    TwoLeads();
    BothSend();
    FailFirst();
    StampFirst();
    RunsInSequence(INIT, ONE_LEADS, TWO_LEADS);
    RunsInSequence(INIT, ONE_LEADS + TWO_LEADS, BOTH_SEND);
    RunsInSequence(INIT, ONE_LEADS + TWO_LEADS + BOTH_SEND, FAIL_FIRST);
    RunsInSequence(INIT, ONE_LEADS + TWO_LEADS + BOTH_SEND + FAIL_FIRST, STAMP_FIRST);
  }
}
