/**
 What the preflight of a revival sees.  It reads the session, and then the event and the pending
 turns side by side; between these reads another run may insert the event and store its turn.
 */
module RevivalReads {
  import opened Wrappers
  import opened Revival

  // ---------------------------------------------------------------- what a run has read

  /** Run `r` is in its preflight. */
  predicate Reading(s: State, r: RunId) {
    r in s.runs && s.runs[r].phase.Checking?
  }

  /** Run `r` has not come to its preflight. */
  predicate Ahead(s: State, r: RunId) {
    r in s.runs ==> s.runs[r].phase.Starting?
  }

  /** How a step moves a run through its preflight; there is no way back. */
  lemma PreflightMoves(s: State, step: Step, r: RunId)
    requires Enabled(s, step)
    ensures var s' := Apply(s, step);
            && (!Ahead(s, r) ==> !Ahead(s', r))
            && (!Ahead(s, r) && !Reading(s, r) ==> !Reading(s', r))
            && (Ahead(s, r) && Reading(s', r) ==>
                  step == ReadSession(r) && s.store.session == Some(s'.runs[r].phase.session)
                  && s'.runs[r].phase.event.None? && s'.runs[r].phase.turns.None?)
            && (Reading(s, r) && Reading(s', r) ==>
                  var was, now := s.runs[r].phase, s'.runs[r].phase;
                  && now.session == was.session && s'.runs[r].input == s.runs[r].input
                  && now.event == (if step == ReadEvent(r) then Some(s.store.event) else was.event)
                  && now.turns == (if step == ReadTurns(r) then Some(s.store.turns) else was.turns))
            && (step == ReadEvent(r) ==> Reading(s, r) && s.runs[r].phase.event.None?)
            && (step == ReadTurns(r) ==> Reading(s, r) && s.runs[r].phase.turns.None?)
            && (step == ReadSession(r) ==> Ahead(s, r))
  {
  }

  /** The state in which `step` was first taken. */
  function Before(s: State, steps: seq<Step>, step: Step): State
    requires ValidRun(s, steps) && step in steps
    decreases |steps|
  {
    if steps[0] == step then s else
    assert steps == [steps[0]] + steps[1..];
    Before(Apply(s, steps[0]), steps[1..], step)
  }

  lemma {:induction false} NoWayBack(s: State, steps: seq<Step>, r: RunId)
    requires ValidRun(s, steps) && !Ahead(s, r) && !Reading(s, r)
    ensures !Reading(Exec(s, steps), r)
    decreases |steps|
  {
    if steps != [] {
      hide Apply;
      PreflightMoves(s, steps[0], r);
      NoWayBack(Apply(s, steps[0]), steps[1..], r);
    }
  }

  /** What has been read stays as it was read. */
  lemma {:induction false} ReadsAreKept(s: State, steps: seq<Step>, r: RunId)
    requires ValidRun(s, steps) && Reading(s, r) && Reading(Exec(s, steps), r)
    ensures var was, now := s.runs[r].phase, Exec(s, steps).runs[r].phase;
            && now.session == was.session
            && (was.event.Some? ==> now.event == was.event) && (was.turns.Some? ==> now.turns == was.turns)
    decreases |steps|
  {
    if steps != [] {
      hide Apply;
      var s' := Apply(s, steps[0]);
      PreflightMoves(s, steps[0], r);
      assert !Ahead(s, r);
      if Reading(s', r) { ReadsAreKept(s', steps[1..], r); } else { NoWayBack(s', steps[1..], r); }
    }
  }

  /** What a run in its preflight has read by the end was stored when it read it. */
  ghost predicate ReadThen(s: State, steps: seq<Step>, r: RunId)
    requires ValidRun(s, steps) && Reading(Exec(s, steps), r)
  {
    var phase := Exec(s, steps).runs[r].phase;
    && (Ahead(s, r) ==>
          ReadSession(r) in steps && Before(s, steps, ReadSession(r)).store.session == Some(phase.session))
    && (phase.event.Some? && !(Reading(s, r) && s.runs[r].phase.event.Some?) ==>
          ReadEvent(r) in steps && Before(s, steps, ReadEvent(r)).store.event == phase.event.value)
    && (phase.turns.Some? && !(Reading(s, r) && s.runs[r].phase.turns.Some?) ==>
          ReadTurns(r) in steps && Before(s, steps, ReadTurns(r)).store.turns == phase.turns.value)
  }

  lemma {:induction false} ReadsWereStored(s: State, steps: seq<Step>, r: RunId)
    requires ValidRun(s, steps) && Reading(Exec(s, steps), r)
    ensures ReadThen(s, steps, r)
    decreases |steps|
  {
    if steps != [] {
      hide Apply;
      var s', rest := Apply(s, steps[0]), steps[1..];
      assert steps == [steps[0]] + rest;
      PreflightMoves(s, steps[0], r);
      ReadsWereStored(s', rest, r);
      if Reading(s', r) { ReadsAreKept(s', rest, r); } else if !Ahead(s', r) { NoWayBack(s', rest, r); }
    }
  }

  /** The preflight decides on the session, the event and the turns as each was when the run read
      it. */
  lemma PreflightIsOfItsReads(here: Scope, past: seq<Step>, r: RunId)
    requires ValidRun(Initial(here), past) && Enabled(Exec(Initial(here), past), Decide(r))
    ensures ReadSession(r) in past && ReadEvent(r) in past && ReadTurns(r) in past
    ensures var s := Exec(Initial(here), past);
            var session := Before(Initial(here), past, ReadSession(r)).store.session;
            && session.Some?
            && Apply(s, Decide(r)).runs[r].phase
               == Preflight(s.here, s.runs[r].input, session.value,
                            Before(Initial(here), past, ReadEvent(r)).store.event,
                            Before(Initial(here), past, ReadTurns(r)).store.turns)
  {
    ReadsWereStored(Initial(here), past, r);
  }

  // ---------------------------------------------------------------- the winner's work

  /** Nothing but the revivals adds turns. */
  predicate NoOtherWork(s: State, steps: seq<Step>)
    requires ValidRun(s, steps)
    decreases |steps|
  {
    steps == []
    || ((steps[0].Outside? ==> steps[0].turns <= s.store.turns) && NoOtherWork(Apply(s, steps[0]), steps[1..]))
  }

  /** The pending turns are the winner's. */
  predicate WinnersWork(s: State) {
    s.store.turns != {} ==> s.winner.Some?
  }

  lemma StepAddsWinnersWork(s: State, step: Step)
    requires Inv(s) && WinnersWork(s) && Enabled(s, step)
    requires step.Outside? ==> step.turns <= s.store.turns
    ensures WinnersWork(Apply(s, step))
  {
    hide Inv;
    if step.Enqueue? { Known(s, step.r); }
  }

  lemma {:induction false} BeforeKeeps(s: State, steps: seq<Step>, step: Step)
    requires Inv(s) && WinnersWork(s) && ValidRun(s, steps) && NoOtherWork(s, steps) && step in steps
    ensures Inv(Before(s, steps, step)) && WinnersWork(Before(s, steps, step))
    ensures Before(s, steps, step).here == s.here
    decreases |steps|
  {
    if steps[0] != step {
      hide Inv, WinnersWork, Apply;
      assert steps == [steps[0]] + steps[1..];
      StepAddsWinnersWork(s, steps[0]);
      StepKeeps(s, steps[0]);
      SameScope(s, steps[0]);
      BeforeKeeps(Apply(s, steps[0]), steps[1..], step);
    }
  }

  /** On a session that was free when the run read it, and with no work but the revivals', a run
      that does not append reports the winner's event as the duplicate exactly when it read the
      event after the winner's insert; and reports the winner's own turn as conflicting work
      exactly when it read the event before that insert and the turns with the turn in them. */
  lemma BusyExactlyWhenReadsStraddle(here: Scope, past: seq<Step>, r: RunId)
    requires ValidRun(Initial(here), past) && NoOtherWork(Initial(here), past)
    requires var s := Exec(Initial(here), past);
             && Enabled(s, Decide(r)) && !s.runs[r].input.append
             && !Busy(s.runs[r].phase.session.status) && s.runs[r].phase.session.status != Cancelled
    ensures ReadEvent(r) in past && ReadTurns(r) in past
    ensures var s := Exec(Initial(here), past);
            var event, turns := Before(Initial(here), past, ReadEvent(r)), Before(Initial(here), past, ReadTurns(r));
            var verdict := Apply(s, Decide(r)).runs[r].phase;
            && (turns.store.turns != {} ==> turns.winner.Some?)
            && (verdict == Done(Refused(ConflictingWork, None)) <==> event.winner.None? && turns.store.turns != {})
            && (event.winner.Some? <==>
                  event.store.event.Some?
                  && verdict == Done(Refused(DuplicateClientEvent, Some(event.store.event.value.id))))
            && (event.winner.None? && turns.store.turns == {} <==>
                  verdict == if s.runs[r].input.apply then Admitting else Done(ReadyToApply))
  {
    var s := Exec(Initial(here), past);
    ReadsWereStored(Initial(here), past, r);
    BeforeKeeps(Initial(here), past, ReadEvent(r));
    BeforeKeeps(Initial(here), past, ReadTurns(r));
    RunKeeps(Initial(here), past);
    Scopes(Before(Initial(here), past, ReadEvent(r)));
    Scopes(Before(Initial(here), past, ReadTurns(r)));
  }

  lemma Scopes(s: State)
    requires Inv(s)
    ensures !Foreign(s.here, s.store.turns) && (s.winner.Some? <==> s.store.event.Some?)
    ensures s.store.event.Some? ==> s.store.event.value.scope == s.here
  {
  }

  // ---------------------------------------------------------------- one such run

  const INPUT := Input(true, false)
  const FREE := Session(0, Idle)
  const EVENT := Event(0, 7)

  const BOTH_BEGIN: seq<Step> := [Outside(Some(FREE), {}), Begin(1, INPUT), Begin(2, INPUT), ReadSession(1)]
  const READS: seq<Step> := [ReadSession(2), ReadEvent(1), ReadTurns(1), ReadEvent(2)]
  const WINS: seq<Step> := [Decide(1), Admit(1, None, 7), Enqueue(1, None, 3, true), ReadTurns(2)]

  function Two(store: Store, one: Run, two: Phase, winner: Option<RunId>): State {
    State(0, store, map[1 := one, 2 := Run(INPUT, 0, None, two)], winner)
  }

  const IDLE := Store(Some(FREE), None, {})
  const TAKEN := Store(Some(Session(0, Queued)), Some(EVENT), {Turn(0, 3)})

  /** The first step of a run leads to `next`. */
  lemma Then(s: State, steps: seq<Step>, next: State)
    requires steps != [] && Enabled(s, steps[0]) && Apply(s, steps[0]) == next && ValidRun(next, steps[1..])
    ensures ValidRun(s, steps) && Exec(s, steps) == Exec(next, steps[1..])
  {
  }

  lemma Four(s: State, steps: seq<Step>, a: State, b: State, c: State, d: State)
    requires |steps| == 4
    requires Enabled(s, steps[0]) && Apply(s, steps[0]) == a && Enabled(a, steps[1]) && Apply(a, steps[1]) == b
    requires Enabled(b, steps[2]) && Apply(b, steps[2]) == c && Enabled(c, steps[3]) && Apply(c, steps[3]) == d
    ensures ValidRun(s, steps) && Exec(s, steps) == d
  {
    hide Apply, Enabled;
    assert steps[1..][1..][1..][1..] == [];
    Then(c, steps[1..][1..][1..], d);
    Then(b, steps[1..][1..], c);
    Then(a, steps[1..], b);
    Then(s, steps, a);
  }

  lemma BothBegin()
    ensures ValidRun(Initial(0), BOTH_BEGIN)
    ensures Exec(Initial(0), BOTH_BEGIN)
            == Two(IDLE, Run(INPUT, 0, None, Checking(FREE, None, None)), Starting, None)
  {
    var a := State(0, IDLE, map[], None);
    var b := State(0, IDLE, map[1 := Run(INPUT, 0, None, Starting)], None);
    Four(Initial(0), BOTH_BEGIN, a, b, Two(IDLE, Run(INPUT, 0, None, Starting), Starting, None),
         Two(IDLE, Run(INPUT, 0, None, Checking(FREE, None, None)), Starting, None));
  }

  lemma BothRead()
    ensures var s := Two(IDLE, Run(INPUT, 0, None, Checking(FREE, None, None)), Starting, None);
            ValidRun(s, READS) && Exec(s, READS) == READY
  {
    var unread := Checking(FREE, None, None);
    var read := Run(INPUT, 0, None, Checking(FREE, Some(None), Some({})));
    Four(Two(IDLE, Run(INPUT, 0, None, unread), Starting, None), READS,
         Two(IDLE, Run(INPUT, 0, None, unread), unread, None),
         Two(IDLE, Run(INPUT, 0, None, Checking(FREE, Some(None), None)), unread, None),
         Two(IDLE, read, unread, None), READY);
  }

  const HALF := Checking(FREE, Some(None), None)

  const READY := Two(IDLE, Run(INPUT, 0, None, Checking(FREE, Some(None), Some({}))), HALF, None)
  const ADMITTING := Two(IDLE, Run(INPUT, 0, None, Admitting), HALF, None)
  const INSERTED := Two(TAKEN.(turns := {}), Run(INPUT, 1, None, Inserted(EVENT)), HALF, Some(1))
  const ACCEPTED := Two(TAKEN, Run(INPUT, 1, None, Done(Accepted(7))), HALF, Some(1))
  const LATE := Two(TAKEN, Run(INPUT, 1, None, Done(Accepted(7))), Checking(FREE, Some(None), Some({Turn(0, 3)})), Some(1))

  lemma OneIsAdmitted()
    ensures Enabled(READY, Decide(1)) && Apply(READY, Decide(1)) == ADMITTING
    ensures Enabled(ADMITTING, Admit(1, None, 7)) && Apply(ADMITTING, Admit(1, None, 7)) == INSERTED
  {
  }

  lemma OneIsAccepted()
    ensures Enabled(INSERTED, Enqueue(1, None, 3, true)) && Apply(INSERTED, Enqueue(1, None, 3, true)) == ACCEPTED
    ensures Enabled(ACCEPTED, ReadTurns(2)) && Apply(ACCEPTED, ReadTurns(2)) == LATE
  {
    assert {} + {Turn(0, 3)} == {Turn(0, 3)};
  }

  lemma OneWins()
    ensures ValidRun(READY, WINS) && Exec(READY, WINS) == LATE
  {
    OneIsAdmitted();
    OneIsAccepted();
    hide Apply, Enabled;
    Four(READY, WINS, ADMITTING, INSERTED, ACCEPTED, LATE);
  }

  /** Two runs of one event on an idle session: the first is accepted, and the second, which could
      have been told of the duplicate, is refused for the first one's turn. */
  lemma TheWinnersTurnLooksBusy()
    ensures var past := BOTH_BEGIN + READS + WINS;
            && ValidRun(Initial(0), past)
            && var s := Exec(Initial(0), past);
               && Enabled(s, Decide(2)) && 1 in s.runs && s.runs[1].phase == Done(Accepted(7)) && s.winner == Some(1)
               && Apply(s, Decide(2)).runs[2].phase == Done(Refused(ConflictingWork, None))
  {
    BothBegin();
    BothRead();
    OneWins();
    RunsInSequence(Initial(0), BOTH_BEGIN, READS);
    RunsInSequence(Initial(0), BOTH_BEGIN + READS, WINS);
  }
}
