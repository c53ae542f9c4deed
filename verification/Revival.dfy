/**
 Reviving a session, scripts/operator/revive-session.ts, as a state machine: any number of
 concurrent runs with one client event id, against the store and the locked admission of
 packages/core/src/domain/sessions.ts.

 Events are only ever added, and a unique index keeps one per client event id.
 */
module Revival {
  import opened Wrappers

  type RunId = nat
  type EventId = nat
  type Scope = nat            // workspace and session

  datatype Status = Idle | Queued | Running | RequiresAction | Failed | Cancelled

  datatype Session = Session(scope: Scope, status: Status)

  datatype Event = Event(scope: Scope, id: EventId)

  datatype Turn = Turn(scope: Scope, id: nat)

  /** The session, the event with the client event id, and the pending turns. */
  datatype Store = Store(session: Option<Session>, event: Option<Event>, turns: set<Turn>)

  datatype Input = Input(apply: bool, append: bool)

  datatype Refusal = SessionNotFound | ScopeMismatch | CancelledSession | ConflictingWork | DuplicateClientEvent

  datatype Result = ReadyToApply | Accepted(event: EventId) | Refused(why: Refusal, existing: Option<EventId>) | Threw

  /** How shared admission fails outside its own checks: with status 409, with SQLSTATE 23505, or
      otherwise. */
  datatype Fault = ConflictFault | ViolationFault | OtherFault

  datatype Phase =
    | Starting
    | Checking(session: Session, event: Option<Option<Event>>, turns: Option<set<Turn>>)
    | Admitting
    | Inserted(inserted: Event)              // admission's transaction committed
    | Violation                              // caught SQLSTATE 23505
    | Conflict                               // caught status 409
    | Rechecking(again: Option<Option<Session>>, pending: Option<set<Turn>>)
    | Done(result: Result)

  /** `calls` counts calls of admission; `lostTo` is the event there was when admission rejected
      the run.  No step reads either. */
  datatype Run = Run(input: Input, calls: nat, lostTo: Option<EventId>, phase: Phase)

  /** `winner` records which run inserted the event; no step reads it. */
  datatype State = State(here: Scope, store: Store, runs: map<RunId, Run>, winner: Option<RunId>)

  datatype Step =
    | Begin(r: RunId, input: Input)
    | ReadSession(r: RunId)
    | ReadEvent(r: RunId)
    | ReadTurns(r: RunId)
    | Decide(r: RunId)
    | Admit(r: RunId, fault: Option<Fault>, id: EventId)
    | Enqueue(r: RunId, fault: Option<Fault>, turn: nat, stored: bool)
    | LookUp(r: RunId)
    | RereadSession(r: RunId)
    | RereadTurns(r: RunId)
    | Conclude(r: RunId)
    | ReadFails(r: RunId)
    | Outside(session: Option<Session>, turns: set<Turn>)

  function Initial(here: Scope): State {
    State(here, Store(None, None, {}), map[], None)
  }

  // ---------------------------------------------------------------- pure parts

  predicate Busy(status: Status) {
    status in {Queued, Running, RequiresAction}
  }

  predicate Foreign(here: Scope, turns: set<Turn>) {
    exists t | t in turns :: t.scope != here
  }

  function DuplicateClientEventResult(here: Scope, event: Event): Result {
    if event.scope != here then Refused(ScopeMismatch, None) else Refused(DuplicateClientEvent, Some(event.id))
  }

  /** The preflight, once session, event and turns have been read. */
  function Preflight(here: Scope, input: Input, session: Session, event: Option<Event>, turns: set<Turn>): Phase {
    if Foreign(here, turns) then Done(Refused(ScopeMismatch, None))
    else if event.Some? then Done(DuplicateClientEventResult(here, event.value))
    else if session.status == Cancelled then Done(Refused(CancelledSession, None))
    else if !input.append && (Busy(session.status) || turns != {}) then Done(Refused(ConflictingWork, None))
    else if !input.apply then Done(ReadyToApply)
    else Admitting
  }

  /** What a conflict is reported as when no event explains it. */
  function Explain(here: Scope, session: Option<Session>, turns: set<Turn>): Result {
    if session.Some? && session.value.scope == here then
      if Foreign(here, turns) then Refused(ScopeMismatch, None)
      else if session.value.status == Cancelled then Refused(CancelledSession, None)
      else Refused(ConflictingWork, None)
    else Refused(ConflictingWork, None)
  }

  // ---------------------------------------------------------------- steps

  /** A run that waits for a read. */
  predicate Reads(phase: Phase) {
    || phase.Starting? || phase.Violation? || phase.Conflict?
    || (phase.Checking? && (phase.event.None? || phase.turns.None?))
    || (phase.Rechecking? && (phase.again.None? || phase.pending.None?))
  }

  predicate Enabled(s: State, step: Step) {
    match step
    case Begin(r, _) => r !in s.runs
    case ReadSession(r) => r in s.runs && s.runs[r].phase.Starting?
    case ReadEvent(r) => r in s.runs && s.runs[r].phase.Checking? && s.runs[r].phase.event.None?
    case ReadTurns(r) => r in s.runs && s.runs[r].phase.Checking? && s.runs[r].phase.turns.None?
    case Decide(r) => r in s.runs && s.runs[r].phase.Checking? && s.runs[r].phase.event.Some? && s.runs[r].phase.turns.Some?
    case Admit(r, _, _) => r in s.runs && s.runs[r].phase.Admitting?
    case Enqueue(r, _, _, _) => r in s.runs && s.runs[r].phase.Inserted?
    case LookUp(r) => r in s.runs && (s.runs[r].phase.Violation? || s.runs[r].phase.Conflict?)
    case RereadSession(r) => r in s.runs && s.runs[r].phase.Rechecking? && s.runs[r].phase.again.None?
    case RereadTurns(r) => r in s.runs && s.runs[r].phase.Rechecking? && s.runs[r].phase.pending.None?
    case Conclude(r) => r in s.runs && s.runs[r].phase.Rechecking? && s.runs[r].phase.again.Some? && s.runs[r].phase.pending.Some?
    case ReadFails(r) => r in s.runs && Reads(s.runs[r].phase)
    case Outside(session, turns) =>
      (session.Some? ==> session.value.scope == s.here) && !Foreign(s.here, turns)
  }

  function SetPhase(s: State, r: RunId, phase: Phase): State
    requires r in s.runs
  {
    s.(runs := s.runs[r := s.runs[r].(phase := phase)])
  }

  function Called(s: State, r: RunId, phase: Phase): State
    requires r in s.runs
  {
    s.(runs := s.runs[r := s.runs[r].(calls := s.runs[r].calls + 1, phase := phase)])
  }

  /** Admission said no: remember which event, if any, was there. */
  function Reject(s: State, r: RunId, phase: Phase): State
    requires r in s.runs
  {
    var lostTo := if s.store.event.Some? then Some(s.store.event.value.id) else None;
    s.(runs := s.runs[r := s.runs[r].(calls := s.runs[r].calls + 1, lostTo := lostTo, phase := phase)])
  }

  /** acceptSessionUserMessage up to the end of its transaction, under the session's row lock. */
  function ApplyAdmit(s: State, r: RunId, fault: Option<Fault>, id: EventId): State
    requires r in s.runs
  {
    if fault == Some(ConflictFault) then Reject(s, r, Conflict)
    else if fault == Some(ViolationFault) then Reject(s, r, Violation)
    else if fault == Some(OtherFault) || s.store.session.None? then Called(s, r, Done(Threw))
    else
      var status := s.store.session.value.status;
      if status == Cancelled || (!s.runs[r].input.append && (s.store.turns != {} || Busy(status))) then Reject(s, r, Conflict)
      else if s.store.event.Some? then Reject(s, r, Violation)
      else
        var session := if status == Idle || status == Failed then Session(s.here, Queued) else s.store.session.value;
        Called(s, r, Inserted(Event(s.here, id)))
          .(store := s.store.(session := Some(session), event := Some(Event(s.here, id))), winner := Some(r))
  }

  /** After the insert: the turn is stored, or something fails before or after it is. */
  function ApplyEnqueue(s: State, r: RunId, fault: Option<Fault>, turn: nat, stored: bool): State
    requires r in s.runs && s.runs[r].phase.Inserted?
  {
    var s' := if fault.None? || stored then s.(store := s.store.(turns := s.store.turns + {Turn(s.here, turn)})) else s;
    match fault
    case None => SetPhase(s', r, Done(Accepted(s.runs[r].phase.inserted.id)))
    case Some(ConflictFault) => SetPhase(s', r, Conflict)
    case Some(ViolationFault) => SetPhase(s', r, Violation)
    case Some(OtherFault) => SetPhase(s', r, Done(Threw))
  }

  function ApplyLookUp(s: State, r: RunId): State
    requires r in s.runs
  {
    if s.store.event.Some? then SetPhase(s, r, Done(DuplicateClientEventResult(s.here, s.store.event.value)))
    else if s.runs[r].phase.Violation? then SetPhase(s, r, Done(Threw))
    else SetPhase(s, r, Rechecking(None, None))
  }

  function Apply(s: State, step: Step): State
    requires Enabled(s, step)
  {
    match step
    case Begin(r, input) => s.(runs := s.runs[r := Run(input, 0, None, Starting)])
    case ReadSession(r) =>
      if s.store.session.None? then SetPhase(s, r, Done(Refused(SessionNotFound, None)))
      else if s.store.session.value.scope != s.here then SetPhase(s, r, Done(Refused(ScopeMismatch, None)))
      else SetPhase(s, r, Checking(s.store.session.value, None, None))
    case ReadEvent(r) => SetPhase(s, r, s.runs[r].phase.(event := Some(s.store.event)))
    case ReadTurns(r) => SetPhase(s, r, s.runs[r].phase.(turns := Some(s.store.turns)))
    case Decide(r) =>
      var phase := s.runs[r].phase;
      SetPhase(s, r, Preflight(s.here, s.runs[r].input, phase.session, phase.event.value, phase.turns.value))
    case Admit(r, fault, id) => ApplyAdmit(s, r, fault, id)
    case Enqueue(r, fault, turn, stored) => ApplyEnqueue(s, r, fault, turn, stored)
    case LookUp(r) => ApplyLookUp(s, r)
    case RereadSession(r) => SetPhase(s, r, s.runs[r].phase.(again := Some(s.store.session)))
    case RereadTurns(r) => SetPhase(s, r, s.runs[r].phase.(pending := Some(s.store.turns)))
    case Conclude(r) =>
      SetPhase(s, r, Done(Explain(s.here, s.runs[r].phase.again.value, s.runs[r].phase.pending.value)))
    case ReadFails(r) => SetPhase(s, r, Done(Threw))
    case Outside(session, turns) => s.(store := s.store.(session := session, turns := turns))
  }

  predicate ValidRun(s: State, steps: seq<Step>)
    decreases |steps|
  {
    steps == [] || (Enabled(s, steps[0]) && ValidRun(Apply(s, steps[0]), steps[1..]))
  }

  function Exec(s: State, steps: seq<Step>): State
    requires ValidRun(s, steps)
    decreases |steps|
  {
    if steps == [] then s else Exec(Apply(s, steps[0]), steps[1..])
  }

  // ---------------------------------------------------------------- the invariant

  /** What is known of a run from its phase. */
  ghost predicate RunOk(s: State, r: RunId)
    requires r in s.runs
  {
    var run := s.runs[r];
    var phase := run.phase;
    && (phase.Starting? || phase.Checking? || phase.Admitting? ==> run.calls == 0 && run.lostTo.None?)
    && run.calls <= 1 && (run.calls == 1 || phase.Admitting? ==> run.input.apply)
    && (phase.Checking? ==> phase.session.scope == s.here && (phase.turns.Some? ==> !Foreign(s.here, phase.turns.value)))
    && (phase.Checking? && phase.event.Some? && phase.event.value.Some? ==> s.store.event == phase.event.value)
    && (phase.Inserted? ==> run.calls == 1 && s.winner == Some(r) && s.store.event == Some(phase.inserted))
    && (phase.Rechecking? ==> run.lostTo.None? && (phase.again.Some? && phase.again.value.Some? ==> phase.again.value.value.scope == s.here)
                              && (phase.pending.Some? ==> !Foreign(s.here, phase.pending.value)))
    && (run.lostTo.Some? ==> s.store.event.Some? && s.store.event.value.id == run.lostTo.value && s.winner != Some(r))
    && (s.winner == Some(r) ==>
          phase.Inserted? || phase.Violation? || phase.Conflict?
          || (phase.Done? && (phase.result.Refused? ==> phase.result.why == DuplicateClientEvent)
              && !phase.result.ReadyToApply?))
    && (phase.Done? ==> ResultOk(s, r, run, phase.result))
  }

  ghost predicate ResultOk(s: State, r: RunId, run: Run, result: Result) {
    && (result.Accepted? ==> s.winner == Some(r) && s.store.event == Some(Event(s.here, result.event)) && run.calls == 1)
    && (result.Refused? ==> result.why != ScopeMismatch)
    && (result.Refused? && result.why == DuplicateClientEvent ==>
          s.store.event.Some? && result.existing == Some(s.store.event.value.id))
    && (run.lostTo.Some? ==> result == Refused(DuplicateClientEvent, run.lostTo) || result == Threw)
  }

  ghost predicate Inv(s: State) {
    && (forall r | r in s.runs :: RunOk(s, r))
    && (s.store.session.Some? ==> s.store.session.value.scope == s.here)
    && (s.store.event.Some? ==> s.store.event.value.scope == s.here)
    && (s.winner.Some? <==> s.store.event.Some?) && (s.winner.Some? ==> s.winner.value in s.runs)
    && !Foreign(s.here, s.store.turns)
  }

  /** A step of one run leaves the event, and what is known of the other runs. */
  lemma Advance(s: State, s': State, r: RunId)
    requires Inv(s) && r in s'.runs && RunOk(s', r)
    requires s' == s.(runs := s.runs[r := s'.runs[r]], store := s'.store)
    requires s'.store.event == s.store.event && (s'.store.session.Some? ==> s'.store.session.value.scope == s.here)
    requires !Foreign(s.here, s'.store.turns)
    ensures Inv(s')
  {
    forall q | q in s'.runs ensures RunOk(s', q) { assert q != r ==> RunOk(s, q); }
  }

  lemma InsertKeeps(s: State, r: RunId, fault: Option<Fault>, id: EventId, q: RunId)
    requires Inv(s) && Enabled(s, Admit(r, fault, id)) && q in s.runs
    requires Apply(s, Admit(r, fault, id)).runs[r].phase.Inserted?
    ensures RunOk(Apply(s, Admit(r, fault, id)), q)
  {
    hide Inv;
    Known(s, r);
    Known(s, q);
  }

  lemma AdmitKeeps(s: State, r: RunId, fault: Option<Fault>, id: EventId)
    requires Inv(s) && Enabled(s, Admit(r, fault, id))
    ensures Inv(Apply(s, Admit(r, fault, id)))
  {
    var s' := Apply(s, Admit(r, fault, id));
    if s'.runs[r].phase.Inserted? {
      hide RunOk;
      forall q | q in s'.runs ensures RunOk(s', q) { InsertKeeps(s, r, fault, id, q); }
    } else {
      hide Inv;
      Known(s, r);
      Advance(s, s', r);
    }
  }

  lemma EnqueueKeeps(s: State, r: RunId, fault: Option<Fault>, turn: nat, stored: bool)
    requires Inv(s) && Enabled(s, Enqueue(r, fault, turn, stored))
    ensures Inv(Apply(s, Enqueue(r, fault, turn, stored)))
  {
    var s' := Apply(s, Enqueue(r, fault, turn, stored));
    hide Inv;
    Known(s, r);
    forall t | t in s'.store.turns ensures t.scope == s.here { assert t in s.store.turns || t == Turn(s.here, turn); }
    Advance(s, s', r);
  }

  lemma Known(s: State, r: RunId)
    requires Inv(s) && r in s.runs
    ensures RunOk(s, r)
    ensures (s.store.session.Some? ==> s.store.session.value.scope == s.here) && !Foreign(s.here, s.store.turns)
    ensures s.store.event.Some? ==> s.store.event.value.scope == s.here
    ensures s.winner.Some? <==> s.store.event.Some?
  {
  }

  /** The steps that read, and what the run makes of it. */
  lemma ReadingKeeps(s: State, step: Step)
    requires Inv(s) && Enabled(s, step)
    requires step.ReadSession? || step.ReadEvent? || step.ReadTurns? || step.RereadSession? || step.RereadTurns? || step.ReadFails?
    ensures Inv(Apply(s, step))
  {
    hide Inv;
    Known(s, step.r);
    Advance(s, Apply(s, step), step.r);
  }

  lemma DecidingKeeps(s: State, step: Step)
    requires Inv(s) && Enabled(s, step) && (step.Decide? || step.LookUp? || step.Conclude?)
    ensures Inv(Apply(s, step))
  {
    hide Inv;
    Known(s, step.r);
    Advance(s, Apply(s, step), step.r);
  }

  lemma OutsideKeeps(s: State, step: Step)
    requires Inv(s) && Enabled(s, step) && step.Outside?
    ensures Inv(Apply(s, step))
  {
    forall q | q in s.runs ensures RunOk(Apply(s, step), q) { assert RunOk(s, q); }
  }

  lemma BeginKeeps(s: State, r: RunId, input: Input)
    requires Inv(s) && Enabled(s, Begin(r, input))
    ensures Inv(Apply(s, Begin(r, input)))
  {
    Advance(s, Apply(s, Begin(r, input)), r);
  }

  lemma StepKeeps(s: State, step: Step)
    requires Inv(s) && Enabled(s, step)
    ensures Inv(Apply(s, step))
  {
    hide Inv, Apply;
    match step {
      case Begin(r, input) => BeginKeeps(s, r, input);
      case Admit(r, fault, id) => AdmitKeeps(s, r, fault, id);
      case Enqueue(r, fault, turn, stored) => EnqueueKeeps(s, r, fault, turn, stored);
      case Outside(_, _) => OutsideKeeps(s, step);
      case _ =>
        if step.Decide? || step.LookUp? || step.Conclude? { DecidingKeeps(s, step); } else { ReadingKeeps(s, step); }
    }
  }

  lemma {:induction false} RunKeeps(s: State, steps: seq<Step>)
    requires Inv(s) && ValidRun(s, steps)
    ensures Inv(Exec(s, steps)) && Exec(s, steps).here == s.here
    decreases |steps|
  {
    if steps != [] {
      StepKeeps(s, steps[0]);
      RunKeeps(Apply(s, steps[0]), steps[1..]);
    }
  }

  lemma {:induction false} RunsInSequence(s: State, a: seq<Step>, b: seq<Step>)
    requires ValidRun(s, a) && ValidRun(Exec(s, a), b)
    ensures ValidRun(s, a + b) && Exec(s, a + b) == Exec(Exec(s, a), b)
    decreases |a|
  {
    if a == [] {
      assert a + b == b;
    } else {
      assert (a + b)[1..] == a[1..] + b;
      RunsInSequence(Apply(s, a[0]), a[1..], b);
    }
  }

  lemma Reachable(here: Scope, past: seq<Step>)
    requires ValidRun(Initial(here), past)
    ensures Inv(Exec(Initial(here), past))
  {
    RunKeeps(Initial(here), past);
  }

  // ---------------------------------------------------------------- theorems

  /** Of any number of concurrent runs at most one is accepted, and it reports the event that is
      stored under the client event id. */
  lemma AtMostOneAccepted(here: Scope, past: seq<Step>, q: RunId, r: RunId)
    requires ValidRun(Initial(here), past)
    requires var s := Exec(Initial(here), past);
             && q in s.runs && s.runs[q].phase.Done? && s.runs[q].phase.result.Accepted?
             && r in s.runs && s.runs[r].phase.Done? && s.runs[r].phase.result.Accepted?
    ensures var s := Exec(Initial(here), past);
            q == r && s.store.event.Some? && s.store.event.value.id == s.runs[r].phase.result.event
  {
    Reachable(here, past);
    var s := Exec(Initial(here), past);
    assert RunOk(s, q) && RunOk(s, r);
  }

  /** Every run calls admission at most once, and a dry run never does. */
  lemma AdmissionAtMostOnce(here: Scope, past: seq<Step>, r: RunId)
    requires ValidRun(Initial(here), past)
    ensures var s := Exec(Initial(here), past);
            r in s.runs ==> s.runs[r].calls <= 1 && (!s.runs[r].input.apply ==> s.runs[r].calls == 0)
  {
    Reachable(here, past);
    var s := Exec(Initial(here), past);
    if r in s.runs { assert RunOk(s, r); }
  }

  /** A run that admission rejects, in whichever way, when the winner's event is there. */
  predicate Loses(s: State, step: Step, r: RunId) {
    step.Admit? && step.r == r && Enabled(s, step) && s.store.event.Some?
    && (Apply(s, step).runs[r].phase.Violation? || Apply(s, step).runs[r].phase.Conflict?)
  }

  lemma StepFrame(s: State, step: Step, r: RunId)
    requires Inv(s) && Enabled(s, step) && r in s.runs
    ensures r in Apply(s, step).runs && (step.Outside? || step.r != r ==> Apply(s, step).runs[r] == s.runs[r])
    ensures s.store.event.Some? ==> Apply(s, step).store.event == s.store.event
  {
  }

  lemma {:induction false} DoneStays(s: State, steps: seq<Step>, r: RunId)
    requires Inv(s) && ValidRun(s, steps) && r in s.runs && s.runs[r].phase.Done?
    ensures r in Exec(s, steps).runs && Exec(s, steps).runs[r] == s.runs[r] && ReadFails(r) !in steps && LookUp(r) !in steps
    decreases |steps|
  {
    if steps != [] {
      assert steps[0].Outside? || steps[0].r != r;
      StepFrame(s, steps[0], r);
      StepKeeps(s, steps[0]);
      DoneStays(Apply(s, steps[0]), steps[1..], r);
      assert steps == [steps[0]] + steps[1..];
    }
  }

  /** What a run that caught a rejection makes of it, when the event is there. */
  function Verdict(s: State, steps: seq<Step>, r: RunId): Phase
    requires r in s.runs && s.store.event.Some?
  {
    if ReadFails(r) in steps then Done(Threw)
    else if LookUp(r) in steps then Done(DuplicateClientEventResult(s.here, s.store.event.value))
    else s.runs[r].phase
  }

  lemma {:induction false} RejectionSettles(s: State, steps: seq<Step>, r: RunId)
    requires Inv(s) && ValidRun(s, steps) && r in s.runs && s.store.event.Some?
    requires s.runs[r].phase.Violation? || s.runs[r].phase.Conflict?
    ensures var end := Exec(s, steps); r in end.runs && end.runs[r].phase == Verdict(s, steps, r)
    decreases |steps|
  {
    if steps != [] {
      var step, s' := steps[0], Apply(s, steps[0]);
      assert steps == [step] + steps[1..];
      StepFrame(s, step, r);
      StepKeeps(s, step);
      if step.Outside? || step.r != r {
        SameScope(s, step);
        RejectionSettles(s', steps[1..], r);
      } else {
        assert step == LookUp(r) || step == ReadFails(r);
        DoneStays(s', steps[1..], r);
      }
    }
  }

  lemma SameScope(s: State, step: Step)
    requires Enabled(s, step)
    ensures Apply(s, step).here == s.here
  {
  }

  /** Every run that admission rejects after the winner's insert ends, if it ends, with
      `duplicate_client_event` and the winner's event id, and never as busy work; or it throws,
      exactly when its look-up of the event failed. */
  lemma LosersReportTheWinner(here: Scope, past: seq<Step>, first: Step, between: seq<Step>, r: RunId)
    requires ValidRun(Initial(here), past) && Loses(Exec(Initial(here), past), first, r)
    requires ValidRun(Apply(Exec(Initial(here), past), first), between)
    ensures var s := Exec(Initial(here), past);
            var end := Exec(Apply(s, first), between);
            && r in end.runs
            && (end.runs[r].phase.Done? ==>
                  end.runs[r].phase.result
                  == if ReadFails(r) in between then Threw
                     else Refused(DuplicateClientEvent, Some(s.store.event.value.id)))
  {
    Reachable(here, past);
    var s := Exec(Initial(here), past);
    StepKeeps(s, first);
    StepFrame(s, first, r);
    SameScope(s, first);
    RejectionSettles(Apply(s, first), between, r);
    StoredInScope(s);
  }

  lemma StoredInScope(s: State)
    requires Inv(s)
    ensures s.store.event.Some? ==> s.store.event.value.scope == s.here
  {
  }

  /** A run whose own insert committed, and which then meets a 23505 or a 409, reports its own
      event as the duplicate, unless the look-up fails. */
  lemma TheWinnerMayReportItself(here: Scope, past: seq<Step>, first: Step, between: seq<Step>)
    requires ValidRun(Initial(here), past) && Enabled(Exec(Initial(here), past), first) && first.Enqueue?
    requires first.fault == Some(ConflictFault) || first.fault == Some(ViolationFault)
    requires ValidRun(Apply(Exec(Initial(here), past), first), between)
    ensures var s := Exec(Initial(here), past);
            var end := Exec(Apply(s, first), between);
            && s.winner == Some(first.r) && first.r in end.runs
            && (end.runs[first.r].phase.Done? ==>
                  end.runs[first.r].phase.result
                  == if ReadFails(first.r) in between then Threw
                     else Refused(DuplicateClientEvent, Some(s.runs[first.r].phase.inserted.id)))
  {
    Reachable(here, past);
    var s := Exec(Initial(here), past);
    Known(s, first.r);
    StepKeeps(s, first);
    StepFrame(s, first, first.r);
    SameScope(s, first);
    RejectionSettles(Apply(s, first), between, first.r);
  }

  /** The event is inserted only under the lock of a session that is not cancelled and, unless
      appending was asked for, has no active or queued work; and only by a run asked to apply. */
  lemma InsertNeedsAFreeSession(here: Scope, past: seq<Step>, step: Step)
    requires ValidRun(Initial(here), past) && Enabled(Exec(Initial(here), past), step)
    requires Apply(Exec(Initial(here), past), step).store.event != Exec(Initial(here), past).store.event
    ensures var s := Exec(Initial(here), past);
            && step.Admit? && s.store.event.None? && s.runs[step.r].input.apply
            && s.store.session.Some? && s.store.session.value.status != Cancelled
            && (!s.runs[step.r].input.append ==> s.store.turns == {} && !Busy(s.store.session.value.status))
  {
    Reachable(here, past);
    var s := Exec(Initial(here), past);
    if step.Admit? { assert RunOk(s, step.r); }
  }
}
