/**
 runOperatorSessionRevival of scripts/operator/revive-session.ts as code: each piece between two
 awaits is proved to be one step of the state machine, and `Revive` strings them together in the
 order of the source, with the rest of the world acting at every await.
 */
module RevivalRun {
  import opened Wrappers
  import opened Revival

  function Actor(step: Step): Option<RunId> {
    match step
    case Outside(_, _) => None
    case _ => Some(step.r)
  }

  lemma OthersLeaveTheRun(s: State, step: Step, r: RunId)
    requires Enabled(s, step) && r in s.runs && Actor(step) != Some(r)
    ensures r in Apply(s, step).runs && Apply(s, step).runs[r] == s.runs[r] && Apply(s, step).here == s.here
  {
  }

  class Operator {
    const here: Scope
    var session: Option<Session>
    var event: Option<Event>
    var turns: set<Turn>
    var runs: map<RunId, Run>
    var winner: Option<RunId>
    ghost var history: seq<Step>

    function View(): State
      reads this
    {
      State(here, Store(session, event, turns), runs, winner)
    }

    /** The state is what the steps taken so far lead to. */
    ghost predicate Valid()
      reads this
    {
      ValidRun(Initial(here), history) && Exec(Initial(here), history) == View()
    }

    twostate predicate Did(step: Step)
      reads this
    {
      && old(Valid()) && Enabled(old(View()), step)
      && Valid() && history == old(history) + [step] && View() == Apply(old(View()), step)
    }

    /** The run has gone on, with the world moving. */
    twostate predicate Reached(r: RunId)
      reads this
    {
      && Valid() && old(history) <= history
      && r in old(runs) && r in runs && runs[r].input == old(runs[r]).input
    }

    constructor (here: Scope)
      ensures Valid() && View() == Initial(here) && history == []
    {
      this.here := here;
      session, event, turns, runs, winner := None, None, {}, map[], None;
      history := [];
    }

    ghost method Record(step: Step)
      requires ValidRun(Initial(here), history) && Enabled(Exec(Initial(here), history), step)
      requires View() == Apply(Exec(Initial(here), history), step)
      modifies this`history
      ensures Valid() && history == old(history) + [step]
    {
      assert ValidRun(Apply(Exec(Initial(here), history), step), []);
      RunsInSequence(Initial(here), history, [step]);
      history := history + [step];
    }

    method Move(r: RunId, phase: Phase)
      requires r in runs
      modifies this`runs
      ensures runs == old(runs)[r := old(runs)[r].(phase := phase)]
    {
      runs := runs[r := runs[r].(phase := phase)];
    }

    // -------------------------------------------------------------- one await

    method Start(r: RunId, input: Input)
      requires Valid() && r !in runs
      modifies this
      ensures Did(Begin(r, input))
    {
      runs := runs[r := Run(input, 0, None, Starting)];
      Record(Begin(r, input));
    }

    method GetSession(r: RunId)
      requires Valid() && Enabled(View(), ReadSession(r))
      modifies this
      ensures Did(ReadSession(r))
    {
      if session.None? {
        Move(r, Done(Refused(SessionNotFound, None)));
      } else if session.value.scope != here {
        Move(r, Done(Refused(ScopeMismatch, None)));
      } else {
        Move(r, Checking(session.value, None, None));
      }
      Record(ReadSession(r));
    }

    method GetEvent(r: RunId)
      requires Valid() && Enabled(View(), ReadEvent(r))
      modifies this
      ensures Did(ReadEvent(r))
    {
      Move(r, runs[r].phase.(event := Some(event)));
      Record(ReadEvent(r));
    }

    method ListTurns(r: RunId)
      requires Valid() && Enabled(View(), ReadTurns(r))
      modifies this
      ensures Did(ReadTurns(r))
    {
      Move(r, runs[r].phase.(turns := Some(turns)));
      Record(ReadTurns(r));
    }

    method CheckPreflight(r: RunId)
      requires Valid() && Enabled(View(), Decide(r))
      modifies this
      ensures Did(Decide(r))
    {
      var input, existing, pending := runs[r].input, runs[r].phase.event.value, runs[r].phase.turns.value;
      var status := runs[r].phase.session.status;
      if exists t | t in pending :: t.scope != here {
        Move(r, Done(Refused(ScopeMismatch, None)));
      } else if existing.Some? {
        Move(r, Done(DuplicateClientEventResult(here, existing.value)));
      } else if status == Cancelled {
        Move(r, Done(Refused(CancelledSession, None)));
      } else if !input.append && (Busy(status) || pending != {}) {
        Move(r, Done(Refused(ConflictingWork, None)));
      } else if !input.apply {
        Move(r, Done(ReadyToApply));
      } else {
        Move(r, Admitting);
      }
      Record(Decide(r));
    }

    /** The locked transaction of shared admission. */
    method AcceptUserMessage(r: RunId, fault: Option<Fault>, id: EventId)
      requires Valid() && Enabled(View(), Admit(r, fault, id))
      modifies this
      ensures Did(Admit(r, fault, id))
    {
      var append := runs[r].input.append;
      var existing := if event.Some? then Some(event.value.id) else None;
      var run := runs[r].(calls := runs[r].calls + 1);
      if fault == Some(ConflictFault) {
        run := run.(lostTo := existing, phase := Conflict);
      } else if fault == Some(ViolationFault) {
        run := run.(lostTo := existing, phase := Violation);
      } else if fault == Some(OtherFault) || session.None? {
        run := run.(phase := Done(Threw));
      } else if session.value.status == Cancelled || (!append && (turns != {} || Busy(session.value.status))) {
        run := run.(lostTo := existing, phase := Conflict);
      } else if event.Some? {
        run := run.(lostTo := existing, phase := Violation);
      } else {
        if session.value.status == Idle || session.value.status == Failed { session := Some(Session(here, Queued)); }
        event, winner := Some(Event(here, id)), Some(r);
        run := run.(phase := Inserted(Event(here, id)));
      }
      runs := runs[r := run];
      Record(Admit(r, fault, id));
    }

    /** What admission does after its transaction: store the turn, publish, wake the workflow. */
    method EnqueueTurn(r: RunId, fault: Option<Fault>, turn: nat, stored: bool)
      requires Valid() && Enabled(View(), Enqueue(r, fault, turn, stored))
      modifies this
      ensures Did(Enqueue(r, fault, turn, stored))
    {
      if fault.None? || stored { turns := turns + {Turn(here, turn)}; }
      if fault.None? {
        Move(r, Done(Accepted(runs[r].phase.inserted.id)));
      } else if fault.value == OtherFault {
        Move(r, Done(Threw));
      } else {
        Move(r, if fault.value == ConflictFault then Conflict else Violation);
      }
      Record(Enqueue(r, fault, turn, stored));
    }

    method FailRead(r: RunId)
      requires Valid() && Enabled(View(), ReadFails(r))
      modifies this
      ensures Did(ReadFails(r))
    {
      Move(r, Done(Threw));
      Record(ReadFails(r));
    }

    /** The catch clause: the exact event lookup comes before anything else. */
    method LookUpRacedEvent(r: RunId)
      requires Valid() && Enabled(View(), LookUp(r))
      modifies this
      ensures Did(LookUp(r))
    {
      if event.Some? {
        Move(r, Done(DuplicateClientEventResult(here, event.value)));
      } else if runs[r].phase.Violation? {
        Move(r, Done(Threw));
      } else {
        Move(r, Rechecking(None, None));
      }
      Record(LookUp(r));
    }

    method GetSessionAgain(r: RunId)
      requires Valid() && Enabled(View(), RereadSession(r))
      modifies this
      ensures Did(RereadSession(r))
    {
      Move(r, runs[r].phase.(again := Some(session)));
      Record(RereadSession(r));
    }

    method ListTurnsAgain(r: RunId)
      requires Valid() && Enabled(View(), RereadTurns(r))
      modifies this
      ensures Did(RereadTurns(r))
    {
      Move(r, runs[r].phase.(pending := Some(turns)));
      Record(RereadTurns(r));
    }

    method ExplainConflict(r: RunId)
      requires Valid() && Enabled(View(), Conclude(r))
      modifies this
      ensures Did(Conclude(r))
    {
      var now, pending := runs[r].phase.again.value, runs[r].phase.pending.value;
      var why := ConflictingWork;
      if now.Some? && now.value.scope == here {
        if exists t | t in pending :: t.scope != here {
          why := ScopeMismatch;
        } else if now.value.status == Cancelled {
          why := CancelledSession;
        }
      }
      Move(r, Done(Refused(why, None)));
      Record(Conclude(r));
    }

    // -------------------------------------------------------------- strung together

    /** One await: any number of steps of other runs and of the outside world. */
    method Await(r: RunId)
      requires Valid() && r in runs
      modifies this
      ensures Reached(r) && runs[r] == old(runs[r])
    {
      var n: int := *;
      while 0 < n
        invariant Reached(r) && runs[r] == old(runs[r])
      {
        n := n - 1;
        var step: Step := *;
        if Enabled(View(), step) && Actor(step) != Some(r) {
          OthersLeaveTheRun(View(), step, r);
          var s' := Apply(View(), step);
          session, event, turns, runs, winner := s'.store.session, s'.store.event, s'.store.turns, s'.runs, s'.winner;
          Record(step);
        }
      }
    }

    /** One read of the two that run together; it may fail. */
    method ReadOne(r: RunId, ofEvent: bool)
      requires Valid() && Enabled(View(), if ofEvent then ReadEvent(r) else ReadTurns(r))
      modifies this
      ensures Reached(r)
      ensures var was, now := old(runs[r].phase), runs[r].phase;
              now.Done? || (now.Checking? && now.event.Some? == (ofEvent || was.event.Some?)
                            && now.turns.Some? == (!ofEvent || was.turns.Some?))
    {
      hide ValidRun, Exec;
      Await(r);
      var fails: bool := *;
      if fails { FailRead(r); } else if ofEvent { GetEvent(r); } else { ListTurns(r); }
    }

    /** `Promise.all` of two reads: they happen in either order. */
    method ReadBoth(r: RunId)
      requires Valid() && r in runs && runs[r].phase.Checking? && runs[r].phase.event.None? && runs[r].phase.turns.None?
      modifies this
      ensures Reached(r) && (runs[r].phase.Done? || Enabled(View(), Decide(r)))
    {
      var eventFirst: bool := *;
      ReadOne(r, eventFirst);
      if !runs[r].phase.Done? { ReadOne(r, !eventFirst); }
    }

    method RereadOne(r: RunId, ofSession: bool)
      requires Valid() && Enabled(View(), if ofSession then RereadSession(r) else RereadTurns(r))
      modifies this
      ensures Reached(r)
      ensures var was, now := old(runs[r].phase), runs[r].phase;
              now.Done? || (now.Rechecking? && now.again.Some? == (ofSession || was.again.Some?)
                            && now.pending.Some? == (!ofSession || was.pending.Some?))
    {
      hide ValidRun, Exec;
      Await(r);
      var fails: bool := *;
      if fails { FailRead(r); } else if ofSession { GetSessionAgain(r); } else { ListTurnsAgain(r); }
    }

    method RereadBoth(r: RunId)
      requires Valid() && r in runs && runs[r].phase == Rechecking(None, None)
      modifies this
      ensures Reached(r) && (runs[r].phase.Done? || Enabled(View(), Conclude(r)))
    {
      var sessionFirst: bool := *;
      RereadOne(r, sessionFirst);
      if !runs[r].phase.Done? { RereadOne(r, !sessionFirst); }
    }

    method PreflightAll(r: RunId)
      requires Valid() && r in runs && runs[r].phase.Starting?
      modifies this
      ensures Reached(r) && (runs[r].phase.Admitting? || runs[r].phase.Done?)
    {
      Await(r);
      var fails: bool := *;
      if fails { FailRead(r); return; }
      GetSession(r);
      if runs[r].phase.Checking? { ReadBoth(r); }
      if !runs[r].phase.Done? { CheckPreflight(r); }
    }

    method CallAdmission(r: RunId)
      requires Valid() && r in runs && runs[r].phase.Admitting?
      modifies this
      ensures Reached(r) && (runs[r].phase.Done? || runs[r].phase.Violation? || runs[r].phase.Conflict?)
    {
      Await(r);
      var fault: Option<Fault>, id: EventId := *, *;
      AcceptUserMessage(r, fault, id);
      if runs[r].phase.Inserted? {
        Await(r);
        var late: Option<Fault>, turn: nat, stored: bool := *, *, *;
        EnqueueTurn(r, late, turn, stored);
      }
    }

    method HandleRejection(r: RunId)
      requires Valid() && r in runs && (runs[r].phase.Violation? || runs[r].phase.Conflict?)
      modifies this
      ensures Reached(r) && runs[r].phase.Done?
    {
      Await(r);
      var fails: bool := *;
      if fails { FailRead(r); return; }
      LookUpRacedEvent(r);
      if runs[r].phase.Rechecking? { RereadBoth(r); }
      if !runs[r].phase.Done? { ExplainConflict(r); }
    }

    /** The whole run is a stretch of a run of the state machine; it calls admission at most once,
        a dry run never does. */
    method Revive(r: RunId, input: Input) returns (result: Result)
      requires Valid() && r !in runs
      modifies this
      ensures Valid() && old(history) <= history && r in runs && runs[r].phase == Done(result)
      ensures runs[r].calls <= if input.apply then 1 else 0
    {
      Start(r, input);
      PreflightAll(r);
      if runs[r].phase.Admitting? { CallAdmission(r); }
      if !runs[r].phase.Done? { HandleRejection(r); }
      AdmissionAtMostOnce(here, history, r);
      result := runs[r].phase.result;
    }
  }
}
