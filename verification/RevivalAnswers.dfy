/** What a revival is answered at each of its decisions, by the statuses and turns it decides on. */
module RevivalAnswers {
  import opened Wrappers
  import opened Revival

  /** Work that is queued, running or waiting for an action. */
  predicate Working(status: Status, turns: set<Turn>) {
    status == Queued || status == Running || status == RequiresAction || turns != {}
  }

  /** With its event stored in scope a run reports the duplicate, whatever else there is; with none, a
      cancelled session refuses, then work does unless appending was asked for; only then an applying
      run goes on, and a dry one is ready. */
  lemma PreflightAnswers(s: State, r: RunId)
    requires Inv(s) && Enabled(s, Decide(r))
    ensures var was, now := s.runs[r].phase, Apply(s, Decide(r)).runs[r].phase;
            var input, event, turns, status := s.runs[r].input, was.event.value, was.turns.value, was.session.status;
            && (event.Some? <==> now == Done(Refused(DuplicateClientEvent, if event.Some? then Some(event.value.id) else None)))
            && (now == Done(Refused(CancelledSession, None)) <==> event.None? && status == Cancelled)
            && (now == Done(Refused(ConflictingWork, None)) <==>
                  event.None? && status != Cancelled && !input.append && Working(status, turns))
            && (now == Done(ReadyToApply) <==>
                  event.None? && status != Cancelled && (input.append || !Working(status, turns)) && !input.apply)
            && (now == Admitting <==>
                  event.None? && status != Cancelled && (input.append || !Working(status, turns)) && input.apply)
  {
    Known(s, r);
    hide Inv, RunOk;
    InScope(s, r);
  }

  lemma InScope(s: State, r: RunId)
    requires Inv(s) && Enabled(s, Decide(r))
    ensures var phase := s.runs[r].phase;
            && !Foreign(s.here, phase.turns.value)
            && (phase.event.value.Some? ==> phase.event.value.value.scope == s.here)
  {
    Known(s, r);
  }

  /** The first read: no session, or one the caller did not ask about. */
  lemma FirstAnswers(s: State, r: RunId)
    requires Inv(s) && Enabled(s, ReadSession(r))
    ensures var now := Apply(s, ReadSession(r)).runs[r].phase;
            && (now == Done(Refused(SessionNotFound, None)) <==> s.store.session.None?)
            && (s.store.session.Some? <==> now.Checking? && now.session == s.store.session.value && now.event.None? && now.turns.None?)
  {
    Known(s, r);
  }

  /** Under the session's row lock the event is inserted exactly when nothing fails, the session is not
      cancelled, it has no work unless appending was asked for, and no run has inserted it; an idle or
      failed session is queued then.  A refusal for the session's state goes before one for the event. */
  lemma AdmissionAnswers(s: State, r: RunId, fault: Option<Fault>, id: EventId)
    requires Enabled(s, Admit(r, fault, id))
    ensures var s' := Apply(s, Admit(r, fault, id));
            var now, store := s'.runs[r].phase, s.store;
            var refused := store.session.Some?
                           && (store.session.value.status == Cancelled
                               || (!s.runs[r].input.append && Working(store.session.value.status, store.turns)));
            && (now == Conflict <==> fault == Some(ConflictFault) || (fault.None? && refused))
            && (now == Violation <==>
                  fault == Some(ViolationFault) || (fault.None? && store.session.Some? && !refused && store.event.Some?))
            && (now == Done(Threw) <==> fault == Some(OtherFault) || (fault.None? && store.session.None?))
            && (now.Inserted? <==> fault.None? && store.session.Some? && !refused && store.event.None?)
            && (if now.Inserted? then
                  && now.inserted == Event(s.here, id) && s'.store.event == Some(Event(s.here, id)) && s'.winner == Some(r)
                  && s'.store.turns == store.turns
                  && s'.store.session == if store.session.value.status == Idle || store.session.value.status == Failed
                                         then Some(Session(s.here, Queued)) else store.session
                else s'.store == store && s'.winner == s.winner)
  {
    match fault
    case None =>
    case Some(ConflictFault) =>
    case Some(ViolationFault) =>
    case Some(OtherFault) =>
  }

  /** After the insert: the turn is stored when all goes well, and may be when something fails; a 409
      and a 23505 are looked up, any other failure is thrown. */
  lemma EnqueueAnswers(s: State, r: RunId, fault: Option<Fault>, turn: nat, stored: bool)
    requires Enabled(s, Enqueue(r, fault, turn, stored))
    ensures var s' := Apply(s, Enqueue(r, fault, turn, stored));
            var now := s'.runs[r].phase;
            && (now == Done(Accepted(s.runs[r].phase.inserted.id)) <==> fault.None?)
            && (now == Conflict <==> fault == Some(ConflictFault))
            && (now == Violation <==> fault == Some(ViolationFault))
            && (now == Done(Threw) <==> fault == Some(OtherFault))
            && s'.store.turns == s.store.turns + (if fault.None? || stored then {Turn(s.here, turn)} else {})
            && s'.store.event == s.store.event && s'.store.session == s.store.session
  {
  }

  /** The look-up after a 409 or a 23505: the stored event goes before everything else; without one a
      23505 is thrown on, and a 409 is explained by what is read then. */
  lemma LookUpAnswers(s: State, r: RunId)
    requires Inv(s) && Enabled(s, LookUp(r))
    ensures var was, now := s.runs[r].phase, Apply(s, LookUp(r)).runs[r].phase;
            && (s.store.event.Some? ==> now == Done(Refused(DuplicateClientEvent, Some(s.store.event.value.id))))
            && (now == Done(Threw) <==> s.store.event.None? && was.Violation?)
            && (now == Rechecking(None, None) <==> s.store.event.None? && was.Conflict?)
  {
    Known(s, r);
  }

  /** A conflict that no event explains is a cancelled session when it is one, and busy work else. */
  lemma ConcludeAnswers(s: State, r: RunId)
    requires Inv(s) && Enabled(s, Conclude(r))
    ensures var again := s.runs[r].phase.again.value;
            Apply(s, Conclude(r)).runs[r].phase
            == Done(Refused(if again.Some? && again.value.status == Cancelled then CancelledSession else ConflictingWork, None))
  {
    Known(s, r);
  }
}
