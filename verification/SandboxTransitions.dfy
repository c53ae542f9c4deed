/** What every operation on the lease row does to each of its columns, and to nobody else's. */
module SandboxTransitions {
  import opened Wrappers
  import opened SandboxLease

  lemma NothingLeft(holders: set<Holder>, gone: set<Holder>)
    ensures holders - gone == {} <==> holders <= gone
  {
    if holders - gone == {} {
      forall h | h in holders ensures h in gone { assert h !in holders - gone; }
    }
  }

  /** A cold row is claimed by any acquire; a warming one becomes warm by the commit of its epoch, and
      ends by the rollback of its epoch or by expiring, draining if a box was recorded. */
  lemma ClaimedRows(l: Lease, op: Op)
    ensures var l' := Apply(l, op);
            && (l.liveness == Cold ==> l'.liveness == if op.DoAcquire? then Warming else Cold)
            && (l.liveness == Warming ==>
                  && (l'.liveness == Warm <==> op.DoCommit? && op.epoch == l.epoch)
                  && (l'.liveness == Cold <==>
                        (op.DoFail? && op.epoch == l.epoch) || (op.DoReap? && op.expired && l.instance.None?))
                  && (l'.liveness == Draining <==> op.DoReap? && op.expired && l.instance.Some?))
  {
  }

  /** A warm row drains when its last holder goes or its viewers are evicted; a draining one is warm
      again when acquired or re-armed, and cold when confirmed at its epoch with no holder counted.
      Both are recreated by an acquire with another image or rig and no other holder. */
  lemma LiveRows(l: Lease, op: Op)
    ensures var l' := Apply(l, op);
            && (l.liveness == Warm ==>
                  && (l'.liveness == Draining <==>
                        (op.DoRelease? && l.holders <= {op.h}) || (op.DoReap? && l.holders <= op.dead)
                        || (op.DoEvict? && l.turnHolders == 0))
                  && (l'.liveness == Warming <==> op.DoAcquire? && op.conflict && l.holders <= {op.h})
                  && l'.liveness != Cold)
            && (l.liveness == Draining ==>
                  && (l'.liveness == Warm <==> op.DoRearm? || (op.DoAcquire? && !op.conflict))
                  && (l'.liveness == Warming <==> op.DoAcquire? && op.conflict && l.holders <= {op.h})
                  && (l'.liveness == Cold <==> op.DoConfirmCold? && op.epoch == l.epoch && l.refcount == 0))
  {
    if op.DoAcquire? { NothingLeft(l.holders, {op.h}); }
    if op.DoRelease? { NothingLeft(l.holders, {op.h}); }
    if op.DoReap? { NothingLeft(l.holders, op.dead); }
  }

  /** Only the commit of a warming row at its epoch raises the epoch, by one. */
  lemma Epochs(l: Lease, op: Op)
    ensures Apply(l, op).epoch
            == l.epoch + if op.DoCommit? && l.liveness == Warming && op.epoch == l.epoch then 1 else 0
  {
  }

  /** The pointer to the provider's box is set by the record and the commit of a warming row at its
      epoch, cleared by the rollback of such a row, by the confirmation of a drained one and by a
      recreation, and kept by everything else: an expired attempt, an eviction and a reap keep it. */
  lemma Boxes(l: Lease, op: Op)
    ensures var claimed := l.liveness == Warming;
            var recreated := op.DoAcquire? && op.conflict && l.liveness != Cold && l.holders <= {op.h};
            Apply(l, op).instance
            == if (op.DoRecord? || op.DoCommit?) && claimed && op.epoch == l.epoch then Some(op.box)
               else if op.DoFail? && claimed && op.epoch == l.epoch then None
               else if op.DoConfirmCold? && l.liveness == Draining && op.epoch == l.epoch && l.refcount == 0 then None
               else if recreated then None
               else l.instance
  {
    if op.DoAcquire? { NothingLeft(l.holders, {op.h}); }
  }

  /** An acquire registers its holder unless it is fenced off or refused for another's image or rig;
      release, reap and eviction remove holders; nothing else touches them. */
  lemma Holders(l: Lease, op: Op)
    ensures var l' := Apply(l, op);
            match op
            case DoAcquire(h, conflict, expected) =>
              var refused := l.liveness != Cold && conflict && exists other | other in l.holders :: other != h;
              var fenced := l.liveness == Warm && !conflict && h.kind == Turn && expected.Some? && expected.value != l.epoch;
              l'.holders == if refused || fenced then l.holders else l.holders + {h}
            case DoRelease(h) => l'.holders == l.holders - {h} && l'.refcount == |l'.holders|
            case DoReap(dead, _) => l'.holders == l.holders - dead
            case DoEvict =>
              if l.liveness == Warm && l.turnHolders == 0 then forall h :: h in l'.holders <==> h in l.holders && h.kind == Turn
              else l' == l
            case _ => l'.holders == l.holders && l'.refcount == l.refcount && l'.turnHolders == l.turnHolders
  {
    if op.DoAcquire? {
      assert l.holders - {op.h} != {} <==> exists other | other in l.holders :: other != op.h by {
        if other :| other in l.holders && other != op.h { assert other in l.holders - {op.h}; }
        if l.holders - {op.h} != {} { var other :| other in l.holders - {op.h}; }
      }
    }
  }

  /** Who an acquire makes of its caller. */
  lemma Roles(l: Lease, h: Holder, conflict: bool, expected: Option<nat>)
    ensures var role := Acquire(l, h, conflict, expected).0;
            && (role == Spawner <==> l.liveness == Cold || (conflict && l.holders <= {h}))
            && (role == Conflict <==> l.liveness != Cold && conflict && !(l.holders <= {h}))
            && (role == Rearmed <==> l.liveness == Draining && !conflict)
            && (role == Fenced <==>
                  l.liveness == Warm && !conflict && h.kind == Turn && expected.Some? && expected.value != l.epoch)
  {
    NothingLeft(l.holders, {h});
  }

  /** After an acquire, a release or a reap that does not end an attempt, the counts are those of the
      holders; an attempt that expires and an eviction zero them. */
  lemma Counts(l: Lease, op: Op)
    ensures var l' := Apply(l, op);
            && (op.DoAcquire? && l' != l ==> l'.refcount == |l'.holders| && l'.turnHolders == |Turns(l'.holders)|)
            && (op.DoRelease? ==> l'.refcount == |l'.holders| && l'.turnHolders == |Turns(l'.holders)|)
            && (op.DoReap? ==>
                  if l.liveness == Warming && l'.liveness == Draining then l'.refcount == 0 && l'.turnHolders == 0
                  else l'.refcount == |l'.holders| && l'.turnHolders == |Turns(l'.holders)|)
            && (op.DoEvict? && l' != l ==> l'.refcount == 0 && l'.turnHolders == 0)
  {
  }
}
