/**
 The sandbox lease row of packages/db/src/index.ts: a state machine over cold, warming,
 warm and draining, with the epoch that fences spawners and the holders that keep a box
 alive.  Every operation is one database statement or row-locked transaction, so a run is
 a sequence of them, issued by any number of workers.
 */
module SandboxLease {
  import opened Wrappers

  type Box = int

  datatype Kind = Turn | Viewer

  datatype Holder = Holder(kind: Kind, id: nat)

  datatype Liveness = Cold | Warming | Warm | Draining

  /** `instance` is the provider's box id; `refcount` and `turnHolders` are the stored counts of
      the holders and of the turns among them. */
  datatype Lease = Lease(
    liveness: Liveness, epoch: nat, instance: Option<Box>, holders: set<Holder>, refcount: nat, turnHolders: nat)

  datatype Role = Spawner | Attached | Rearmed | Fenced | Conflict

  /** The row acquireLease materialises when there is none. */
  const FRESH := Lease(Cold, 0, None, {}, 0, 0)

  datatype Op =
    | DoAcquire(h: Holder, conflict: bool, expected: Option<nat>)
    | DoRecord(epoch: nat, box: Box)
    | DoCommit(epoch: nat, box: Box)
    | DoFail(epoch: nat)
    | DoRelease(h: Holder)
    | DoReap(dead: set<Holder>, expired: bool)
    | DoRearm
    | DoConfirmCold(epoch: nat)
    | DoEvict

  // ---------------------------------------------------------------- operations

  function Turns(holders: set<Holder>): set<Holder> {
    set h | h in holders && h.kind == Turn
  }

  function Recount(l: Lease, holders: set<Holder>): Lease {
    l.(holders := holders, refcount := |holders|, turnHolders := |Turns(holders)|)
  }

  function Register(l: Lease, h: Holder): Lease {
    Recount(l, l.holders + {h})
  }

  /** acquireLease.  `conflict`: this run's image or rig differs from the live box's. */
  function Acquire(l: Lease, h: Holder, conflict: bool, expected: Option<nat>): (Role, Lease) {
    if l.liveness != Cold && conflict && l.holders - {h} != {} then (Conflict, l)
    else if l.liveness == Cold || conflict then
      (Spawner, Register(l.(liveness := Warming, instance := if l.liveness == Cold then l.instance else None), h))
    else if l.liveness == Draining then (Rearmed, Register(l.(liveness := Warm), h))
    else if l.liveness == Warm && h.kind == Turn && expected.Some? && expected.value != l.epoch then (Fenced, l)
    else (Attached, Register(l, h))
  }

  /** The compare-and-set guard of the three spawner writes. */
  predicate WarmingAt(l: Lease, epoch: nat) {
    l.liveness == Warming && l.epoch == epoch
  }

  function RecordCreated(l: Lease, epoch: nat, box: Box): Lease {
    if WarmingAt(l, epoch) then l.(instance := Some(box)) else l
  }

  /** commitWarmingToWarm, the only step that raises the epoch. */
  function Commit(l: Lease, epoch: nat, box: Box): Lease {
    if WarmingAt(l, epoch) then l.(liveness := Warm, instance := Some(box), epoch := epoch + 1) else l
  }

  function FailToCold(l: Lease, epoch: nat): Lease {
    if WarmingAt(l, epoch) then l.(liveness := Cold, instance := None) else l
  }

  function Release(l: Lease, h: Holder): Lease {
    var holders := l.holders - {h};
    Recount(l, holders).(liveness := if l.liveness == Warm && holders == {} then Draining else l.liveness)
  }

  /** reapStaleLeaseHolders: drop dead holders, drain an idle warm row, and end an expired
      warming attempt: to cold if no box was recorded, to draining otherwise. */
  function Reap(l: Lease, dead: set<Holder>, expired: bool): Lease {
    var holders := l.holders - dead;
    var counted := Recount(l, holders).(liveness := if l.liveness == Warm && holders == {} then Draining else l.liveness);
    if counted.liveness == Warming && expired then
      if counted.instance.None? then counted.(liveness := Cold)
      else counted.(liveness := Draining, refcount := 0, turnHolders := 0)
    else counted
  }

  function Rearm(l: Lease): Lease {
    if l.liveness == Draining then l.(liveness := Warm) else l
  }

  function ConfirmCold(l: Lease, epoch: nat): Lease {
    if l.liveness == Draining && l.refcount == 0 && l.epoch == epoch
    then l.(liveness := Cold, instance := None) else l
  }

  /** forceDrainOverLimitViewerOnlyBoxes: a workspace over its limit loses the viewers of a warm
      row with no turn, going by the stored count, and the row drains. */
  function Evict(l: Lease): Lease {
    if l.liveness == Warm && l.turnHolders == 0
    then l.(liveness := Draining, holders := Turns(l.holders), refcount := 0, turnHolders := 0)
    else l
  }

  function Apply(l: Lease, op: Op): Lease {
    match op
    case DoAcquire(h, conflict, expected) => Acquire(l, h, conflict, expected).1
    case DoRecord(epoch, box) => RecordCreated(l, epoch, box)
    case DoCommit(epoch, box) => Commit(l, epoch, box)
    case DoFail(epoch) => FailToCold(l, epoch)
    case DoRelease(h) => Release(l, h)
    case DoReap(dead, expired) => Reap(l, dead, expired)
    case DoRearm => Rearm(l)
    case DoConfirmCold(epoch) => ConfirmCold(l, epoch)
    case DoEvict => Evict(l)
  }

  function Play(l: Lease, ops: seq<Op>): Lease
    decreases |ops|
  {
    if ops == [] then l else Play(Apply(l, ops[0]), ops[1..])
  }

  // ---------------------------------------------------------------- over every run

  /** `op` makes a worker the spawner. */
  predicate Spawns(l: Lease, op: Op) {
    op.DoAcquire? && Acquire(l, op.h, op.conflict, op.expected).0 == Spawner
  }

  predicate Commits(l: Lease, op: Op, epoch: nat) {
    op.DoCommit? && op.epoch == epoch && WarmingAt(l, epoch)
  }

  /** The warming attempt in progress is abandoned: the row is left cold, or a sole holder
      with another image or rig takes it over. */
  predicate Abandons(l: Lease, op: Op) {
    Apply(l, op).liveness == Cold || (l.liveness != Cold && Spawns(l, op))
  }

  predicate AbandonedDuring(l: Lease, ops: seq<Op>)
    decreases |ops|
  {
    ops != [] && (Abandons(l, ops[0]) || AbandonedDuring(Apply(l, ops[0]), ops[1..]))
  }

  lemma {:induction false} EpochNeverFalls(l: Lease, ops: seq<Op>)
    ensures l.epoch <= Play(l, ops).epoch
    decreases |ops|
  {
    if ops != [] { EpochNeverFalls(Apply(l, ops[0]), ops[1..]); }
  }

  /** In any run at most one commit succeeds per expected epoch, so at most one spawner per
      epoch publishes its box. */
  lemma OneCommitPerEpoch(l: Lease, first: Op, between: seq<Op>, last: Op, epoch: nat)
    requires Commits(l, first, epoch)
    ensures !Commits(Play(Apply(l, first), between), last, epoch)
  {
    EpochNeverFalls(Apply(l, first), between);
  }

  lemma {:induction false} PlayInParts(l: Lease, a: seq<Op>, b: seq<Op>)
    ensures Play(l, a + b) == Play(Play(l, a), b)
    decreases |a|
  {
    if a == [] {
      assert a + b == b;
    } else {
      assert (a + b)[1..] == a[1..] + b;
      PlayInParts(Apply(l, a[0]), a[1..], b);
    }
  }

  /** Operation `i` of the run commits at `epoch`. */
  predicate CommitsAt(l: Lease, run: seq<Op>, i: nat, epoch: nat) {
    i < |run| && Commits(Play(l, run[..i]), run[i], epoch)
  }

  /** No two operations of a run commit at one epoch. */
  lemma CommitsAtOnce(l: Lease, run: seq<Op>, i: nat, j: nat, epoch: nat)
    requires CommitsAt(l, run, i, epoch) && CommitsAt(l, run, j, epoch)
    ensures i == j
  {
    if i != j {
      var a, b := if i < j then i else j, if i < j then j else i;
      var between := run[a + 1..b];
      assert run[..b] == run[..a] + ([run[a]] + between);
      PlayInParts(l, run[..a], [run[a]] + between);
      assert ([run[a]] + between)[1..] == between;
      OneCommitPerEpoch(Play(l, run[..a]), run[a], between, run[b], epoch);
    }
  }

  lemma {:induction false} StaysClaimed(l: Lease, ops: seq<Op>)
    requires l.liveness != Cold && !AbandonedDuring(l, ops)
    ensures Play(l, ops).liveness != Cold
    decreases |ops|
  {
    if ops != [] { StaysClaimed(Apply(l, ops[0]), ops[1..]); }
  }

  /** The double-spawn guard: between two spawners the first attempt was abandoned, or the
      second itself takes the row over as its sole holder. */
  lemma NoSecondSpawner(l: Lease, first: Op, between: seq<Op>, last: Op)
    requires Spawns(l, first) && Spawns(Play(Apply(l, first), between), last)
    ensures var claimed := Apply(l, first);
            AbandonedDuring(claimed, between)
            || (last.conflict && Play(claimed, between).holders <= {last.h})
  {
    var claimed := Apply(l, first);
    if !AbandonedDuring(claimed, between) { StaysClaimed(claimed, between); }
  }

  // ---------------------------------------------------------------- what a holder keeps

  /** An operation that may end the registration of holder `h`: its own acquire or release,
      reaping it as dead, or, for a viewer, the eviction of viewers. */
  predicate Concerns(op: Op, h: Holder) {
    (op.DoAcquire? && op.h == h) || op == DoRelease(h) || (op.DoReap? && h in op.dead)
    || (op.DoEvict? && h.kind == Viewer)
  }

  /** The stored count of turns is right, until the row drains: an attempt that expires and an
      eviction zero it. */
  predicate Counted(l: Lease) {
    l.liveness == Warm || l.liveness == Warming ==> l.turnHolders == |Turns(l.holders)|
  }

  lemma TurnsCount(l: Lease, h: Holder)
    requires l.liveness == Warm && Counted(l) && h in l.holders && h.kind == Turn
    ensures l.turnHolders > 0
  {
    assert h in Turns(l.holders);
  }

  /** A registered holder pins a warm box: whatever all other workers, the reaper and the eviction
      of viewers do, the row stays warm at the same epoch with the same box, and the holder
      stays registered. */
  lemma {:induction false} HolderPinsWarmBox(l: Lease, ops: seq<Op>, h: Holder)
    requires l.liveness == Warm && Counted(l) && h in l.holders && forall op | op in ops :: !Concerns(op, h)
    ensures var l' := Play(l, ops);
            && l'.liveness == Warm && h in l'.holders && l'.epoch == l.epoch && l'.instance == l.instance
            && Counted(l')
    decreases |ops|
  {
    if ops != [] {
      assert !Concerns(ops[0], h);
      if h.kind == Turn { TurnsCount(l, h); }
      HolderPinsWarmBox(Apply(l, ops[0]), ops[1..], h);
    }
  }

  /** Without the standalone re-arm the count stays right. */
  lemma {:induction false} CountedWithoutRearm(l: Lease, ops: seq<Op>)
    requires Counted(l) && DoRearm !in ops
    ensures Counted(Play(l, ops))
    decreases |ops|
  {
    if ops != [] {
      assert ops[0] in ops;
      CountedWithoutRearm(Apply(l, ops[0]), ops[1..]);
    }
  }

  /** So the eviction of viewers takes a warm box exactly when no turn holds it. */
  lemma EvictionSparesTurns(ops: seq<Op>)
    requires DoRearm !in ops && Play(FRESH, ops).liveness == Warm
    ensures var l := Play(FRESH, ops);
            Apply(l, DoEvict).liveness == Draining <==> forall h | h in l.holders :: h.kind == Viewer
  {
    var l := Play(FRESH, ops);
    CountedWithoutRearm(FRESH, ops);
    if h :| h in l.holders && h.kind == Turn {
      TurnsCount(l, h);
    } else {
      assert Turns(l.holders) == {};
    }
  }

  /** With it, a turn can lose its box: an attempt whose box was recorded expires, which zeroes the
      counts and keeps the holder; re-arming trusts them, and the eviction sees no turn. */
  lemma ARearmedRowForgetsItsTurn()
    ensures var turn := Holder(Turn, 1);
            var l := Play(FRESH, [DoAcquire(turn, false, None), DoRecord(0, 7), DoReap({}, true), DoRearm]);
            && l.liveness == Warm && l.instance == Some(7) && turn in l.holders && !Counted(l)
            && Apply(l, DoEvict).liveness == Draining
  {
    var turn := Holder(Turn, 1);
    var ops := [DoAcquire(turn, false, None), DoRecord(0, 7), DoReap({}, true), DoRearm];
    var claimed := Apply(FRESH, ops[0]);
    var recorded := Apply(claimed, ops[1]);
    var expired := Apply(recorded, ops[2]);
    var l := Apply(expired, ops[3]);
    assert turn in Turns(l.holders);
    assert Play(expired, ops[1..][1..][1..]) == Play(l, []) by { assert ops[1..][1..][1..] == [DoRearm]; }
    assert Play(recorded, ops[1..][1..]) == l;
    assert Play(claimed, ops[1..]) == l;
  }

  // ---------------------------------------------------------------- fencing

  predicate CommittedDuring(l: Lease, ops: seq<Op>)
    decreases |ops|
  {
    ops != [] && ((ops[0].DoCommit? && WarmingAt(l, ops[0].epoch)) || CommittedDuring(Apply(l, ops[0]), ops[1..]))
  }

  lemma {:induction false} EpochRisesByCommits(l: Lease, ops: seq<Op>)
    ensures l.epoch < Play(l, ops).epoch <==> CommittedDuring(l, ops)
    decreases |ops|
  {
    if ops != [] {
      EpochRisesByCommits(Apply(l, ops[0]), ops[1..]);
      EpochNeverFalls(Apply(l, ops[0]), ops[1..]);
    }
  }

  /** A turn that read the epoch of the row, and acquires it warm after anything else happened, is
      fenced off exactly when a spawner committed in between; then it registers no holder.  A
      caller that passes no epoch is never fenced. */
  lemma FencedExactlyWhenSuperseded(l: Lease, ops: seq<Op>, h: Holder, conflict: bool)
    requires h.kind == Turn && Play(l, ops).liveness == Warm
    ensures var now := Play(l, ops);
            && (Acquire(now, h, false, Some(l.epoch)).0 == Fenced <==> CommittedDuring(l, ops))
            && (CommittedDuring(l, ops) ==> Acquire(now, h, false, Some(l.epoch)).1 == now)
            && Acquire(now, h, conflict, None).0 != Fenced
  {
    EpochRisesByCommits(l, ops);
    EpochNeverFalls(l, ops);
  }

  // ---------------------------------------------------------------- whose attempt a rollback ends

  /** The spawner whose attempt is in progress, if one is: the last to spawn. */
  function Attempt(l: Lease, ops: seq<Op>, owner: Option<Holder>): Option<Holder>
    decreases |ops|
  {
    if ops == [] then owner
    else Attempt(Apply(l, ops[0]), ops[1..], if Spawns(l, ops[0]) then Some(ops[0].h) else owner)
  }

  lemma {:induction false} AttemptUnchanged(l: Lease, ops: seq<Op>, owner: Option<Holder>)
    requires l.liveness != Cold && !AbandonedDuring(l, ops)
    ensures Attempt(l, ops, owner) == owner
    decreases |ops|
  {
    if ops != [] { AttemptUnchanged(Apply(l, ops[0]), ops[1..], owner); }
  }

  /** `h` takes no part in the operations as an acquirer. */
  predicate NoAcquireBy(ops: seq<Op>, h: Holder) {
    forall op | op in ops :: !(op.DoAcquire? && op.h == h)
  }

  lemma {:induction false} NeverAgain(l: Lease, ops: seq<Op>, h: Holder, owner: Option<Holder>)
    requires NoAcquireBy(ops, h) && owner != Some(h)
    ensures Attempt(l, ops, owner) != Some(h)
    decreases |ops|
  {
    if ops != [] {
      assert ops[0] in ops;
      NeverAgain(Apply(l, ops[0]), ops[1..], h, if Spawns(l, ops[0]) then Some(ops[0].h) else owner);
    }
  }

  /** A cold row is warming again only because somebody spawned. */
  lemma {:induction false} ColdRowNeedsASpawner(l: Lease, ops: seq<Op>, h: Holder, owner: Option<Holder>)
    requires NoAcquireBy(ops, h) && l.liveness == Cold && Play(l, ops).liveness == Warming
    ensures Attempt(l, ops, owner) != Some(h)
    decreases |ops|
  {
    assert ops[0] in ops;
    if Spawns(l, ops[0]) {
      NeverAgain(Apply(l, ops[0]), ops[1..], h, Some(ops[0].h));
    } else {
      ColdRowNeedsASpawner(Apply(l, ops[0]), ops[1..], h, owner);
    }
  }

  lemma {:induction false} AbandonedIsLost(l: Lease, ops: seq<Op>, h: Holder)
    requires NoAcquireBy(ops, h) && AbandonedDuring(l, ops) && Play(l, ops).liveness == Warming
    ensures Attempt(l, ops, Some(h)) != Some(h)
    decreases |ops|
  {
    assert ops[0] in ops;
    var l', rest := Apply(l, ops[0]), ops[1..];
    if Spawns(l, ops[0]) {
      NeverAgain(l', rest, h, Some(ops[0].h));
    } else if l'.liveness == Cold {
      ColdRowNeedsASpawner(l', rest, h, Some(h));
    } else {
      AbandonedIsLost(l', rest, h);
    }
  }

  /** A spawner's rollback ends its own attempt if that attempt was not abandoned before, and,
      when it finds the row warming, only then. */
  lemma RollbackEndsOwnAttempt(l: Lease, spawn: Op, between: seq<Op>)
    requires Spawns(l, spawn)
    ensures var own := Attempt(Apply(l, spawn), between, Some(spawn.h)) == Some(spawn.h);
            && (!AbandonedDuring(Apply(l, spawn), between) ==> own)
            && (NoAcquireBy(between, spawn.h) && Play(Apply(l, spawn), between).liveness == Warming ==>
                  (own <==> !AbandonedDuring(Apply(l, spawn), between)))
  {
    if !AbandonedDuring(Apply(l, spawn), between) {
      AttemptUnchanged(Apply(l, spawn), between, Some(spawn.h));
    } else if NoAcquireBy(between, spawn.h) && Play(Apply(l, spawn), between).liveness == Warming {
      AbandonedIsLost(Apply(l, spawn), between, spawn.h);
    }
  }

  /** When it was, it ends a rival's: taking the row from cold to warming does not raise the
      epoch, so the guard of a late rollback matches the rival's attempt too. */
  lemma LateRollbackEndsRivalAttempt()
    ensures var slow, rival := Holder(Turn, 1), Holder(Turn, 2);
            var spawn := DoAcquire(slow, false, None);
            var between := [DoReap({slow}, true), DoAcquire(rival, false, None)];
            var claimed := Apply(FRESH, spawn);
            var l := Play(claimed, between);
            && Spawns(FRESH, spawn) && AbandonedDuring(claimed, between)
            && Attempt(claimed, between, Some(slow)) == Some(rival)
            && WarmingAt(l, 0) && Apply(l, DoFail(0)).liveness == Cold
            && rival in Apply(l, DoFail(0)).holders
  {
    var slow, rival := Holder(Turn, 1), Holder(Turn, 2);
    var between := [DoReap({slow}, true), DoAcquire(rival, false, None)];
    var claimed := Apply(FRESH, DoAcquire(slow, false, None));
    var reset := Apply(claimed, between[0]);
    var l := Apply(reset, between[1]);
    assert claimed.holders - {slow} == {};
    assert between[1..] == [between[1]] && between[1..][1..] == [];
    assert Play(claimed, between) == Play(reset, between[1..]) == Play(l, []) == l;
    assert Attempt(claimed, between, Some(slow)) == Attempt(reset, between[1..], Some(slow))
        == Attempt(l, [], Some(rival));
  }
}
