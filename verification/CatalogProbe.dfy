/**
 Probing a normalised catalog, scripts/integrations-catalog-probe.ts: a pool of workers that
 share one index.  A scheduler picks, at every turn, any worker that has not stopped.
 */
module CatalogProbe {
  import opened Wrappers
  import opened Catalog

  datatype Status = Real | Junk | Unverified

  datatype Outcome = Outcome(status: Status, reason: string)

  const BUDGET_EXHAUSTED := Outcome(Unverified, "timeout")

  /** A row with its probe metadata. */
  datatype Probed = Probed(row: Row, outcome: Outcome)

  datatype Worker =
    | Ready                       // about to take the next index
    | Probing(index: nat)         // waiting for an endpoint
    | Stopped

  // ---------------------------------------------------------------- the result, from the outcomes

  function KeepOf(row: Row, outcome: Outcome): Option<Probed> {
    if outcome.status == Junk then None else Some(Probed(row, outcome))
  }

  /** The rows that are not junk, in input order. */
  function KeptRows(rows: seq<Row>, outcomes: seq<Outcome>): seq<Probed>
    requires |rows| == |outcomes|
  {
    if rows == [] then [] else
    var n := |rows| - 1;
    KeptRows(rows[..n], outcomes[..n]) + if outcomes[n].status == Junk then [] else [Probed(rows[n], outcomes[n])]
  }

  /** What the others are skipped as. */
  function Dropped(rows: seq<Row>, outcomes: seq<Outcome>): seq<Skip>
    requires |rows| == |outcomes|
  {
    if rows == [] then [] else
    var n := |rows| - 1;
    Dropped(rows[..n], outcomes[..n])
    + if outcomes[n].status == Junk then [SkipRow(rows[n], "probe_" + outcomes[n].reason)] else []
  }

  /** `filter` of the holes of an array. */
  function Compact<T>(cells: seq<Option<T>>): seq<T> {
    if cells == [] then []
    else
      var front, last := Compact(cells[..|cells| - 1]), cells[|cells| - 1];
      if last.Some? then front + [last.value] else front
  }

  // ---------------------------------------------------------------- the pool

  function Weight(workers: seq<Worker>): nat {
    if workers == [] then 0 else
    Weight(workers[..|workers| - 1])
    + match workers[|workers| - 1] case Ready => 1 case Probing(_) => 2 case Stopped => 0
  }

  lemma {:induction false} WeightFalls(workers: seq<Worker>, w: nat, worker: Worker)
    requires w < |workers|
    requires (workers[w].Ready? && worker.Stopped?) || (workers[w].Probing? && worker.Ready?)
    ensures Weight(workers[w := worker]) < Weight(workers)
  {
    var n := |workers| - 1;
    if w < n {
      WeightFalls(workers[..n], w, worker);
      assert workers[w := worker][..n] == workers[..n][w := worker];
    } else {
      assert workers[w := worker][..n] == workers[..n];
    }
  }

  /** The shared state of the pool. */
  datatype Shared = Shared(
    rows: seq<Row>, outcomes: seq<Option<Outcome>>, kept: seq<Option<Probed>>, next: nat, workers: seq<Worker>)
  {
    ghost predicate Sized() {
      |outcomes| == |rows| && |kept| == |rows|
    }

    /** Row `i` has its outcome, is being probed, or has not been taken. */
    ghost predicate Accounted(i: nat)
      requires Sized() && i < |rows|
    {
      && kept[i] == (if outcomes[i].Some? then KeepOf(rows[i], outcomes[i].value) else None)
      && (outcomes[i].Some? ==> i < next)
      && (outcomes[i].None? && i < next ==> Probing(i) in workers)
    }

    /** A worker probes a row that was taken and has no outcome. */
    ghost predicate Busy(w: nat)
      requires Sized() && w < |workers|
    {
      workers[w].Probing? ==> workers[w].index < next && workers[w].index < |rows| && outcomes[workers[w].index].None?
    }

    ghost predicate Apart(v: nat, w: nat)
      requires v < |workers| && w < |workers|
    {
      v != w && workers[v].Probing? && workers[w].Probing? ==> workers[v].index != workers[w].index
    }

    ghost predicate Ok() {
      && Sized()
      && (forall i | 0 <= i < |rows| :: Accounted(i))
      && (forall w | 0 <= w < |workers| :: Busy(w))
      && (forall v, w | 0 <= v < |workers| && 0 <= w < |workers| :: Apart(v, w))
      && (Stopped in workers ==> |rows| <= next)
    }

    function Put(index: nat, outcome: Outcome): Shared
      requires Sized() && index < |rows|
    {
      this.(outcomes := outcomes[index := Some(outcome)], kept := kept[index := KeepOf(rows[index], outcome)])
    }

    function Turn(w: nat, worker: Worker): Shared
      requires w < |workers|
    {
      this.(workers := workers[w := worker])
    }
  }

  lemma OthersKeepProbing(workers: seq<Worker>, w: nat, worker: Worker, x: Worker)
    requires w < |workers| && x in workers && workers[w] != x
    ensures x in workers[w := worker]
  {
    var v :| 0 <= v < |workers| && workers[v] == x;
    assert workers[w := worker][v] == x;
  }

  lemma StopOk(s: Shared, w: nat)
    requires s.Ok() && w < |s.workers| && s.workers[w].Ready? && |s.rows| <= s.next
    ensures s.(next := s.next + 1).Turn(w, Stopped).Ok()
  {
    var s' := s.(next := s.next + 1).Turn(w, Stopped);
    forall i | 0 <= i < |s.rows| ensures s'.Accounted(i) {
      assert s.Accounted(i);
      if s.outcomes[i].None? { OthersKeepProbing(s.workers, w, Stopped, Probing(i)); }
    }
    forall v | 0 <= v < |s'.workers| ensures s'.Busy(v) { assert s.Busy(v); }
    forall u, v | 0 <= u < |s'.workers| && 0 <= v < |s'.workers| ensures s'.Apart(u, v) { assert s.Apart(u, v); }
  }

  lemma ProbeOk(s: Shared, w: nat)
    requires s.Ok() && w < |s.workers| && s.workers[w].Ready? && s.next < |s.rows|
    ensures s.(next := s.next + 1).Turn(w, Probing(s.next)).Ok()
  {
    var s' := s.(next := s.next + 1).Turn(w, Probing(s.next));
    assert s'.workers[w] == Probing(s.next);
    forall i | 0 <= i < |s.rows| ensures s'.Accounted(i) {
      assert s.Accounted(i);
      if s.outcomes[i].None? && i < s.next { OthersKeepProbing(s.workers, w, Probing(s.next), Probing(i)); }
    }
    forall v | 0 <= v < |s'.workers| ensures s'.Busy(v) { assert s.Busy(v) && s.Accounted(s.next); }
    forall u, v | 0 <= u < |s'.workers| && 0 <= v < |s'.workers| ensures s'.Apart(u, v) {
      assert s.Apart(u, v) && s.Busy(u) && s.Busy(v);
    }
    if Stopped in s'.workers { NotIntroduced(s.workers, w, Probing(s.next), Stopped); }
  }

  lemma NotIntroduced(workers: seq<Worker>, w: nat, worker: Worker, x: Worker)
    requires w < |workers| && worker != x && x in workers[w := worker]
    ensures x in workers
  {
    var v :| 0 <= v < |workers| && workers[w := worker][v] == x;
    assert workers[v] == x;
  }

  lemma SettleOk(s: Shared, outcome: Outcome)
    requires s.Ok() && s.next < |s.rows|
    ensures s.Put(s.next, outcome).(next := s.next + 1).Ok()
  {
    var s' := s.Put(s.next, outcome).(next := s.next + 1);
    forall i | 0 <= i < |s.rows| ensures s'.Accounted(i) { assert s.Accounted(i); }
    forall v | 0 <= v < |s'.workers| ensures s'.Busy(v) { assert s.Busy(v); }
    forall u, v | 0 <= u < |s'.workers| && 0 <= v < |s'.workers| ensures s'.Apart(u, v) { assert s.Apart(u, v); }
  }

  lemma FinishOk(s: Shared, w: nat, outcome: Outcome)
    requires s.Ok() && w < |s.workers| && s.workers[w].Probing? && s.workers[w].index < |s.rows|
    ensures s.Put(s.workers[w].index, outcome).Turn(w, Ready).Ok()
  {
    var index := s.workers[w].index;
    var s' := s.Put(index, outcome).Turn(w, Ready);
    assert s.Busy(w);
    forall i | 0 <= i < |s.rows| ensures s'.Accounted(i) {
      assert s.Accounted(i);
      if i != index && s.outcomes[i].None? && i < s.next { OthersKeepProbing(s.workers, w, Ready, Probing(i)); }
    }
    forall v | 0 <= v < |s'.workers| ensures s'.Busy(v) { assert s.Busy(v) && s.Apart(v, w); }
    forall u, v | 0 <= u < |s'.workers| && 0 <= v < |s'.workers| ensures s'.Apart(u, v) { assert s.Apart(u, v); }
    if Stopped in s'.workers { NotIntroduced(s.workers, w, Ready, Stopped); }
  }

  class Pool {
    const rows: seq<Row>
    const outcomes: array<Option<Outcome>>
    const keptRows: array<Option<Probed>>
    var nextIndex: nat
    var workers: seq<Worker>
    ghost var claims: seq<nat>          // the indices taken, in the order they were taken

    function View(): Shared
      reads this, outcomes, keptRows
    {
      Shared(rows, outcomes[..], keptRows[..], nextIndex, workers)
    }

    ghost predicate Valid()
      reads this, outcomes, keptRows
    {
      && View().Ok()
      && |claims| == (if nextIndex < |rows| then nextIndex else |rows|)
      && (forall i | 0 <= i < |claims| :: claims[i] == i)
    }

    constructor (rows: seq<Row>, concurrency: int)
      ensures Valid() && this.rows == rows && fresh(outcomes) && fresh(keptRows)
      ensures |workers| > 0 || |rows| == 0
    {
      var most := if concurrency < 1 then 1 else concurrency;
      this.rows := rows;
      outcomes := new Option<Outcome>[|rows|](_ => None);
      keptRows := new Option<Probed>[|rows|](_ => None);
      nextIndex := 0;
      workers := seq(if most < |rows| then most else |rows|, _ => Ready);
      claims := [];
    }

    method Record(index: nat, outcome: Outcome)
      requires View().Sized() && index < |rows| && keptRows[index].None?
      modifies outcomes, keptRows
      ensures View() == old(View()).Put(index, outcome)
    {
      outcomes[index] := Some(outcome);
      if outcome.status != Junk { keptRows[index] := Some(Probed(rows[index], outcome)); }
      assert outcomes[..] == old(outcomes[..])[index := Some(outcome)];
      assert keptRows[..] == old(keptRows[..])[index := KeepOf(rows[index], outcome)];
    }

    /** From the top of a worker's loop to its next await: take an index; stop past the end; when
        the overall budget is spent, settle the row without a probe. */
    method Take(w: nat, budgetSpent: bool)
      requires Valid() && w < |workers| && workers[w].Ready?
      modifies this, outcomes, keptRows
      ensures Valid() && |workers| == old(|workers|)
      ensures old(nextIndex) < |rows| ==> nextIndex == old(nextIndex) + 1
      ensures old(nextIndex) >= |rows| ==> nextIndex >= |rows| && Weight(workers) < Weight(old(workers))
      ensures View().outcomes
              == if budgetSpent && old(nextIndex) < |rows|
                 then old(View()).outcomes[old(nextIndex) := Some(Outcome(Unverified, "timeout"))]
                 else old(View()).outcomes
    {
      ghost var before := View();
      var index := nextIndex;
      nextIndex := nextIndex + 1;
      if index >= |rows| {
        StopOk(before, w);
        WeightFalls(workers, w, Stopped);
        workers := workers[w := Stopped];
        return;
      }
      claims := claims + [index];
      if budgetSpent {
        assert before.Accounted(index);
        SettleOk(before, BUDGET_EXHAUSTED);
        Record(index, BUDGET_EXHAUSTED);
      } else {
        ProbeOk(before, w);
        workers := workers[w := Probing(index)];
      }
    }

    /** After the await: the outcome is written to the worker's own index. */
    method Finish(w: nat, outcome: Outcome)
      requires Valid() && w < |workers| && workers[w].Probing?
      modifies this, outcomes, keptRows
      ensures Valid() && |workers| == old(|workers|) && nextIndex == old(nextIndex)
      ensures Weight(workers) < Weight(old(workers))
      ensures old(workers)[w].index < |rows|
      ensures View().outcomes == old(View()).outcomes[old(workers)[w].index := Some(outcome)]
    {
      ghost var before := View();
      var index := workers[w].index;
      assert before.Busy(w) && before.Accounted(index);
      FinishOk(before, w, outcome);
      Record(index, outcome);
      WeightFalls(workers, w, Ready);
      workers := workers[w := Ready];
    }
  }

  /** probeCatalogSnapshot, under every schedule of its workers and for every outcome of every
      probe: each index is taken exactly once, every row gets an outcome, the rows kept are
      those that are not junk in input order, the others are skipped. */
  method ProbeCatalogSnapshot(snapshot: Snapshot, concurrency: int)
    returns (kept: seq<Probed>, skipped: seq<Skip>, outcomes: seq<Outcome>, ghost claims: seq<nat>)
    ensures |outcomes| == |snapshot.rows| && kept == KeptRows(snapshot.rows, outcomes)
    ensures skipped == snapshot.skipped + Dropped(snapshot.rows, outcomes)
    ensures |kept| + |skipped| == |snapshot.rows| + |snapshot.skipped|
    ensures |claims| == |snapshot.rows| && forall i | 0 <= i < |claims| :: claims[i] == i
  {
    var pool := new Pool(snapshot.rows, concurrency);
    while exists w :: 0 <= w < |pool.workers| && !pool.workers[w].Stopped?
      invariant pool.Valid() && fresh(pool) && fresh(pool.outcomes) && fresh(pool.keptRows)
      invariant |pool.workers| > 0 || |pool.rows| == 0
      decreases if pool.nextIndex < |pool.rows| then |pool.rows| - pool.nextIndex else 0, Weight(pool.workers)
    {
      var w :| 0 <= w < |pool.workers| && !pool.workers[w].Stopped?;
      if pool.workers[w].Ready? {
        var budgetSpent: bool := *;
        pool.Take(w, budgetSpent);
      } else {
        var outcome: Outcome := *;
        pool.Finish(w, outcome);
      }
    }
    AllSettled(pool.View());
    outcomes := Compact(pool.outcomes[..]);
    kept := Compact(pool.keptRows[..]);
    CompactOutcomes(pool.rows, pool.outcomes[..], pool.keptRows[..]);
    skipped := snapshot.skipped + Dropped(pool.rows, outcomes);
    claims := pool.claims;
    KeptAndDropped(pool.rows, outcomes);
  }

  /** When every worker has stopped, every row has its outcome. */
  lemma AllSettled(s: Shared)
    requires s.Ok() && (|s.workers| > 0 || |s.rows| == 0)
    requires forall w | 0 <= w < |s.workers| :: s.workers[w].Stopped?
    ensures |s.rows| <= s.next
    ensures forall i | 0 <= i < |s.rows| :: s.outcomes[i].Some? && s.kept[i] == KeepOf(s.rows[i], s.outcomes[i].value)
  {
    if |s.workers| > 0 { assert s.workers[0] in s.workers; }
    forall i | 0 <= i < |s.rows| ensures s.outcomes[i].Some? && s.kept[i] == KeepOf(s.rows[i], s.outcomes[i].value) {
      assert s.Accounted(i);
    }
  }

  lemma {:induction false} CompactOutcomes(rows: seq<Row>, outcomes: seq<Option<Outcome>>, kept: seq<Option<Probed>>)
    requires |rows| == |outcomes| == |kept|
    requires forall i | 0 <= i < |rows| :: outcomes[i].Some? && kept[i] == KeepOf(rows[i], outcomes[i].value)
    ensures |Compact(outcomes)| == |rows| && Compact(kept) == KeptRows(rows, Compact(outcomes))
    ensures forall i | 0 <= i < |rows| :: Compact(outcomes)[i] == outcomes[i].value
  {
    if rows != [] {
      var n := |rows| - 1;
      CompactOutcomes(rows[..n], outcomes[..n], kept[..n]);
      assert Compact(outcomes)[..n] == Compact(outcomes[..n]);
    }
  }

  // ---------------------------------------------------------------- conservation

  function ProbedSurface(p: Probed): Surface {
    RowSurface(p.row)
  }

  /** Probing keeps or drops every row, once. */
  lemma {:induction false} KeptAndDropped(rows: seq<Row>, outcomes: seq<Outcome>)
    requires |rows| == |outcomes|
    ensures Surfaces(ProbedSurface, KeptRows(rows, outcomes)) + Surfaces(SkipSurface, Dropped(rows, outcomes))
            == Surfaces(RowSurface, rows)
    ensures |KeptRows(rows, outcomes)| + |Dropped(rows, outcomes)| == |rows|
  {
    if rows != [] {
      var n := |rows| - 1;
      KeptAndDropped(rows[..n], outcomes[..n]);
      var kept, dropped := KeptRows(rows[..n], outcomes[..n]), Dropped(rows[..n], outcomes[..n]);
      var x := RowSurface(rows[n]);
      assert Surfaces(RowSurface, rows) == Surfaces(RowSurface, rows[..n]) + multiset{x};
      OneMoreEither(Surfaces(ProbedSurface, kept), Surfaces(SkipSurface, dropped), x);
      if outcomes[n].status == Junk {
        OneMore(SkipSurface, dropped, SkipRow(rows[n], "probe_" + outcomes[n].reason));
        assert KeptRows(rows, outcomes) == kept;
      } else {
        OneMore(ProbedSurface, kept, Probed(rows[n], outcomes[n]));
        assert Dropped(rows, outcomes) == dropped;
      }
    }
  }

  lemma OneMoreEither(k: multiset<Surface>, d: multiset<Surface>, x: Surface)
    ensures k + multiset{x} + d == k + d + multiset{x} && k + (d + multiset{x}) == k + d + multiset{x}
  {
  }

  lemma {:induction false} SurfacesInParts<T>(surfaceOf: T -> Surface, a: seq<T>, b: seq<T>)
    ensures Surfaces(surfaceOf, a + b) == Surfaces(surfaceOf, a) + Surfaces(surfaceOf, b)
  {
    if b == [] {
      assert a + b == a;
    } else {
      assert (a + b)[..|a + b| - 1] == a + b[..|b| - 1];
      SurfacesInParts(surfaceOf, a, b[..|b| - 1]);
    }
  }

  lemma SameRest(a: seq<Row>, b: seq<Row>, front: seq<Row>, rest: seq<Row>, last: Row)
    requires multiset(a) == multiset(b)
    requires multiset(a) == multiset(front) + multiset{last} && multiset(b) == multiset(rest) + multiset{last}
    ensures multiset(front) == multiset(rest)
  {
    assert multiset(front) == multiset(a) - multiset{last} == multiset(rest);
  }

  /** Sorting does not change what is accounted for. */
  lemma {:induction false} SurfacesIgnoreOrder(a: seq<Row>, b: seq<Row>)
    requires multiset(a) == multiset(b)
    ensures Surfaces(RowSurface, a) == Surfaces(RowSurface, b)
  {
    if a == [] {
      assert |multiset(b)| == 0;
    } else {
      var front, last := a[..|a| - 1], a[|a| - 1];
      assert a == front + [last];
      assert last in multiset(b);
      var i :| 0 <= i < |b| && b[i] == last;
      var rest := b[..i] + b[i + 1..];
      assert b == b[..i] + [last] + b[i + 1..];
      SameRest(a, b, front, rest, last);
      SurfacesIgnoreOrder(front, rest);
      SurfacesInParts(RowSurface, b[..i], b[i + 1..]);
      SurfacesInParts(RowSurface, b[..i] + [last], b[i + 1..]);
      OneMore(RowSurface, b[..i], last);
    }
  }

  /** From the input of the import to the output of the probe: every input row is kept, skipped
      or quarantined, once. */
  lemma ConservedAfterProbing(rules: Rules, candidates: seq<Candidate>, rows: seq<Row>, outcomes: seq<Outcome>)
    requires var n := AddAll(rules, candidates);
             GroupsListed(n) && multiset(rows) == multiset(Winners(n.groups, n.order)) && |rows| == |outcomes|
    ensures var n := AddAll(rules, candidates);
            Surfaces(ProbedSurface, KeptRows(rows, outcomes))
            + Surfaces(SkipSurface, n.skipped + Dropped(rows, outcomes))
            + Surfaces(QuarantineSurface, n.quarantined)
            == Surfaces(c => CandidateSurface(rules, c), candidates)
  {
    var n := AddAll(rules, candidates);
    Conservation(rules, candidates);
    KeptAndDropped(rows, outcomes);
    SurfacesIgnoreOrder(rows, Winners(n.groups, n.order));
    SurfacesInParts(SkipSurface, n.skipped, Dropped(rows, outcomes));
    Regroup(Surfaces(ProbedSurface, KeptRows(rows, outcomes)), Surfaces(SkipSurface, n.skipped),
            Surfaces(SkipSurface, Dropped(rows, outcomes)), Surfaces(QuarantineSurface, n.quarantined));
  }

  lemma Regroup(k: multiset<Surface>, s: multiset<Surface>, d: multiset<Surface>, q: multiset<Surface>)
    ensures k + (s + d) + q == k + d + s + q
  {
  }

  // ---------------------------------------------------------------- row by row

  ghost predicate Ascending(at: seq<nat>) {
    forall i, j | 0 <= i < j < |at| :: at[i] < at[j]
  }

  /** `at` are the positions, in order, of the rows that are junk, or of those that are not. */
  ghost predicate Positions(outcomes: seq<Outcome>, junk: bool, at: seq<nat>) {
    && Ascending(at) && (forall k | 0 <= k < |at| :: at[k] < |outcomes|)
    && forall i | 0 <= i < |outcomes| ::
         i in at <==> if junk then outcomes[i].status == Junk else outcomes[i].status == Real || outcomes[i].status == Unverified
  }

  ghost predicate KeptAt(rows: seq<Row>, outcomes: seq<Outcome>, at: seq<nat>, kept: seq<Probed>)
    requires |rows| == |outcomes|
  {
    |kept| == |at|
    && forall k | 0 <= k < |at| :: at[k] < |rows| && kept[k] == Probed(rows[at[k]], outcomes[at[k]])
  }

  ghost predicate DroppedAt(rows: seq<Row>, outcomes: seq<Outcome>, at: seq<nat>, dropped: seq<Skip>)
    requires |rows| == |outcomes|
  {
    |dropped| == |at|
    && forall k | 0 <= k < |at| ::
         at[k] < |rows|
         && dropped[k] == Skip(Some(rows[at[k]].domain), Some(rows[at[k]].mcpUrl), "probe_" + outcomes[at[k]].reason)
  }

  lemma OneMorePosition(outcomes: seq<Outcome>, n: nat, junk: bool, at: seq<nat>)
    requires |outcomes| == n + 1 && Positions(outcomes[..n], junk, at)
    ensures Positions(outcomes, junk, if (outcomes[n].status == Junk) == junk then at + [n] else at)
  {
    var now := if (outcomes[n].status == Junk) == junk then at + [n] else at;
    forall i, j | 0 <= i < j < |now| ensures now[i] < now[j] {}
    forall i | 0 <= i < n ensures i in now <==> i in at {}
    assert n in now <==> (outcomes[n].status == Junk) == junk by { assert n !in at; }
  }

  lemma OneMoreKept(rows: seq<Row>, outcomes: seq<Outcome>, n: nat, at: seq<nat>, kept: seq<Probed>)
    requires |rows| == |outcomes| == n + 1 && KeptAt(rows[..n], outcomes[..n], at, kept)
    ensures KeptAt(rows, outcomes, at, kept) && KeptAt(rows, outcomes, at + [n], kept + [Probed(rows[n], outcomes[n])])
  {
    forall k | 0 <= k < |at| ensures rows[..n][at[k]] == rows[at[k]] && outcomes[..n][at[k]] == outcomes[at[k]] {}
  }

  lemma OneMoreDropped(rows: seq<Row>, outcomes: seq<Outcome>, n: nat, at: seq<nat>, dropped: seq<Skip>)
    requires |rows| == |outcomes| == n + 1 && DroppedAt(rows[..n], outcomes[..n], at, dropped)
    ensures DroppedAt(rows, outcomes, at, dropped)
    ensures DroppedAt(rows, outcomes, at + [n], dropped + [SkipRow(rows[n], "probe_" + outcomes[n].reason)])
  {
    forall k | 0 <= k < |at| ensures rows[..n][at[k]] == rows[at[k]] && outcomes[..n][at[k]] == outcomes[at[k]] {}
  }

  lemma OneMoreRow(rows: seq<Row>, outcomes: seq<Outcome>, n: nat)
    requires |rows| == |outcomes| == n + 1
    ensures var kept, dropped := KeptRows(rows[..n], outcomes[..n]), Dropped(rows[..n], outcomes[..n]);
            if outcomes[n].status == Junk
            then KeptRows(rows, outcomes) == kept
                 && Dropped(rows, outcomes) == dropped + [SkipRow(rows[n], "probe_" + outcomes[n].reason)]
            else KeptRows(rows, outcomes) == kept + [Probed(rows[n], outcomes[n])] && Dropped(rows, outcomes) == dropped
  {
  }

  lemma NoRows()
    ensures Positions([], true, []) && Positions([], false, [])
    ensures KeptAt([], [], [], KeptRows([], [])) && DroppedAt([], [], [], Dropped([], []))
  {
  }

  /** Exactly the rows probed as real or unverified are kept, in input order and with their outcome;
      exactly the junk ones are skipped, in input order, for the reason of their outcome. */
  lemma {:induction false} KeptAndDroppedAre(rows: seq<Row>, outcomes: seq<Outcome>) returns (kept: seq<nat>, dropped: seq<nat>)
    requires |rows| == |outcomes|
    ensures Positions(outcomes, false, kept) && KeptAt(rows, outcomes, kept, KeptRows(rows, outcomes))
    ensures Positions(outcomes, true, dropped) && DroppedAt(rows, outcomes, dropped, Dropped(rows, outcomes))
    decreases |rows|
  {
    hide *;
    kept, dropped := [], [];
    if rows == [] {
      NoRows();
    } else {
      var n := |rows| - 1;
      kept, dropped := KeptAndDroppedAre(rows[..n], outcomes[..n]);
      OneMorePosition(outcomes, n, false, kept);
      OneMorePosition(outcomes, n, true, dropped);
      OneMoreKept(rows, outcomes, n, kept, KeptRows(rows[..n], outcomes[..n]));
      OneMoreDropped(rows, outcomes, n, dropped, Dropped(rows[..n], outcomes[..n]));
      OneMoreRow(rows, outcomes, n);
      if outcomes[n].status == Junk { dropped := dropped + [n]; } else { kept := kept + [n]; }
    }
  }
}
