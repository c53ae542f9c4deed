/** Coalescing of streamed delta events, packages/events/src/coalesce.ts. */
module Coalesce {
  import opened Wrappers

  datatype Value = Text(s: string) | Number(n: int) | Node(fields: map<string, Value>) | List(elements: seq<Value>) | Other

  /** `turn` is none for both an absent and a null turn id; `rest` is every other field. */
  datatype Event = Event(sequence: int, kind: string, turn: Option<string>, payload: Value, rest: string)

  const MESSAGE := "agent.message.delta"
  const REASONING := "agent.reasoning.delta"
  const SANDBOX := "sandbox.command.output.delta"

  predicate Delta(e: Event) {
    e.kind in {MESSAGE, REASONING, SANDBOX}
  }

  function Field(v: Value, key: string): Option<Value> {
    if v.Node? && key in v.fields then Some(v.fields[key]) else None
  }

  function StringField(v: Value, key: string): Option<string> {
    match Field(v, key)
    case Some(Text(s)) => Some(s)
    case _ => None
  }

  function OrEmpty(s: Option<string>): string {
    if s.Some? then s.value else ""
  }

  function PartsText(parts: seq<Value>): string {
    if parts == [] then "" else OrEmpty(StringField(parts[0], "text")) + PartsText(parts[1..])
  }

  function ReasoningText(payload: Value): string {
    match StringField(payload, "text")
    case Some(text) => text
    case None =>
      match Field(payload, "item")
      case None => ""
      case Some(item) =>
        match Field(item, "rawItem")
        case None => ""
        case Some(raw) =>
          match Field(raw, "content")
          case Some(List(parts)) => PartsText(parts)
          case _ => ""
  }

  function DeltaText(e: Event): string {
    if e.kind == REASONING then ReasoningText(e.payload)
    else if e.kind == SANDBOX then
      var chunk, text := StringField(e.payload, "chunk"), StringField(e.payload, "text");
      if chunk.Some? then chunk.value else if text.Some? then text.value
      else OrEmpty(StringField(e.payload, "output"))
    else OrEmpty(StringField(e.payload, "text"))
  }

  /** What events of one run share. */
  datatype Key = Key(kind: string, turn: Option<string>, name: Option<string>, stream: Option<string>, command: Option<string>)

  function SandboxField(e: Event, key: string): Option<string> {
    if e.kind == SANDBOX then StringField(e.payload, key) else None
  }

  function KeyOf(e: Event): Key {
    Key(e.kind, e.turn, SandboxField(e, "name"), SandboxField(e, "stream"), SandboxField(e, "commandId"))
  }

  // ---------------------------------------------------------------- the specification

  /** Deltas of one key. */
  predicate Uniform(run: seq<Event>) {
    forall i | 0 <= i < |run| :: Delta(run[i]) && KeyOf(run[i]) == KeyOf(run[0])
  }

  /** The longest uniform prefix. */
  function RunLength(events: seq<Event>): (n: nat)
    requires events != [] && Delta(events[0])
    ensures 1 <= n <= |events| && Uniform(events[..n])
    ensures n < |events| ==> !(Delta(events[n]) && KeyOf(events[n]) == KeyOf(events[0]))
  {
    RunLengthFrom(events, 1)
  }

  function RunLengthFrom(events: seq<Event>, k: nat): (n: nat)
    requires 1 <= k <= |events| && Uniform(events[..k])
    ensures k <= n <= |events| && Uniform(events[..n])
    ensures n < |events| ==> !(Delta(events[n]) && KeyOf(events[n]) == KeyOf(events[0]))
    decreases |events| - k
  {
    if k < |events| && Delta(events[k]) && KeyOf(events[k]) == KeyOf(events[0]) then
      assert events[..k + 1] == events[..k] + [events[k]];
      RunLengthFrom(events, k + 1)
    else k
  }

  function Texts(run: seq<Event>): string {
    if run == [] then "" else Texts(run[..|run| - 1]) + DeltaText(run[|run| - 1])
  }

  function Optional(key: string, s: Option<string>): map<string, Value> {
    if s.Some? then map[key := Text(s.value)] else map[]
  }

  /** The event a run becomes: its first, with the text and the last sequence of the run. */
  function MergedEvent(first: Event, text: string, until: int): Event {
    var key := KeyOf(first);
    first.(payload := Node(
      if first.kind == SANDBOX then
        map["chunk" := Text(text), "coalescedUntil" := Number(until)] + Optional("stream", key.stream)
        + Optional("commandId", key.command) + Optional("name", key.name)
      else map["text" := Text(text), "coalescedUntil" := Number(until)]))
  }

  function MergedRun(run: seq<Event>): Event
    requires run != []
  {
    MergedEvent(run[0], Texts(run), run[|run| - 1].sequence)
  }

  /** Replace every maximal run by one event. */
  function Coalesced(events: seq<Event>): seq<Event>
    decreases |events|
  {
    if events == [] then []
    else if !Delta(events[0]) then [events[0]] + Coalesced(events[1..])
    else
      var n := RunLength(events);
      [MergedRun(events[..n])] + Coalesced(events[n..])
  }

  // ---------------------------------------------------------------- the loop

  datatype DeltaRun = DeltaRun(
    first: Event, lastSequence: int, text: string, name: Option<string>, stream: Option<string>, command: Option<string>)

  ghost predicate Describes(run: DeltaRun, events: seq<Event>) {
    && events != [] && Uniform(events)
    && run.first == events[0] && run.lastSequence == events[|events| - 1].sequence && run.text == Texts(events)
    && KeyOf(run.first) == Key(run.first.kind, run.first.turn, run.name, run.stream, run.command)
  }

  function Flushed(run: DeltaRun): Event {
    var ends := Number(run.lastSequence);
    run.first.(payload := Node(
      if run.first.kind == SANDBOX then
        map["chunk" := Text(run.text), "coalescedUntil" := ends] + Optional("stream", run.stream)
        + Optional("commandId", run.command) + Optional("name", run.name)
      else map["text" := Text(run.text), "coalescedUntil" := ends]))
  }

  /** The loop has dealt with `events[..start]`, and holds `events[start..i]` as its run. */
  ghost predicate Progress(coalesced: seq<Event>, run: Option<DeltaRun>, events: seq<Event>, start: nat, i: nat) {
    && start <= i <= |events|
    && Dealt(coalesced, events, start)
    && if run.None? then start == i else Describes(run.value, events[start..i])
  }

  ghost predicate Dealt(coalesced: seq<Event>, events: seq<Event>, start: nat)
    requires start <= |events|
  {
    coalesced + Coalesced(events[start..]) == Coalesced(events)
  }

  lemma Push(coalesced: seq<Event>, events: seq<Event>, start: nat, next: nat, e: Event)
    requires start <= next <= |events| && Dealt(coalesced, events, start)
    requires Coalesced(events[start..]) == [e] + Coalesced(events[next..])
    ensures Dealt(coalesced + [e], events, next)
  {
    var rest := Coalesced(events[next..]);
    assert coalesced + [e] + rest == coalesced + ([e] + rest);
  }

  function Extended(run: DeltaRun, event: Event): DeltaRun {
    run.(text := run.text + DeltaText(event), lastSequence := event.sequence)
  }

  lemma GoOn(coalesced: seq<Event>, run: DeltaRun, events: seq<Event>, start: nat, i: nat)
    requires i < |events| && Progress(coalesced, Some(run), events, start, i) && SameDeltaRun(run, events[i])
    ensures Progress(coalesced, Some(Extended(run, events[i])), events, start, i + 1)
  {
    ExtendRun(run, events[start..i], events[i]);
    assert events[start..i + 1] == events[start..i] + [events[i]];
  }

  lemma Begin(coalesced: seq<Event>, events: seq<Event>, i: nat)
    requires i < |events| && Dealt(coalesced, events, i) && Delta(events[i])
    ensures Progress(coalesced, Some(NewRun(events[i])), events, i, i + 1)
  {
    NewRunDescribes(events[i]);
    assert events[i..i + 1] == [events[i]];
  }

  lemma Pass(coalesced: seq<Event>, events: seq<Event>, i: nat)
    requires i < |events| && Dealt(coalesced, events, i) && !Delta(events[i])
    ensures Progress(coalesced + [events[i]], None, events, i + 1, i + 1)
  {
    assert events[i..][0] == events[i] && events[i..][1..] == events[i + 1..];
    Push(coalesced, events, i, i + 1, events[i]);
  }

  lemma Started(events: seq<Event>)
    ensures Progress([], None, events, 0, 0)
  {
    assert events[0..] == events;
  }

  lemma Finished(coalesced: seq<Event>, events: seq<Event>)
    requires Dealt(coalesced, events, |events|)
    ensures coalesced == Coalesced(events)
  {
    assert events[|events|..] == [] && Coalesced([]) == [];
  }

  /** coalesceSessionEventDeltas. */
  method CoalesceSessionEventDeltas(events: seq<Event>) returns (coalesced: seq<Event>)
    ensures coalesced == Coalesced(events)
  {
    hide *;
    coalesced := [];
    var run: Option<DeltaRun> := None;
    ghost var start := 0;
    Started(events);
    for i := 0 to |events|
      invariant Progress(coalesced, run, events, start, i)
    {
      coalesced, run, start := TakeEvent(coalesced, run, events[i], events, start, i);
    }
    coalesced := Flush(coalesced, run, events, start, |events|);
    Finished(coalesced, events);
  }

  /** The body of the loop. */
  method TakeEvent(pushed: seq<Event>, run: Option<DeltaRun>, event: Event, ghost events: seq<Event>, ghost start: nat, ghost i: nat)
    returns (coalesced: seq<Event>, run': Option<DeltaRun>, ghost start': nat)
    requires i < |events| && event == events[i] && Progress(pushed, run, events, start, i)
    ensures Progress(coalesced, run', events, start', i + 1)
  {
    if run.Some? && SameDeltaRun(run.value, event) {
      GoOn(pushed, run.value, events, start, i);
      return pushed, Some(Extended(run.value, event)), start;
    }
    coalesced := Flush(pushed, run, events, start, i);
    if Delta(event) {
      Begin(coalesced, events, i);
      return coalesced, Some(NewRun(event)), i;
    }
    Pass(coalesced, events, i);
    return coalesced + [event], None, i + 1;
  }

  /** `flush`, when the run ends at `i`. */
  method Flush(pushed: seq<Event>, run: Option<DeltaRun>, ghost events: seq<Event>, ghost start: nat, ghost i: nat)
    returns (coalesced: seq<Event>)
    requires Progress(pushed, run, events, start, i)
    requires run.Some? && i < |events| ==> !SameDeltaRun(run.value, events[i])
    ensures coalesced == if run.None? then pushed else pushed + [Flushed(run.value)]
    ensures Dealt(coalesced, events, i)
  {
    coalesced := pushed;
    if run.Some? {
      FlushRun(run.value, events, start, i);
      Push(pushed, events, start, i, Flushed(run.value));
      coalesced := coalesced + [Flushed(run.value)];
    }
  }

  lemma NewRunDescribes(event: Event)
    requires Delta(event)
    ensures Describes(NewRun(event), [event])
  {
    assert [event][..0] == [] && Texts([]) == "";
  }

  function NewRun(event: Event): DeltaRun {
    DeltaRun(event, event.sequence, DeltaText(event),
             SandboxField(event, "name"), SandboxField(event, "stream"), SandboxField(event, "commandId"))
  }

  predicate SameDeltaRun(run: DeltaRun, event: Event) {
    && Delta(event) && run.first.kind == event.kind && run.first.turn == event.turn
    && (event.kind != SANDBOX || run.name == SandboxField(event, "name"))
    && run.stream == SandboxField(event, "stream") && run.command == SandboxField(event, "commandId")
  }

  lemma ExtendRun(run: DeltaRun, events: seq<Event>, event: Event)
    requires Describes(run, events) && SameDeltaRun(run, event)
    ensures Describes(run.(text := run.text + DeltaText(event), lastSequence := event.sequence), events + [event])
  {
    assert (events + [event])[..|events|] == events;
  }

  lemma FlushRun(run: DeltaRun, events: seq<Event>, start: nat, i: nat)
    requires start < i <= |events| && Describes(run, events[start..i])
    requires i < |events| ==> !SameDeltaRun(run, events[i])
    ensures Coalesced(events[start..]) == [Flushed(run)] + Coalesced(events[i..])
  {
    var rest, seen := events[start..], events[start..i];
    var n := RunLength(rest);
    assert rest[..|seen|] == seen;
    RunLengthIs(rest, |seen|);
    assert rest[n..] == events[i..];
  }

  lemma RunLengthIs(events: seq<Event>, n: nat)
    requires 1 <= n <= |events| && Uniform(events[..n])
    requires n < |events| ==> !(Delta(events[n]) && KeyOf(events[n]) == KeyOf(events[0]))
    ensures RunLength(events) == n
  {
    assert events[..n][0] == events[0];
    RunLengthFromIs(events, 1, n);
  }

  lemma {:induction false} RunLengthFromIs(events: seq<Event>, k: nat, n: nat)
    requires 1 <= k <= n <= |events| && Uniform(events[..k]) && Uniform(events[..n])
    requires n < |events| ==> !(Delta(events[n]) && KeyOf(events[n]) == KeyOf(events[0]))
    ensures RunLengthFrom(events, k) == n
    decreases n - k
  {
    if k < n {
      assert events[..n][k] == events[k];
      assert events[..k + 1] == events[..k] + [events[k]];
      RunLengthFromIs(events, k + 1, n);
    }
  }

  // ---------------------------------------------------------------- what is kept

  function Others(events: seq<Event>): seq<Event> {
    if events == [] then [] else (if Delta(events[0]) then [] else [events[0]]) + Others(events[1..])
  }

  lemma {:induction false} OthersAfter(events: seq<Event>, n: nat)
    requires n <= |events| && forall i | 0 <= i < n :: Delta(events[i])
    ensures Others(events) == Others(events[n..])
    decreases n
  {
    if n > 0 {
      OthersAfter(events[1..], n - 1);
      assert events[1..][n - 1..] == events[n..];
    } else {
      assert events[0..] == events;
    }
  }

  /** Other events survive unchanged and in order. */
  lemma {:induction false} OthersSurvive(events: seq<Event>)
    ensures Others(Coalesced(events)) == Others(events)
    decreases |events|
  {
    if events != [] {
      if Delta(events[0]) {
        var n := RunLength(events);
        forall i | 0 <= i < n ensures Delta(events[i]) { assert events[..n][i] == events[i]; }
        OthersAfter(events, n);
        OthersSurvive(events[n..]);
        assert Coalesced(events)[1..] == Coalesced(events[n..]);
      } else {
        OthersSurvive(events[1..]);
        assert Coalesced(events)[1..] == Coalesced(events[1..]);
      }
    }
  }

  /** The last sequence an output stands for. */
  function Until(e: Event): int {
    match Field(e.payload, "coalescedUntil")
    case Some(Number(n)) => if Delta(e) then n else e.sequence
    case _ => e.sequence
  }

  lemma MergedOutputReadsBack(first: Event, text: string, until: int)
    requires first.kind == SANDBOX
    ensures var m := MergedEvent(first, text, until);
            KeyOf(m) == KeyOf(first) && DeltaText(m) == text && Until(m) == until
  {
    var fields := MergedEvent(first, text, until).payload.fields;
    assert fields["chunk"] == Text(text) && fields["coalescedUntil"] == Number(until);
  }

  /** A merged event is a delta of the same key whose text reads back. */
  lemma MergedReadsBack(first: Event, text: string, until: int)
    requires Delta(first)
    ensures var m := MergedEvent(first, text, until);
            && Delta(m) && KeyOf(m) == KeyOf(first) && DeltaText(m) == text && Until(m) == until
            && m.sequence == first.sequence && m.rest == first.rest
  {
    if first.kind == SANDBOX { MergedOutputReadsBack(first, text, until); }
  }

  predicate Mergeable(a: Event, b: Event) {
    Delta(a) && Delta(b) && KeyOf(a) == KeyOf(b)
  }

  /** The first run of the events, with what it becomes. */
  lemma FirstRun(events: seq<Event>) returns (n: nat)
    requires events != []
    ensures 1 <= n <= |events| && forall i | 0 <= i < n :: Delta(events[i]) == Delta(events[0]) && KeyOf(events[i]) == KeyOf(events[0])
    ensures Coalesced(events) == [Coalesced(events)[0]] + Coalesced(events[n..])
    ensures n < |events| ==> !Mergeable(events[0], events[n])
    ensures !Delta(events[0]) ==> n == 1
    ensures var first := Coalesced(events)[0];
            && first.sequence == events[0].sequence && (Until(first) == events[n - 1].sequence)
            && Delta(first) == Delta(events[0]) && KeyOf(first) == KeyOf(events[0])
  {
    n := if Delta(events[0]) then RunLength(events) else 1;
    if Delta(events[0]) {
      MergedReadsBack(events[0], Texts(events[..n]), events[n - 1].sequence);
      forall i | 0 <= i < n ensures Delta(events[i]) && KeyOf(events[i]) == KeyOf(events[0]) { assert events[..n][i] == events[i]; }
    }
  }

  /** No two adjacent outputs are mergeable. */
  lemma {:induction false} NothingLeftToMerge(events: seq<Event>)
    ensures forall i | 0 <= i < |Coalesced(events)| - 1 :: !Mergeable(Coalesced(events)[i], Coalesced(events)[i + 1])
    decreases |events|
  {
    if events != [] {
      var n := FirstRun(events);
      var out, rest := Coalesced(events), Coalesced(events[n..]);
      NothingLeftToMerge(events[n..]);
      if n < |events| { var _ := FirstRun(events[n..]); }
      forall i | 0 <= i < |out| - 1 ensures !Mergeable(out[i], out[i + 1]) {
        assert out[i + 1] == rest[i];
        if i > 0 { assert out[i] == rest[i - 1]; }
      }
    }
  }

  // ---------------------------------------------------------------- intervals

  ghost predicate Increasing(events: seq<Event>) {
    forall i, j | 0 <= i < j < |events| :: events[i].sequence < events[j].sequence
  }

  predicate Covers(out: Event, sequence: int) {
    Delta(out) && out.sequence <= sequence <= Until(out)
  }

  /** Intervals from `low` on, each after the one before. */
  ghost predicate Apart(out: seq<Event>, low: int) {
    && (forall i | 0 <= i < |out| :: low <= out[i].sequence && out[i].sequence <= Until(out[i]))
    && (forall i, j | 0 <= i < j < |out| :: Until(out[i]) < out[j].sequence)
  }

  lemma Prepend(e: Event, rest: seq<Event>, low: int)
    requires e.sequence <= Until(e) && (rest == [] || Until(e) < low) && Apart(rest, low)
    ensures Apart([e] + rest, e.sequence)
  {
  }

  /** For increasing sequences the intervals [sequence, coalescedUntil] are ordered and disjoint. */
  lemma {:induction false} IntervalsAreOrdered(events: seq<Event>)
    requires events != [] && Increasing(events)
    ensures Apart(Coalesced(events), events[0].sequence)
    decreases |events|
  {
    var n := FirstRun(events);
    if n < |events| {
      IntervalsAreOrdered(events[n..]);
      Prepend(Coalesced(events)[0], Coalesced(events[n..]), events[n].sequence);
    }
  }

  /** They cover the sequences of the deltas, each with an output of its own key, */
  lemma {:induction false} IntervalsCoverTheDeltas(events: seq<Event>, k: nat) returns (i: nat)
    requires Increasing(events) && k < |events| && Delta(events[k])
    ensures var out := Coalesced(events);
            i < |out| && Covers(out[i], events[k].sequence) && KeyOf(out[i]) == KeyOf(events[k])
    decreases |events|
  {
    var n := FirstRun(events);
    if k < n {
      i := 0;
    } else {
      i := IntervalsCoverTheDeltas(events[n..], k - n);
      assert Coalesced(events)[i + 1] == Coalesced(events[n..])[i];
      i := i + 1;
    }
  }

  /** and of nothing else. */
  lemma {:induction false} IntervalsCoverOnlyDeltas(events: seq<Event>, k: nat)
    requires Increasing(events) && k < |events| && !Delta(events[k])
    ensures forall i | 0 <= i < |Coalesced(events)| :: !Covers(Coalesced(events)[i], events[k].sequence)
    decreases |events|
  {
    var n := FirstRun(events);
    var rest := Coalesced(events[n..]);
    assert !Covers(Coalesced(events)[0], events[k].sequence);
    if k >= n {
      IntervalsCoverOnlyDeltas(events[n..], k - n);
    } else if n < |events| {
      IntervalsAreOrdered(events[n..]);
      forall i | 0 <= i < |rest| ensures !Covers(rest[i], events[k].sequence) { assert events[k].sequence < events[n].sequence; }
    }
    forall i | 1 <= i < |Coalesced(events)| ensures !Covers(Coalesced(events)[i], events[k].sequence) {
      assert Coalesced(events)[i] == rest[i - 1];
    }
  }

  // ---------------------------------------------------------------- paging

  /** An event up to where its text was cut: a piece of a run, or another event as it is. */
  datatype Piece = Run(key: Key, text: string) | Single(e: Event)

  function PieceOf(e: Event): Piece {
    if Delta(e) then Run(KeyOf(e), DeltaText(e)) else Single(e)
  }

  function Pieces(events: seq<Event>): seq<Piece> {
    if events == [] then [] else Pieces(events[..|events| - 1]) + [PieceOf(events[|events| - 1])]
  }

  predicate Joins(done: seq<Piece>, p: Piece) {
    done != [] && p.Run? && done[|done| - 1].Run? && done[|done| - 1].key == p.key
  }

  function Glue(done: seq<Piece>, p: Piece): seq<Piece> {
    if Joins(done, p) then done[..|done| - 1] + [Run(p.key, done[|done| - 1].text + p.text)] else done + [p]
  }

  function GlueAll(done: seq<Piece>, pieces: seq<Piece>): seq<Piece> {
    if pieces == [] then done else Glue(GlueAll(done, pieces[..|pieces| - 1]), pieces[|pieces| - 1])
  }

  lemma GlueOneMore(done: seq<Piece>, pieces: seq<Piece>, p: Piece)
    ensures GlueAll(done, pieces + [p]) == Glue(GlueAll(done, pieces), p)
  {
    assert (pieces + [p])[..|pieces|] == pieces;
  }

  lemma {:induction false} GlueInParts(done: seq<Piece>, a: seq<Piece>, b: seq<Piece>)
    ensures GlueAll(done, a + b) == GlueAll(GlueAll(done, a), b)
  {
    if b == [] {
      assert a + b == a;
    } else {
      var front, last := b[..|b| - 1], b[|b| - 1];
      GlueInParts(done, a, front);
      assert a + b == a + front + [last];
      GlueOneMore(done, a + front, last);
    }
  }

  /** Gluing on pieces that were glued before is gluing on the pieces. */
  lemma {:induction false} GlueGlued(done: seq<Piece>, pieces: seq<Piece>)
    ensures GlueAll(done, GlueAll([], pieces)) == GlueAll(done, pieces)
  {
    if pieces != [] {
      var front, last := pieces[..|pieces| - 1], pieces[|pieces| - 1];
      var g := GlueAll([], front);
      GlueGlued(done, front);
      if Joins(g, last) {
        var h, l := g[..|g| - 1], g[|g| - 1];
        assert g == h + [l];
        GlueOneMore(done, h, l);
        GlueOneMore(done, h, Run(last.key, l.text + last.text));
        GlueTwice(GlueAll(done, h), l, last);
      } else {
        GlueOneMore(done, g, last);
      }
    }
  }

  lemma GlueTwice(done: seq<Piece>, p: Piece, q: Piece)
    requires p.Run? && q.Run? && p.key == q.key
    ensures Glue(Glue(done, p), q) == Glue(done, Run(q.key, p.text + q.text))
  {
    var once := Glue(done, p);
    assert once[|once| - 1].Run?;
    if Joins(done, p) {
      var t := done[|done| - 1].text;
      assert t + p.text + q.text == t + (p.text + q.text);
    }
  }

  lemma GlueOnEnd(done: seq<Piece>, g: seq<Piece>, p: Piece)
    requires g != []
    ensures Glue(done + g, p) == done + Glue(g, p)
  {
    var all := done + g;
    assert all[|all| - 1] == g[|g| - 1] && all[..|all| - 1] == done + g[..|g| - 1];
  }

  /** Pieces that do not join what is there are glued among themselves. */
  lemma {:induction false} GlueApart(done: seq<Piece>, pieces: seq<Piece>)
    requires pieces != [] && !Joins(done, pieces[0])
    ensures GlueAll(done, pieces) == done + GlueAll([], pieces) && GlueAll([], pieces) != []
  {
    var front, last := pieces[..|pieces| - 1], pieces[|pieces| - 1];
    if front == [] {
      assert GlueAll(done, front) == done && GlueAll([], front) == [];
    } else {
      GlueApart(done, front);
      GlueOnEnd(done, GlueAll([], front), last);
    }
  }

  lemma {:induction false} PiecesInParts(a: seq<Event>, b: seq<Event>)
    ensures Pieces(a + b) == Pieces(a) + Pieces(b)
  {
    if b == [] {
      assert a + b == a;
    } else {
      assert (a + b)[..|a + b| - 1] == a + b[..|b| - 1];
      PiecesInParts(a, b[..|b| - 1]);
    }
  }

  lemma OnePiece(e: Event)
    ensures Pieces([e]) == [PieceOf(e)] && GlueAll([], [PieceOf(e)]) == [PieceOf(e)]
  {
    assert [e][..0] == [] && Pieces([]) == [] && [PieceOf(e)][..0] == [] && GlueAll([], []) == [];
  }

  lemma {:induction false} UniformGlues(run: seq<Event>)
    requires run != [] && Uniform(run)
    ensures GlueAll([], Pieces(run)) == [Run(KeyOf(run[0]), Texts(run))]
  {
    var front, last := run[..|run| - 1], run[|run| - 1];
    if front == [] {
      assert run == [last] && Texts(front) == "" && Texts(run) == DeltaText(last);
      OnePiece(last);
    } else {
      UniformGlues(front);
      GlueOneMore([], Pieces(front), PieceOf(last));
      GlueToOne(KeyOf(last), Texts(front), DeltaText(last));
    }
  }

  lemma GlueToOne(key: Key, a: string, b: string)
    ensures Glue([Run(key, a)], Run(key, b)) == [Run(key, a + b)]
  {
    assert [Run(key, a)][..0] == [];
  }

  lemma {:induction false} FirstPiece(events: seq<Event>)
    requires events != []
    ensures Pieces(events) != [] && Pieces(events)[0] == PieceOf(events[0])
  {
    if |events| > 1 { FirstPiece(events[..|events| - 1]); }
  }

  lemma SplitFirst(events: seq<Event>) returns (head: seq<Event>, tail: seq<Event>, first: Event)
    requires events != []
    ensures events == head + tail && |tail| < |events| && Coalesced(events) == [first] + Coalesced(tail)
    ensures GlueAll([], Pieces(head)) == [PieceOf(first)]
    ensures tail != [] ==> !Mergeable(first, tail[0])
  {
    var n := if Delta(events[0]) then RunLength(events) else 1;
    head, tail := events[..n], events[n..];
    first := if Delta(events[0]) then MergedRun(head) else events[0];
    HeadGlues(head, first);
  }

  /** Coalescing glues the pieces: the keys and texts of the outputs are those of the runs. */
  lemma {:induction false} CoalescingGlues(events: seq<Event>)
    ensures Pieces(Coalesced(events)) == GlueAll([], Pieces(events))
    decreases |events|
  {
    if events != [] {
      var head, tail, first := SplitFirst(events);
      CoalescingGlues(tail);
      RunThenRest(head, tail, first);
    }
  }

  lemma RunThenRest(head: seq<Event>, tail: seq<Event>, first: Event)
    requires GlueAll([], Pieces(head)) == [PieceOf(first)]
    requires Pieces(Coalesced(tail)) == GlueAll([], Pieces(tail))
    requires tail != [] ==> !Mergeable(first, tail[0])
    ensures Pieces([first] + Coalesced(tail)) == GlueAll([], Pieces(head + tail))
  {
    OnePiece(first);
    PiecesInParts([first], Coalesced(tail));
    PiecesInParts(head, tail);
    GlueInParts([], Pieces(head), Pieces(tail));
    if tail != [] { FirstPiece(tail); }
    GlueRest([PieceOf(first)], Pieces(tail));
  }

  lemma GlueRest(done: seq<Piece>, pieces: seq<Piece>)
    requires pieces != [] ==> !Joins(done, pieces[0])
    ensures GlueAll(done, pieces) == done + GlueAll([], pieces)
  {
    if pieces == [] {
      assert done + [] == done;
    } else {
      GlueApart(done, pieces);
    }
  }

  lemma HeadGlues(head: seq<Event>, out: Event)
    requires head != []
    requires if Delta(head[0]) then Uniform(head) && out == MergedRun(head) else head == [out]
    ensures GlueAll([], Pieces(head)) == [PieceOf(out)]
    ensures Delta(out) == Delta(head[0]) && KeyOf(out) == KeyOf(head[0])
  {
    if Delta(head[0]) {
      UniformGlues(head);
      MergedReadsBack(head[0], Texts(head), head[|head| - 1].sequence);
    } else {
      OnePiece(out);
    }
  }

  /** Coalescing pages separately and then together gives the same keys and texts as coalescing
      all at once; `coalescedUntil`, recomputed from the pages, may differ. */
  lemma PagesCoalesceTogether(a: seq<Event>, b: seq<Event>)
    ensures Pieces(Coalesced(Coalesced(a) + Coalesced(b))) == Pieces(Coalesced(a + b))
  {
    CoalescingGlues(Coalesced(a) + Coalesced(b));
    CoalescingGlues(a);
    CoalescingGlues(b);
    CoalescingGlues(a + b);
    PiecesInParts(Coalesced(a), Coalesced(b));
    PiecesInParts(a, b);
    GlueInParts([], GlueAll([], Pieces(a)), GlueAll([], Pieces(b)));
    GlueGlued([], Pieces(a));
    GlueGlued(GlueAll([], Pieces(a)), Pieces(b));
    GlueInParts([], Pieces(a), Pieces(b));
  }

  ghost predicate Unmergeable(events: seq<Event>) {
    forall i | 0 <= i < |events| - 1 :: !Mergeable(events[i], events[i + 1])
  }

  /** Events of which no two adjacent ones merge are coalesced one by one, each ending where it
      begins. */
  lemma {:induction false} OneByOne(events: seq<Event>)
    requires Unmergeable(events)
    ensures |Coalesced(events)| == |events|
    ensures forall i | 0 <= i < |events| :: Until(Coalesced(events)[i]) == events[i].sequence
    decreases |events|
  {
    if events != [] {
      var n := FirstRun(events);
      assert n > 1 ==> Mergeable(events[0], events[1]);
      var rest := events[1..];
      forall i | 0 <= i < |rest| - 1 ensures !Mergeable(rest[i], rest[i + 1]) {
        assert !Mergeable(events[i + 1], events[i + 2]);
      }
      OneByOne(rest);
      forall i | 0 <= i < |events| ensures Until(Coalesced(events)[i]) == events[i].sequence {
        if i > 0 { assert Coalesced(events)[i] == Coalesced(rest)[i - 1]; }
      }
    }
  }

  /** What paging loses: coalescing again keeps where an output ends exactly when it ends where it
      begins. */
  lemma PagesForgetWhereRunsEnd(events: seq<Event>, i: nat)
    requires i < |Coalesced(events)|
    ensures var once, twice := Coalesced(events), Coalesced(Coalesced(events));
            && |twice| == |once|
            && (Until(twice[i]) == Until(once[i]) <==> Until(once[i]) == once[i].sequence)
  {
    NothingLeftToMerge(events);
    OneByOne(Coalesced(events));
  }

  /** So a run of two deltas loses its end when it is coalesced again. */
  lemma TwoDeltasLoseTheirEnd(e: Event, f: Event)
    requires Mergeable(e, f) && e.sequence != f.sequence
    ensures var once := Coalesced([e, f]);
            && |once| == 1 && Until(once[0]) == f.sequence
            && |Coalesced(once)| == 1 && Until(Coalesced(once)[0]) == e.sequence
  {
    var n := FirstRun([e, f]);
    assert n == 2;
    assert [e, f][2..] == [] && Coalesced([]) == [];
    PagesForgetWhereRunsEnd([e, f], 0);
    OneByOne(Coalesced([e, f]));
  }
}
