/**
 The working-set block of packages/db/src/memory-domain.ts: a greedy fill under a token budget,
 regrouped into sections.  A char stands for one UTF-16 unit.
 */
module MemoryBlock {
  import opened Wrappers
  import opened Text

  datatype Kind = Preference | Semantic | Procedural | Decision | Episodic

  datatype Record = Record(id: string, kind: Kind, text: string)

  const BUDGET := 2500

  /** Section order of the block; episodic records are never in it. */
  const KIND_ORDER := [Preference, Semantic, Procedural, Decision]

  function SectionTitle(kind: Kind): string {
    "### " + match kind
    case Preference => "Preferences"
    case Semantic => "Facts & environment"
    case Procedural => "How we do things"
    case Decision => "Decisions"
    case Episodic => "History notes"
  }

  /** `Math.ceil(text.length / 4)`. */
  function Tokens(text: string): (n: nat)
    ensures 4 * n - 3 <= |text| <= 4 * n
  {
    (|text| + 3) / 4
  }

  function RenderEntry(record: Record): string {
    "- [" + record.id[..if |record.id| < 8 then |record.id| else 8] + "] " + record.text
  }

  // ---------------------------------------------------------------- the greedy fill

  /** The loop's state: the running estimate, the sections begun, the records taken. */
  datatype Fill = Fill(used: nat, seen: set<Kind>, selected: seq<Record>)

  function EntryCost(record: Record): nat {
    Tokens(RenderEntry(record)) + 1
  }

  function TitleCost(kind: Kind): nat {
    Tokens(SectionTitle(kind)) + 2
  }

  function Cost(seen: set<Kind>, record: Record): nat {
    EntryCost(record) + if record.kind in seen then 0 else TitleCost(record.kind)
  }

  predicate Fits(fill: Fill, record: Record) {
    fill.used + Cost(fill.seen, record) <= BUDGET
  }

  function Take(fill: Fill, record: Record): Fill {
    if record.kind.Episodic? || !Fits(fill, record) then fill
    else Fill(fill.used + Cost(fill.seen, record), fill.seen + {record.kind}, fill.selected + [record])
  }

  function FillAll(header: string, records: seq<Record>): Fill {
    if records == [] then Fill(Tokens(header), {}, [])
    else Take(FillAll(header, records[..|records| - 1]), records[|records| - 1])
  }

  function OfKind(records: seq<Record>, kind: Kind): (r: seq<Record>)
    ensures forall x | x in r :: x in records && x.kind == kind
  {
    if records == [] then []
    else
      var front, last := OfKind(records[..|records| - 1], kind), records[|records| - 1];
      if last.kind == kind then front + [last] else front
  }

  function Entries(records: seq<Record>): seq<string> {
    if records == [] then [] else Entries(records[..|records| - 1]) + [RenderEntry(records[|records| - 1])]
  }

  function Section(selected: seq<Record>, kind: Kind): seq<string> {
    if OfKind(selected, kind) == [] then [] else ["", SectionTitle(kind)] + Entries(OfKind(selected, kind))
  }

  function Sections(selected: seq<Record>, kinds: seq<Kind>): seq<string> {
    if kinds == [] then [] else Sections(selected, kinds[..|kinds| - 1]) + Section(selected, kinds[|kinds| - 1])
  }

  function Block(header: string, records: seq<Record>): string {
    Join([header] + Sections(FillAll(header, records).selected, KIND_ORDER), "\n")
  }

  /** The greedy fill of renderWorkspaceMemoryBlock. */
  method GreedyFill(header: string, records: seq<Record>) returns (selected: seq<Record>)
    ensures selected == FillAll(header, records).selected
  {
    var used: nat := Tokens(header);
    var seen: set<Kind> := {};
    selected := [];
    for i := 0 to |records|
      invariant Fill(used, seen, selected) == FillAll(header, records[..i])
    {
      assert records[..i + 1][..i] == records[..i];
      var record := records[i];
      if record.kind != Episodic {
        var cost := Tokens(RenderEntry(record)) + 1;
        if record.kind !in seen { cost := cost + Tokens(SectionTitle(record.kind)) + 2; }
        if used + cost <= BUDGET {
          used, seen, selected := used + cost, seen + {record.kind}, selected + [record];
        }
      }
    }
    assert records[..|records|] == records;
  }

  method RenderSection(lines: seq<string>, selected: seq<Record>, kind: Kind) returns (lines': seq<string>)
    ensures lines' == lines + Section(selected, kind)
  {
    var inSection := OfKind(selected, kind);
    if inSection == [] { return lines; }
    lines' := lines + ["", SectionTitle(kind)];
    for j := 0 to |inSection|
      invariant lines' == lines + (["", SectionTitle(kind)] + Entries(inSection[..j]))
    {
      assert inSection[..j + 1][..j] == inSection[..j];
      lines' := lines' + [RenderEntry(inSection[j])];
    }
    assert inSection[..|inSection|] == inSection;
  }

  lemma OneMoreSection(top: seq<string>, selected: seq<Record>, kinds: seq<Kind>, k: nat)
    requires k < |kinds|
    ensures top + Sections(selected, kinds[..k]) + Section(selected, kinds[k]) == top + Sections(selected, kinds[..k + 1])
  {
    assert kinds[..k + 1][..k] == kinds[..k];
    Associate(top, Sections(selected, kinds[..k]), Section(selected, kinds[k]));
  }

  lemma Associate(a: seq<string>, b: seq<string>, c: seq<string>)
    ensures a + b + c == a + (b + c)
  {
  }

  method RenderSections(top: seq<string>, selected: seq<Record>, kinds: seq<Kind>) returns (lines: seq<string>)
    ensures lines == top + Sections(selected, kinds)
  {
    lines := top;
    for k := 0 to |kinds|
      invariant lines == top + Sections(selected, kinds[..k])
    {
      OneMoreSection(top, selected, kinds, k);
      lines := RenderSection(lines, selected, kinds[k]);
    }
    assert kinds[..|kinds|] == kinds;
  }

  method AnyRenderable(records: seq<Record>) returns (any: bool)
    ensures !any <==> forall r | r in records :: r.kind.Episodic?
  {
    for i := 0 to |records|
      invariant forall j | 0 <= j < i :: records[j].kind.Episodic?
    {
      if records[i].kind != Episodic { return true; }
    }
    return false;
  }

  /** renderWorkspaceMemoryBlock, for any header within the budget: nothing exactly when no
      record is renderable, and never a block that is itself over the budget. */
  method RenderWorkspaceMemoryBlock(header: string, records: seq<Record>) returns (block: Option<string>)
    requires Tokens(header) <= BUDGET
    ensures block.None? <==> forall r | r in records :: r.kind.Episodic?
    ensures block.Some? ==> block.value == Block(header, records) && Tokens(block.value) <= BUDGET
  {
    var any := AnyRenderable(records);
    if !any { return None; }
    var selected := GreedyFill(header, records);
    var lines := RenderSections([header], selected, KIND_ORDER);
    BlockFits(header, records);
    block := Some(Join(lines, "\n"));
  }

  // ---------------------------------------------------------------- the budget

  function Width(lines: seq<string>): nat {
    if lines == [] then 0 else Width(lines[..|lines| - 1]) + |lines[|lines| - 1]| + 1
  }

  lemma {:induction false} WidthAdds(a: seq<string>, b: seq<string>)
    ensures Width(a + b) == Width(a) + Width(b)
  {
    if b == [] {
      assert a + b == a;
    } else {
      assert (a + b)[..|a + b| - 1] == a + b[..|b| - 1];
      WidthAdds(a, b[..|b| - 1]);
    }
  }

  lemma {:induction false} JoinWidth(lines: seq<string>)
    requires lines != []
    ensures |Join(lines, "\n")| + 1 == Width(lines)
  {
    if |lines| == 1 {
      assert lines[..0] == [];
    } else {
      JoinWidth(lines[1..]);
      assert lines == [lines[0]] + lines[1..];
      WidthAdds([lines[0]], lines[1..]);
      assert [lines[0]][..0] == [];
    }
  }

  function EntryTotal(records: seq<Record>): nat {
    if records == [] then 0 else EntryTotal(records[..|records| - 1]) + EntryCost(records[|records| - 1])
  }

  lemma {:induction false} EntriesWidth(records: seq<Record>)
    ensures Width(Entries(records)) <= 4 * EntryTotal(records)
  {
    if records != [] {
      EntriesWidth(records[..|records| - 1]);
      var front := Entries(records[..|records| - 1]);
      assert Entries(records)[..|front|] == front;
    }
  }

  function TitleIf(seen: set<Kind>, kind: Kind): nat {
    if kind in seen then TitleCost(kind) else 0
  }

  function TitleTotal(seen: set<Kind>): nat {
    TitleIf(seen, Preference) + TitleIf(seen, Semantic) + TitleIf(seen, Procedural) + TitleIf(seen, Decision)
  }

  ghost predicate Seen(selected: seq<Record>, seen: set<Kind>) {
    Episodic !in seen && forall k :: k in seen <==> OfKind(selected, k) != []
  }

  ghost predicate Accounted(header: string, f: Fill) {
    && f.used == Tokens(header) + EntryTotal(f.selected) + TitleTotal(f.seen)
    && Seen(f.selected, f.seen)
    && (f.used <= BUDGET || f.used == Tokens(header))
  }

  /** The running estimate is the sum of its parts. */
  lemma {:induction false} Account(header: string, records: seq<Record>)
    ensures Accounted(header, FillAll(header, records))
  {
    if records != [] {
      Account(header, records[..|records| - 1]);
      TakeAccount(header, FillAll(header, records[..|records| - 1]), records[|records| - 1]);
    }
  }

  lemma TakeAccount(header: string, f: Fill, record: Record)
    requires Accounted(header, f)
    ensures Accounted(header, Take(f, record))
  {
    var g := Take(f, record);
    if g != f {
      OneMore(f.selected, record);
      TitleOnce(f.seen, record.kind);
      SeenKept(f.selected, f.seen, record);
    }
  }

  lemma SeenKept(selected: seq<Record>, seen: set<Kind>, record: Record)
    requires Seen(selected, seen) && !record.kind.Episodic?
    ensures Seen(selected + [record], seen + {record.kind})
  {
    assert (selected + [record])[..|selected|] == selected;
  }

  lemma TitleOnce(seen: set<Kind>, kind: Kind)
    requires kind != Episodic
    ensures TitleTotal(seen + {kind}) == TitleTotal(seen) + if kind in seen then 0 else TitleCost(kind)
  {
  }

  lemma {:induction false} EntriesByKind(selected: seq<Record>)
    requires OfKind(selected, Episodic) == []
    ensures EntryTotal(selected)
            == EntryTotal(OfKind(selected, Preference)) + EntryTotal(OfKind(selected, Semantic))
               + EntryTotal(OfKind(selected, Procedural)) + EntryTotal(OfKind(selected, Decision))
  {
    if selected != [] {
      var front, last := selected[..|selected| - 1], selected[|selected| - 1];
      assert selected == front + [last] && !last.kind.Episodic?;
      EntriesByKind(front);
      OneMore(front, last);
      OneMoreOfKind(front, last, Preference);
      OneMoreOfKind(front, last, Semantic);
      OneMoreOfKind(front, last, Procedural);
      OneMoreOfKind(front, last, Decision);
    }
  }

  lemma OneMoreOfKind(records: seq<Record>, record: Record, kind: Kind)
    ensures EntryTotal(OfKind(records + [record], kind))
            == EntryTotal(OfKind(records, kind)) + if record.kind == kind then EntryCost(record) else 0
  {
    assert (records + [record])[..|records|] == records;
    OneMore(OfKind(records, kind), record);
  }

  lemma OneMore(records: seq<Record>, record: Record)
    ensures EntryTotal(records + [record]) == EntryTotal(records) + EntryCost(record)
  {
    assert (records + [record])[..|records|] == records;
  }

  lemma SectionWidth(selected: seq<Record>, seen: set<Kind>, kind: Kind)
    requires Seen(selected, seen)
    ensures Width(Section(selected, kind)) <= 4 * (TitleIf(seen, kind) + EntryTotal(OfKind(selected, kind)))
  {
    var mine := OfKind(selected, kind);
    if mine != [] {
      var top := ["", SectionTitle(kind)];
      WidthAdds(top, Entries(mine));
      WidthAdds([""], [SectionTitle(kind)]);
      assert [""] + [SectionTitle(kind)] == top && [""][..0] == [] && [SectionTitle(kind)][..0] == [];
      EntriesWidth(mine);
    }
  }

  lemma FourSections(selected: seq<Record>)
    ensures Sections(selected, KIND_ORDER)
            == Section(selected, Preference) + Section(selected, Semantic)
               + Section(selected, Procedural) + Section(selected, Decision)
  {
    var three, two, one := [Preference, Semantic, Procedural], [Preference, Semantic], [Preference];
    assert KIND_ORDER[..3] == three && three[..2] == two && two[..1] == one && one[..0] == [];
    assert Sections(selected, one) == Section(selected, Preference);
    assert Sections(selected, two) == Sections(selected, one) + Section(selected, Semantic);
    assert Sections(selected, three) == Sections(selected, two) + Section(selected, Procedural);
  }

  /** Regrouped by section, the selected lines never take more than was budgeted piecewise. */
  lemma BlockFits(header: string, records: seq<Record>)
    ensures Tokens(Block(header, records)) <= FillAll(header, records).used
    ensures Tokens(header) <= BUDGET ==> FillAll(header, records).used <= BUDGET
  {
    var f := FillAll(header, records);
    var s := f.selected;
    var p, m, r, d := Section(s, Preference), Section(s, Semantic), Section(s, Procedural), Section(s, Decision);
    Account(header, records);
    EntriesByKind(s);
    FourSections(s);
    SectionWidth(s, f.seen, Preference);
    SectionWidth(s, f.seen, Semantic);
    SectionWidth(s, f.seen, Procedural);
    SectionWidth(s, f.seen, Decision);
    WidthAdds(p, m);
    WidthAdds(p + m, r);
    WidthAdds(p + m + r, d);
    WidthAdds([header], Sections(s, KIND_ORDER));
    assert [header][..0] == [];
    JoinWidth([header] + Sections(s, KIND_ORDER));
  }

  // ---------------------------------------------------------------- the greedy choice

  lemma StillTooBig(fill: Fill, record: Record, next: Record)
    requires !Fits(fill, record)
    ensures !Fits(Take(fill, next), record)
  {
  }

  /** The fill is maximal: a record that was skipped does not fit when the loop ends, even if a
      later record introduced its section and its title has no longer to be paid for. */
  lemma {:induction false} SkippedRecordsDoNotFit(header: string, records: seq<Record>, i: nat)
    requires i < |records| && !Fits(FillAll(header, records[..i]), records[i])
    ensures !Fits(FillAll(header, records), records[i])
    decreases |records|
  {
    var front, last := records[..|records| - 1], records[|records| - 1];
    if i < |front| {
      assert front[..i] == records[..i];
      SkippedRecordsDoNotFit(header, front, i);
    }
    StillTooBig(FillAll(header, front), records[i], last);
  }

  // ---------------------------------------------------------------- what is rendered

  /** `at` lists positions of `all`, in order. */
  ghost predicate Picks(all: seq<Record>, at: seq<nat>, selected: seq<Record>) {
    && |at| == |selected|
    && (forall i | 0 <= i < |at| :: at[i] < |all| && selected[i] == all[at[i]])
    && (forall i, j | 0 <= i < j < |at| :: at[i] < at[j])
  }

  /** The selected records are taken in priority order: at strictly increasing positions, those
      of the records that were not episodic and fit when their turn came. */
  lemma {:induction false} SelectedInOrder(header: string, records: seq<Record>) returns (at: seq<nat>)
    ensures Picks(records, at, FillAll(header, records).selected)
    ensures forall i | 0 <= i < |records| ::
              i in at <==> !records[i].kind.Episodic? && Fits(FillAll(header, records[..i]), records[i])
    decreases |records|
  {
    at := [];
    if records != [] {
      var front, n := records[..|records| - 1], |records| - 1;
      at := SelectedInOrder(header, front);
      forall i | 0 <= i < n ensures front[..i] == records[..i] {}
      if !records[n].kind.Episodic? && Fits(FillAll(header, front), records[n]) { at := at + [n]; }
    }
  }

  /** Regrouping puts every selected record into exactly one section, once. */
  lemma {:induction false} RenderedOnceEach(header: string, records: seq<Record>)
    ensures var s := FillAll(header, records).selected;
            multiset(OfKind(s, Preference) + OfKind(s, Semantic) + OfKind(s, Procedural) + OfKind(s, Decision))
            == multiset(s)
  {
    Account(header, records);
    RegroupedOnceEach(FillAll(header, records).selected);
  }

  lemma {:induction false} RegroupedOnceEach(s: seq<Record>)
    requires OfKind(s, Episodic) == []
    ensures multiset(OfKind(s, Preference) + OfKind(s, Semantic) + OfKind(s, Procedural) + OfKind(s, Decision))
            == multiset(s)
  {
    if s != [] {
      var front, last := s[..|s| - 1], s[|s| - 1];
      assert s == front + [last];
      RegroupedOnceEach(front);
    }
  }

  /** Within a section, priority order is kept: it is the section of the first records, then the
      section of the rest. */
  lemma {:induction false} SectionKeepsOrder(a: seq<Record>, b: seq<Record>, kind: Kind)
    ensures OfKind(a + b, kind) == OfKind(a, kind) + OfKind(b, kind)
  {
    if b == [] {
      assert a + b == a;
    } else {
      assert (a + b)[..|a + b| - 1] == a + b[..|b| - 1];
      SectionKeepsOrder(a, b[..|b| - 1], kind);
    }
  }
}
