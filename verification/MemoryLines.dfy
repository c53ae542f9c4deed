/**
 The working-set block line by line: which records are in it, where, and what they cost.
 */
module MemoryLines {
  import opened Wrappers
  import opened Text
  import opened MemoryBlock

  // ---------------------------------------------------------------- lines

  /** `at` are the positions, in order, of the records of one kind that fit when their turn came. */
  ghost predicate Chosen(header: string, records: seq<Record>, kind: Kind, at: seq<nat>) {
    && (forall i, j | 0 <= i < j < |at| :: at[i] < at[j])
    && (forall p | p in at :: p < |records|)
    && (forall p | 0 <= p < |records| ::
          p in at <==> records[p].kind == kind && Fits(FillAll(header, records[..p]), records[p]))
  }

  /** The line of a record: the first eight characters of its id, and its text. */
  predicate IsLineOf(line: string, record: Record) {
    line == "- [" + record.id[..if |record.id| < 8 then |record.id| else 8] + "] " + record.text
  }

  /** A section of the records at `at`: nothing if there are none, else an empty line, the title and
      their lines in order. */
  ghost predicate Shows(section: seq<string>, title: string, records: seq<Record>, at: seq<nat>) {
    && (forall j | 0 <= j < |at| :: at[j] < |records|)
    && if at == [] then section == []
       else
         && |section| == 2 + |at| && section[0] == "" && section[1] == title
         && forall j | 0 <= j < |at| :: IsLineOf(section[2 + j], records[at[j]])
  }

  ghost predicate Picked(records: seq<Record>, at: seq<nat>, picked: seq<Record>) {
    && |at| == |picked|
    && forall j | 0 <= j < |at| :: at[j] < |records| && picked[j] == records[at[j]]
  }

  lemma {:induction false} ChosenOfKind(header: string, records: seq<Record>, kind: Kind) returns (at: seq<nat>)
    requires kind != Episodic
    ensures Chosen(header, records, kind, at) && Picked(records, at, OfKind(FillAll(header, records).selected, kind))
    decreases |records|
  {
    hide *;
    at := [];
    if records == [] {
      NoneChosen(header, kind);
    } else {
      var n := |records| - 1;
      at := ChosenOfKind(header, records[..n], kind);
      OneMoreChosen(header, records, n, kind, at);
      OneMorePicked(header, records, n, kind, at);
      if records[n].kind == kind && Fits(FillAll(header, records[..n]), records[n]) { at := at + [n]; }
    }
  }

  lemma NoneChosen(header: string, kind: Kind)
    ensures Chosen(header, [], kind, []) && Picked([], [], OfKind(FillAll(header, []).selected, kind))
  {
  }

  lemma OneMoreChosen(header: string, records: seq<Record>, n: nat, kind: Kind, at: seq<nat>)
    requires |records| == n + 1 && Chosen(header, records[..n], kind, at)
    ensures Chosen(header, records, kind,
                   if records[n].kind == kind && Fits(FillAll(header, records[..n]), records[n]) then at + [n] else at)
  {
    hide FillAll, Fits;
    var front := records[..n];
    var now := if records[n].kind == kind && Fits(FillAll(header, front), records[n]) then at + [n] else at;
    forall i, j | 0 <= i < j < |now| ensures now[i] < now[j] { assert now[i] in at; }
    forall p | 0 <= p < |records|
      ensures p in now <==> records[p].kind == kind && Fits(FillAll(header, records[..p]), records[p])
    {
      if p < n { assert front[..p] == records[..p] && front[p] == records[p]; }
    }
  }

  lemma OneMorePicked(header: string, records: seq<Record>, n: nat, kind: Kind, at: seq<nat>)
    requires |records| == n + 1 && kind != Episodic
    requires Picked(records[..n], at, OfKind(FillAll(header, records[..n]).selected, kind))
    ensures Picked(records, if records[n].kind == kind && Fits(FillAll(header, records[..n]), records[n]) then at + [n] else at,
                   OfKind(FillAll(header, records).selected, kind))
  {
    hide *;
    FillStep(header, records, n);
    TakenOrNot(FillAll(header, records[..n]), records[n], kind);
    PickOneMore(records, n, at, OfKind(FillAll(header, records[..n]).selected, kind),
                records[n].kind == kind && Fits(FillAll(header, records[..n]), records[n]));
  }

  lemma FillStep(header: string, records: seq<Record>, n: nat)
    requires |records| == n + 1
    ensures FillAll(header, records) == Take(FillAll(header, records[..n]), records[n])
  {
  }

  lemma PickOneMore(records: seq<Record>, n: nat, at: seq<nat>, picked: seq<Record>, taken: bool)
    requires |records| == n + 1 && Picked(records[..n], at, picked)
    ensures Picked(records, if taken then at + [n] else at, picked + if taken then [records[n]] else [])
  {
    forall j | 0 <= j < |at| ensures at[j] < |records| && picked[j] == records[at[j]] {
      assert records[..n][at[j]] == records[at[j]];
    }
  }

  lemma TakenOrNot(fill: Fill, record: Record, kind: Kind)
    requires kind != Episodic
    ensures OfKind(Take(fill, record).selected, kind)
            == OfKind(fill.selected, kind) + if record.kind == kind && Fits(fill, record) then [record] else []
  {
    hide Fits;
    assert (fill.selected + [record])[..|fill.selected|] == fill.selected;
  }

  lemma {:induction false} EntriesAre(records: seq<Record>)
    ensures |Entries(records)| == |records|
    ensures forall j | 0 <= j < |records| :: IsLineOf(Entries(records)[j], records[j])
  {
    if records != [] {
      var last := records[|records| - 1];
      EntriesAre(records[..|records| - 1]);
      assert IsLineOf(RenderEntry(last), last);
    }
  }

  lemma SectionShows(selected: seq<Record>, kind: Kind, records: seq<Record>, at: seq<nat>)
    requires Picked(records, at, OfKind(selected, kind))
    ensures Shows(Section(selected, kind), SectionTitle(kind), records, at)
  {
    EntriesAre(OfKind(selected, kind));
    hide SectionTitle, IsLineOf, OfKind, Entries;
  }

  /** The block is the join of its lines: the header, then for each kind in turn an empty line, the
      title and the chosen records of that kind in priority order, and nothing else. */
  lemma TheLinesOfTheBlock(header: string, records: seq<Record>)
    returns (preferences: seq<string>, facts: seq<string>, ways: seq<string>, decisions: seq<string>,
             p: seq<nat>, s: seq<nat>, m: seq<nat>, d: seq<nat>)
    ensures Block(header, records) == Join([header] + (preferences + facts + ways + decisions), "\n")
    ensures Chosen(header, records, Preference, p) && Shows(preferences, "### Preferences", records, p)
    ensures Chosen(header, records, Semantic, s) && Shows(facts, "### Facts & environment", records, s)
    ensures Chosen(header, records, Procedural, m) && Shows(ways, "### How we do things", records, m)
    ensures Chosen(header, records, Decision, d) && Shows(decisions, "### Decisions", records, d)
  {
    var all := FillAll(header, records).selected;
    FourSections(all);
    Titles();
    hide FillAll, Section, OfKind, Sections, SectionTitle, Shows, Chosen, Picked;
    p := ChosenOfKind(header, records, Preference);
    s := ChosenOfKind(header, records, Semantic);
    m := ChosenOfKind(header, records, Procedural);
    d := ChosenOfKind(header, records, Decision);
    SectionShows(all, Preference, records, p);
    SectionShows(all, Semantic, records, s);
    SectionShows(all, Procedural, records, m);
    SectionShows(all, Decision, records, d);
    preferences, facts := Section(all, Preference), Section(all, Semantic);
    ways, decisions := Section(all, Procedural), Section(all, Decision);
  }

  lemma Titles()
    ensures SectionTitle(Preference) == "### Preferences" && SectionTitle(Semantic) == "### Facts & environment"
    ensures SectionTitle(Procedural) == "### How we do things" && SectionTitle(Decision) == "### Decisions"
  {
  }

  // ---------------------------------------------------------------- costs

  /** A record fits exactly when the estimate so far, a quarter of its line and of a title its
      section does not have yet, each rounded up, and their newlines stay within 2500. */
  lemma FitsExactly(fill: Fill, record: Record)
    ensures var short := if |record.id| < 8 then |record.id| else 8;
            var line := 5 + short + |record.text|;
            var title := match record.kind
                         case Preference => 15
                         case Semantic => 23
                         case Procedural => 20
                         case Decision => 13
                         case Episodic => 17;
            Fits(fill, record) <==>
              fill.used + (line + 3) / 4 + 1 + (if record.kind in fill.seen then 0 else (title + 3) / 4 + 2) <= 2500
  {
  }
}
