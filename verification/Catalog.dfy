/**
 Normalising a snapshot of the integrations catalog, scripts/import-integrations-catalog.ts.

 String fields are as the source's readers leave them: trimmed and non-empty, or none.  A char
 stands for one UTF-16 unit.
 */
module Catalog {
  import opened Wrappers
  import opened Text

  datatype AuthKind = OAuth2 | ApiKey | NoAuth | Unknown

  datatype Candidate = Candidate(
    domain: Option<string>, mcpUrl: Option<string>, streamable: bool, provenance: Option<string>,
    name: Option<string>, authKind: AuthKind, scopes: seq<string>, facts: seq<string>, logo: Option<string>)

  datatype Row = Row(
    domain: string, name: string, mcpUrl: string, authKind: AuthKind, scopes: seq<string>, facts: seq<string>,
    verified: bool, provenance: string, logo: string)

  datatype Skip = Skip(domain: Option<string>, mcpUrl: Option<string>, reason: string)

  /** Lower-casing, the name normalisation, the URL check (none when importable), the lists of
      dead domains and suspicious surfaces, and the final sort. */
  datatype Rules = Rules(
    lower: string -> string, dedupe: string -> string, refuses: string -> Option<string>,
    dead: set<string>, suspicious: map<string, string>, sort: seq<Row> -> seq<Row>)

  ghost predicate RulesOk(rules: Rules) {
    forall rows: seq<Row> :: multiset(rules.sort(rows)) == multiset(rows)
  }

  // ---------------------------------------------------------------- one candidate

  function SurfaceKey(domain: string, mcpUrl: string): string {
    domain + "\n" + mcpUrl
  }

  function RowOf(domain: string, mcpUrl: string, c: Candidate): Row {
    var provenance := if c.provenance.Some? then c.provenance.value else "unknown";
    Row(domain, if c.name.Some? then c.name.value else domain, mcpUrl, c.authKind, c.scopes, c.facts,
        provenance == "detected", provenance,
        if c.logo.Some? then c.logo.value else "https://integrations.sh/logo/" + domain)
  }

  /** What is decided about a candidate before it is compared with any other. */
  datatype Verdict = Refused(skip: Skip) | Importable(row: Row)

  function Judge(rules: Rules, c: Candidate): Verdict {
    if c.domain.None? then Refused(Skip(None, c.mcpUrl, "missing_domain"))
    else
      var domain := rules.lower(c.domain.value);
      if domain in rules.dead then Refused(Skip(Some(domain), c.mcpUrl, "dead_demo_domain"))
      else if c.mcpUrl.None? then Refused(Skip(Some(domain), None, "missing_url"))
      else if rules.refuses(c.mcpUrl.value).Some? then
        Refused(Skip(Some(domain), c.mcpUrl, rules.refuses(c.mcpUrl.value).value))
      else if !c.streamable then Refused(Skip(Some(domain), c.mcpUrl, "transport_not_streamable_http"))
      else Importable(RowOf(domain, c.mcpUrl.value, c))
  }

  function KeyOf(row: Row): string {
    SurfaceKey(row.domain, row.mcpUrl)
  }

  function GroupKey(rules: Rules, row: Row): string {
    row.domain + "\n" + rules.dedupe(row.name)
  }

  // ---------------------------------------------------------------- the better row

  function QualityScore(row: Row): int {
    (if row.logo != "" then 4 else 0)
    + (if row.provenance == "detected" then 2 else if row.provenance != "discovered" then 1 else 0)
    + (if row.authKind != Unknown then 1 else 0)
    + (if |row.scopes| > 0 then 1 else 0)
    + (if |row.facts| > 0 then 1 else 0)
  }

  function StableRowSortKey(row: Row): string {
    Join([row.domain, row.name, row.provenance, row.logo, row.mcpUrl], "\n")
  }

  /** `a < b` on strings. */
  predicate Less(a: string, b: string) {
    b != "" && (a == "" || a[0] < b[0] || (a[0] == b[0] && Less(a[1..], b[1..])))
  }

  function BestCatalogRow(left: Row, right: Row): Row {
    if QualityScore(right) != QualityScore(left) then
      if QualityScore(right) > QualityScore(left) then right else left
    else if Less(StableRowSortKey(right), StableRowSortKey(left)) then right else left
  }

  // ---------------------------------------------------------------- the fold

  datatype Normalized = Normalized(
    seen: set<string>, groups: map<string, Row>, order: seq<string>,
    skipped: seq<Skip>, quarantined: seq<(Row, string)>, duplicates: nat)

  const EMPTY := Normalized({}, map[], [], [], [], 0)

  function SkipRow(row: Row, reason: string): Skip {
    Skip(Some(row.domain), Some(row.mcpUrl), reason)
  }

  function AddRow(rules: Rules, n: Normalized, row: Row): Normalized {
    var key := GroupKey(rules, row);
    if key !in n.groups then n.(groups := n.groups[key := row], order := n.order + [key])
    else
      var winner := BestCatalogRow(n.groups[key], row);
      var loser := if winner == n.groups[key] then row else n.groups[key];
      n.(groups := n.groups[key := winner], duplicates := n.duplicates + 1,
         skipped := n.skipped + [SkipRow(loser, "duplicate_domain_name")])
  }

  function Add(rules: Rules, n: Normalized, c: Candidate): Normalized {
    match Judge(rules, c)
    case Refused(skip) => n.(skipped := n.skipped + [skip])
    case Importable(row) =>
      var key := KeyOf(row);
      if key in n.seen then n.(skipped := n.skipped + [SkipRow(row, "duplicate_surface")])
      else
        var n' := n.(seen := n.seen + {key});
        if key in rules.suspicious then n'.(quarantined := n.quarantined + [(row, rules.suspicious[key])])
        else AddRow(rules, n', row)
  }

  function AddAll(rules: Rules, candidates: seq<Candidate>): Normalized {
    if candidates == [] then EMPTY
    else Add(rules, AddAll(rules, candidates[..|candidates| - 1]), candidates[|candidates| - 1])
  }

  /** The winners, in the order their groups were first met. */
  function Winners(groups: map<string, Row>, order: seq<string>): seq<Row>
    requires forall k | k in order :: k in groups
  {
    if order == [] then [] else Winners(groups, order[..|order| - 1]) + [groups[order[|order| - 1]]]
  }

  // ---------------------------------------------------------------- the loop

  datatype Snapshot = Snapshot(rows: seq<Row>, skipped: seq<Skip>, quarantined: seq<(Row, string)>, duplicates: nat)

  /** normalizeCatalogSnapshot: every input row is kept, skipped or quarantined. */
  method NormalizeCatalogSnapshot(rules: Rules, candidates: seq<Candidate>) returns (snapshot: Snapshot)
    requires RulesOk(rules)
    ensures var n := AddAll(rules, candidates);
            && GroupsListed(n) && multiset(snapshot.rows) == multiset(Winners(n.groups, n.order))
            && snapshot.skipped == n.skipped && snapshot.quarantined == n.quarantined
            && snapshot.duplicates == n.duplicates
    ensures |candidates| == |snapshot.rows| + |snapshot.skipped| + |snapshot.quarantined|
  {
    var seen: set<string>, groups: map<string, Row>, order: seq<string> := {}, map[], [];
    var skipped: seq<Skip>, quarantined: seq<(Row, string)>, duplicates: nat := [], [], 0;
    for i := 0 to |candidates|
      invariant Normalized(seen, groups, order, skipped, quarantined, duplicates) == AddAll(rules, candidates[..i])
    {
      assert candidates[..i + 1][..i] == candidates[..i];
      ghost var before := Normalized(seen, groups, order, skipped, quarantined, duplicates);
      var verdict := JudgeCandidate(rules, candidates[i]);
      if verdict.Refused? {
        skipped := skipped + [verdict.skip];
        continue;
      }
      var row := verdict.row;
      var key := row.domain + "\n" + row.mcpUrl;
      if key in seen {
        skipped := skipped + [SkipRow(row, "duplicate_surface")];
        continue;
      }
      seen := seen + {key};
      if key in rules.suspicious {
        quarantined := quarantined + [(row, rules.suspicious[key])];
        continue;
      }
      var group := row.domain + "\n" + rules.dedupe(row.name);
      if group !in groups {
        groups, order := groups[group := row], order + [group];
        continue;
      }
      duplicates := duplicates + 1;
      var existing := groups[group];
      var winner := BestCatalogRow(existing, row);
      var loser := if winner == existing then row else existing;
      groups := groups[group := winner];
      skipped := skipped + [SkipRow(loser, "duplicate_domain_name")];
    }
    assert candidates[..|candidates|] == candidates;
    Conservation(rules, candidates);
    var rows := Winners(groups, order);
    snapshot := Snapshot(rules.sort(rows), skipped, quarantined, duplicates);
    assert |multiset(rules.sort(rows))| == |multiset(rows)|;
  }

  /** The checks on one candidate. */
  method JudgeCandidate(rules: Rules, c: Candidate) returns (verdict: Verdict)
    ensures verdict == Judge(rules, c)
  {
    if c.domain.None? { return Refused(Skip(None, c.mcpUrl, "missing_domain")); }
    var domain := rules.lower(c.domain.value);
    if domain in rules.dead { return Refused(Skip(Some(domain), c.mcpUrl, "dead_demo_domain")); }
    if c.mcpUrl.None? { return Refused(Skip(Some(domain), None, "missing_url")); }
    var refusal := rules.refuses(c.mcpUrl.value);
    if refusal.Some? { return Refused(Skip(Some(domain), c.mcpUrl, refusal.value)); }
    if !c.streamable { return Refused(Skip(Some(domain), c.mcpUrl, "transport_not_streamable_http")); }
    return Importable(RowOf(domain, c.mcpUrl.value, c));
  }

  // ---------------------------------------------------------------- conservation

  ghost predicate GroupsListed(n: Normalized) {
    && (forall k :: k in n.order <==> k in n.groups)
    && (forall i, j | 0 <= i < j < |n.order| :: n.order[i] != n.order[j])
  }

  /** The surface an input or output row is about: its domain, if any, and its URL, if any. */
  type Surface = (Option<string>, Option<string>)

  function CandidateSurface(rules: Rules, c: Candidate): Surface {
    (if c.domain.Some? then Some(rules.lower(c.domain.value)) else None, c.mcpUrl)
  }

  function RowSurface(row: Row): Surface {
    (Some(row.domain), Some(row.mcpUrl))
  }

  function SkipSurface(skip: Skip): Surface {
    (skip.domain, skip.mcpUrl)
  }

  function QuarantineSurface(q: (Row, string)): Surface {
    RowSurface(q.0)
  }

  function Surfaces<T>(surfaceOf: T -> Surface, items: seq<T>): (r: multiset<Surface>)
    ensures |r| == |items|
  {
    if items == [] then multiset{}
    else Surfaces(surfaceOf, items[..|items| - 1]) + multiset{surfaceOf(items[|items| - 1])}
  }

  lemma OneMore<T>(surfaceOf: T -> Surface, items: seq<T>, item: T)
    ensures Surfaces(surfaceOf, items + [item]) == Surfaces(surfaceOf, items) + multiset{surfaceOf(item)}
  {
    assert (items + [item])[..|items|] == items;
  }

  function Kept(n: Normalized): multiset<Surface>
    requires GroupsListed(n)
  {
    Surfaces(RowSurface, Winners(n.groups, n.order))
  }

  /** The surfaces of all that was kept, skipped or quarantined. */
  function Accounted(n: Normalized): multiset<Surface>
    requires GroupsListed(n)
  {
    Kept(n) + Surfaces(SkipSurface, n.skipped) + Surfaces(QuarantineSurface, n.quarantined)
  }

  lemma {:induction false} WinnersUnaffected(groups: map<string, Row>, order: seq<string>, key: string, row: Row)
    requires key !in order && forall k | k in order :: k in groups
    ensures Winners(groups[key := row], order) == Winners(groups, order)
  {
    if order != [] {
      assert order == order[..|order| - 1] + [order[|order| - 1]];
      WinnersUnaffected(groups, order[..|order| - 1], key, row);
    }
  }

  lemma WinnersOneMore(groups: map<string, Row>, front: seq<string>, last: string)
    requires last in groups && forall k | k in front :: k in groups
    ensures Winners(groups, front + [last]) == Winners(groups, front) + [groups[last]]
    ensures Surfaces(RowSurface, Winners(groups, front + [last]))
            == Surfaces(RowSurface, Winners(groups, front)) + multiset{RowSurface(groups[last])}
  {
    assert (front + [last])[..|front|] == front;
    OneMore(RowSurface, Winners(groups, front), groups[last]);
  }

  /** A new winner takes the place of the old one, whose surface goes. */
  lemma {:induction false} WinnerReplaced(groups: map<string, Row>, order: seq<string>, key: string, row: Row)
    requires key in order && forall k | k in order :: k in groups
    requires forall i, j | 0 <= i < j < |order| :: order[i] != order[j]
    ensures Surfaces(RowSurface, Winners(groups[key := row], order)) + multiset{RowSurface(groups[key])}
            == Surfaces(RowSurface, Winners(groups, order)) + multiset{RowSurface(row)}
  {
    var front, last := order[..|order| - 1], order[|order| - 1];
    assert order == front + [last];
    WinnersOneMore(groups, front, last);
    WinnersOneMore(groups[key := row], front, last);
    if last == key {
      WinnersUnaffected(groups, front, key, row);
      SwapLast(Surfaces(RowSurface, Winners(groups, front)), RowSurface(row), RowSurface(groups[key]));
    } else {
      assert key in front;
      WinnerReplaced(groups, front, key, row);
      Beside(Surfaces(RowSurface, Winners(groups, front)), Surfaces(RowSurface, Winners(groups[key := row], front)),
             RowSurface(groups[key]), RowSurface(row), RowSurface(groups[last]));
    }
  }

  lemma SwapLast(k: multiset<Surface>, a: Surface, b: Surface)
    ensures k + multiset{a} + multiset{b} == k + multiset{b} + multiset{a}
  {
  }

  lemma Beside(k: multiset<Surface>, k': multiset<Surface>, a: Surface, b: Surface, x: Surface)
    requires k' + multiset{a} == k + multiset{b}
    ensures k' + multiset{x} + multiset{a} == k + multiset{x} + multiset{b}
  {
    SwapLast(k', x, a);
    SwapLast(k, x, b);
  }

  lemma Aside(k: multiset<Surface>, k': multiset<Surface>, a: multiset<Surface>, b: multiset<Surface>,
              s: multiset<Surface>, q: multiset<Surface>)
    requires k' + a == k + b
    ensures k' + s + q + a == k + s + q + b
  {
    assert k' + s + q + a == (k' + a) + s + q;
    assert k + s + q + b == (k + b) + s + q;
  }

  lemma Exchange(x: multiset<Surface>, x': multiset<Surface>, existing: Surface, row: Surface, winner: Surface, loser: Surface)
    requires x' + multiset{existing} == x + multiset{winner}
    requires (winner == existing && loser == row) || (winner == row && loser == existing)
    ensures x' + multiset{loser} == x + multiset{row}
  {
    if winner == existing {
      forall e ensures x'[e] == x[e] { assert (x' + multiset{existing})[e] == (x + multiset{winner})[e]; }
      assert x' == x;
    }
  }

  lemma NewGroup(n: Normalized, key: string, row: Row)
    requires GroupsListed(n) && key !in n.groups
    ensures var n' := n.(groups := n.groups[key := row], order := n.order + [key]);
            GroupsListed(n') && Accounted(n') == Accounted(n) + multiset{RowSurface(row)}
  {
    var n' := n.(groups := n.groups[key := row], order := n.order + [key]);
    WinnersUnaffected(n.groups, n.order, key, row);
    WinnersOneMore(n.groups[key := row], n.order, key);
    Aside(Kept(n), Kept(n'), multiset{}, multiset{RowSurface(row)},
          Surfaces(SkipSurface, n.skipped), Surfaces(QuarantineSurface, n.quarantined));
    assert Accounted(n') + multiset{} == Accounted(n');
  }

  lemma Skipping(n: Normalized, skip: Skip)
    requires GroupsListed(n)
    ensures Accounted(n.(skipped := n.skipped + [skip])) == Accounted(n) + multiset{SkipSurface(skip)}
  {
    OneMore(SkipSurface, n.skipped, skip);
  }

  lemma Quarantining(n: Normalized, q: (Row, string))
    requires GroupsListed(n)
    ensures Accounted(n.(quarantined := n.quarantined + [q])) == Accounted(n) + multiset{RowSurface(q.0)}
  {
    OneMore(QuarantineSurface, n.quarantined, q);
  }

  lemma Replacing(n: Normalized, key: string, winner: Row)
    requires GroupsListed(n) && key in n.groups
    ensures var n' := n.(groups := n.groups[key := winner]);
            && GroupsListed(n')
            && Accounted(n') + multiset{RowSurface(n.groups[key])} == Accounted(n) + multiset{RowSurface(winner)}
  {
    var n' := n.(groups := n.groups[key := winner]);
    WinnerReplaced(n.groups, n.order, key, winner);
    Aside(Kept(n), Kept(n'), multiset{RowSurface(n.groups[key])}, multiset{RowSurface(winner)},
          Surfaces(SkipSurface, n.skipped), Surfaces(QuarantineSurface, n.quarantined));
  }

  lemma AddRowAccounts(rules: Rules, n: Normalized, row: Row)
    requires GroupsListed(n)
    ensures GroupsListed(AddRow(rules, n, row))
    ensures Accounted(AddRow(rules, n, row)) == Accounted(n) + multiset{RowSurface(row)}
  {
    var key := GroupKey(rules, row);
    if key !in n.groups {
      NewGroup(n, key, row);
    } else {
      var winner := BestCatalogRow(n.groups[key], row);
      var loser := if winner == n.groups[key] then row else n.groups[key];
      var n' := n.(groups := n.groups[key := winner]);
      Replacing(n, key, winner);
      Skipping(n', SkipRow(loser, "duplicate_domain_name"));
      Exchange(Accounted(n), Accounted(n'), RowSurface(n.groups[key]), RowSurface(row), RowSurface(winner), RowSurface(loser));
    }
  }

  lemma ImportableSurface(rules: Rules, c: Candidate)
    ensures match Judge(rules, c)
            case Refused(skip) => SkipSurface(skip) == CandidateSurface(rules, c)
            case Importable(row) => RowSurface(row) == CandidateSurface(rules, c)
  {
  }

  lemma AddAccounts(rules: Rules, n: Normalized, c: Candidate)
    requires GroupsListed(n)
    ensures GroupsListed(Add(rules, n, c))
    ensures Accounted(Add(rules, n, c)) == Accounted(n) + multiset{CandidateSurface(rules, c)}
  {
    hide Judge, AddRow, Surfaces, Kept, CandidateSurface;
    ImportableSurface(rules, c);
    var verdict := Judge(rules, c);
    if verdict.Refused? {
      Skipping(n, verdict.skip);
    } else {
      ImportableAccounts(rules, n, verdict.row, n.(seen := n.seen + {KeyOf(verdict.row)}));
    }
  }

  lemma ImportableAccounts(rules: Rules, n: Normalized, row: Row, n': Normalized)
    requires GroupsListed(n) && n' == n.(seen := n.seen + {KeyOf(row)})
    ensures Accounted(n.(skipped := n.skipped + [SkipRow(row, "duplicate_surface")])) == Accounted(n) + multiset{RowSurface(row)}
    ensures KeyOf(row) in rules.suspicious ==>
      Accounted(n'.(quarantined := n.quarantined + [(row, rules.suspicious[KeyOf(row)])])) == Accounted(n) + multiset{RowSurface(row)}
    ensures GroupsListed(AddRow(rules, n', row)) && Accounted(AddRow(rules, n', row)) == Accounted(n) + multiset{RowSurface(row)}
  {
    Skipping(n, SkipRow(row, "duplicate_surface"));
    if KeyOf(row) in rules.suspicious { Quarantining(n', (row, rules.suspicious[KeyOf(row)])); }
    AddRowAccounts(rules, n', row);
  }

  /** Conservation, surface by surface: every input row is kept, skipped or quarantined, once. */
  lemma {:induction false} Conservation(rules: Rules, candidates: seq<Candidate>)
    ensures var n := AddAll(rules, candidates);
            && GroupsListed(n)
            && Accounted(n) == Surfaces(c => CandidateSurface(rules, c), candidates)
            && |candidates| == |Winners(n.groups, n.order)| + |n.skipped| + |n.quarantined|
  {
    if candidates != [] {
      var front, last := candidates[..|candidates| - 1], candidates[|candidates| - 1];
      Conservation(rules, front);
      AddAccounts(rules, AddAll(rules, front), last);
    }
    assert |Surfaces(c => CandidateSurface(rules, c), candidates)| == |candidates|;
  }

  // ---------------------------------------------------------------- the winner

  lemma {:induction false} LessTransitive(a: string, b: string, c: string)
    requires !Less(b, a) && !Less(c, b)
    ensures !Less(c, a)
  {
    if a != "" && b != "" && c != "" && a[0] == b[0] == c[0] { LessTransitive(a[1..], b[1..], c[1..]); }
  }

  lemma {:induction false} LessTotal(a: string, b: string)
    requires !Less(a, b) && !Less(b, a)
    ensures a == b
  {
    if a != "" && b != "" {
      LessTotal(a[1..], b[1..]);
      assert a == [a[0]] + a[1..] && b == [b[0]] + b[1..];
    }
  }

  lemma {:induction false} LessAsymmetric(a: string, b: string)
    requires Less(a, b)
    ensures !Less(b, a)
  {
    if a != "" && a[0] == b[0] { LessAsymmetric(a[1..], b[1..]); }
  }

  /** `a` is at least as good as `b`. */
  predicate Wins(a: Row, b: Row) {
    QualityScore(a) > QualityScore(b)
    || (QualityScore(a) == QualityScore(b) && !Less(StableRowSortKey(b), StableRowSortKey(a)))
  }

  lemma BestWins(left: Row, right: Row)
    ensures Wins(BestCatalogRow(left, right), left) && Wins(BestCatalogRow(left, right), right)
  {
    var l, r := StableRowSortKey(left), StableRowSortKey(right);
    if Less(l, l) { LessAsymmetric(l, l); }
    if Less(r, r) { LessAsymmetric(r, r); }
    if Less(r, l) { LessAsymmetric(r, l); }
  }

  lemma WinsTransitive(a: Row, b: Row, c: Row)
    requires Wins(a, b) && Wins(b, c)
    ensures Wins(a, c)
  {
    if QualityScore(a) == QualityScore(b) == QualityScore(c) {
      LessTransitive(StableRowSortKey(a), StableRowSortKey(b), StableRowSortKey(c));
    }
  }

  predicate NewlineFree(row: Row) {
    && '\n' !in row.domain && '\n' !in row.name && '\n' !in row.provenance
    && '\n' !in row.logo && '\n' !in row.mcpUrl
  }

  /** Rows that beat each other are about the same surface. */
  lemma WinnersCoincide(a: Row, b: Row)
    requires Wins(a, b) && Wins(b, a) && NewlineFree(a) && NewlineFree(b)
    ensures a.domain == b.domain && a.mcpUrl == b.mcpUrl
  {
    LessTotal(StableRowSortKey(a), StableRowSortKey(b));
    SplitJoined([a.domain, a.name, a.provenance, a.logo, a.mcpUrl]);
    SplitJoined([b.domain, b.name, b.provenance, b.logo, b.mcpUrl]);
    var fields := SplitLines(StableRowSortKey(a));
    assert fields[0] == a.domain == b.domain && fields[4] == a.mcpUrl == b.mcpUrl;
  }

  /** A surface key tells the domain from the URL. */
  lemma KeysCoincide(a: Row, b: Row)
    requires KeyOf(a) == KeyOf(b) && NewlineFree(a) && NewlineFree(b)
    ensures a.domain == b.domain && a.mcpUrl == b.mcpUrl
  {
    SplitFirstLine(a.domain, a.mcpUrl);
    SplitFirstLine(b.domain, b.mcpUrl);
    SplitOneLine(a.mcpUrl);
    SplitOneLine(b.mcpUrl);
    var fields := SplitLines(KeyOf(a));
    assert fields[0] == a.domain == b.domain && fields[1] == a.mcpUrl == b.mcpUrl;
  }

  // ---------------------------------------------------------------- order independence

  /** Importable candidates are newline-free and their (domain, URL) pairs are distinct. */
  ghost predicate Tidy(rules: Rules, candidates: seq<Candidate>) {
    && (forall c | c in candidates && Judge(rules, c).Importable? ::
          NewlineFree(Judge(rules, c).row) && multiset(candidates)[c] == 1)
    && (forall c, d | c in candidates && d in candidates && c != d && Judge(rules, c).Importable? && Judge(rules, d).Importable? ::
          CandidateSurface(rules, c) != CandidateSurface(rules, d))
  }

  predicate Entrant(rules: Rules, c: Candidate) {
    Judge(rules, c).Importable? && KeyOf(Judge(rules, c).row) !in rules.suspicious
  }

  ghost predicate WinnerOf(rules: Rules, candidates: seq<Candidate>, group: string, row: Row) {
    && (exists c :: c in candidates && Entrant(rules, c) && Judge(rules, c).row == row && GroupKey(rules, row) == group)
    && (forall c | c in candidates && Entrant(rules, c) && GroupKey(rules, Judge(rules, c).row) == group :: Wins(row, Judge(rules, c).row))
  }

  lemma FrontIsTidy(rules: Rules, candidates: seq<Candidate>)
    requires candidates != [] && Tidy(rules, candidates)
    ensures Tidy(rules, candidates[..|candidates| - 1])
    ensures Judge(rules, candidates[|candidates| - 1]).Importable? ==>
              candidates[|candidates| - 1] !in candidates[..|candidates| - 1]
  {
    var front, last := candidates[..|candidates| - 1], candidates[|candidates| - 1];
    assert candidates == front + [last];
    forall c | c in front && Judge(rules, c).Importable? ensures NewlineFree(Judge(rules, c).row) && multiset(front)[c] == 1 {
      assert c in candidates && multiset(front)[c] <= multiset(candidates)[c];
    }
    forall c, d | c in front && d in front && c != d && Judge(rules, c).Importable? && Judge(rules, d).Importable?
      ensures CandidateSurface(rules, c) != CandidateSurface(rules, d)
    {
      assert c in candidates && d in candidates;
    }
    if Judge(rules, last).Importable? { assert last in candidates; }
  }

  lemma {:induction false} SeenKeys(rules: Rules, candidates: seq<Candidate>, key: string) returns (c: Candidate)
    requires key in AddAll(rules, candidates).seen
    ensures c in candidates && Judge(rules, c).Importable? && KeyOf(Judge(rules, c).row) == key
  {
    var front, last := candidates[..|candidates| - 1], candidates[|candidates| - 1];
    assert candidates == front + [last];
    if key in AddAll(rules, front).seen { c := SeenKeys(rules, front, key); } else { c := last; }
  }

  /** No tidy surface is taken for a duplicate. */
  lemma NotSeen(rules: Rules, candidates: seq<Candidate>)
    requires candidates != [] && Tidy(rules, candidates) && Judge(rules, candidates[|candidates| - 1]).Importable?
    ensures KeyOf(Judge(rules, candidates[|candidates| - 1]).row) !in AddAll(rules, candidates[..|candidates| - 1]).seen
  {
    var front, last := candidates[..|candidates| - 1], candidates[|candidates| - 1];
    FrontIsTidy(rules, candidates);
    if KeyOf(Judge(rules, last).row) in AddAll(rules, front).seen {
      var c := SeenKeys(rules, front, KeyOf(Judge(rules, last).row));
      assert candidates == front + [last];
      ImportableSurface(rules, c);
      ImportableSurface(rules, last);
      KeysCoincide(Judge(rules, c).row, Judge(rules, last).row);
      assert false;
    }
  }

  lemma GroupsAfterAdd(rules: Rules, candidates: seq<Candidate>)
    requires candidates != [] && Tidy(rules, candidates)
    ensures var last := candidates[|candidates| - 1];
            var n := AddAll(rules, candidates[..|candidates| - 1]);
            AddAll(rules, candidates).groups
            == if Entrant(rules, last) then AddRow(rules, n, Judge(rules, last).row).groups else n.groups
  {
    if Judge(rules, candidates[|candidates| - 1]).Importable? { NotSeen(rules, candidates); }
  }

  /** Each group holds the best of its entrants. */
  lemma {:induction false} GroupsHoldWinners(rules: Rules, candidates: seq<Candidate>)
    requires Tidy(rules, candidates)
    ensures forall g | g in AddAll(rules, candidates).groups :: WinnerOf(rules, candidates, g, AddAll(rules, candidates).groups[g])
    ensures forall c | c in candidates && Entrant(rules, c) :: GroupKey(rules, Judge(rules, c).row) in AddAll(rules, candidates).groups
  {
    if candidates != [] {
      var front, last := candidates[..|candidates| - 1], candidates[|candidates| - 1];
      var before, after := AddAll(rules, front).groups, AddAll(rules, candidates).groups;
      assert candidates == front + [last];
      FrontIsTidy(rules, candidates);
      GroupsHoldWinners(rules, front);
      GroupsAfterAdd(rules, candidates);
      forall g | g in after ensures WinnerOf(rules, candidates, g, after[g]) {
        if Entrant(rules, last) && GroupKey(rules, Judge(rules, last).row) == g {
          WinnerAfter(rules, front, last, g, if g in before then Some(before[g]) else None);
        } else {
          WinnerStays(rules, front, last, g, before[g]);
        }
      }
    }
  }

  lemma WinnerStays(rules: Rules, front: seq<Candidate>, last: Candidate, group: string, row: Row)
    requires WinnerOf(rules, front, group, row)
    requires !(Entrant(rules, last) && GroupKey(rules, Judge(rules, last).row) == group)
    ensures WinnerOf(rules, front + [last], group, row)
  {
    var c :| c in front && Entrant(rules, c) && Judge(rules, c).row == row && GroupKey(rules, row) == group;
    assert c in front + [last];
  }

  lemma WinnerAfter(rules: Rules, front: seq<Candidate>, last: Candidate, group: string, existing: Option<Row>)
    requires Entrant(rules, last) && GroupKey(rules, Judge(rules, last).row) == group
    requires if existing.Some? then WinnerOf(rules, front, group, existing.value)
             else forall c | c in front && Entrant(rules, c) :: GroupKey(rules, Judge(rules, c).row) != group
    ensures var row := Judge(rules, last).row;
            WinnerOf(rules, front + [last], group, if existing.Some? then BestCatalogRow(existing.value, row) else row)
  {
    var row := Judge(rules, last).row;
    var winner := if existing.Some? then BestCatalogRow(existing.value, row) else row;
    var all := front + [last];
    BestWins(row, row);
    assert last in all;
    if existing.Some? {
      var c :| c in front && Entrant(rules, c) && Judge(rules, c).row == existing.value && GroupKey(rules, existing.value) == group;
      assert c in all;
      BestWins(existing.value, row);
      forall d | d in all && Entrant(rules, d) && GroupKey(rules, Judge(rules, d).row) == group ensures Wins(winner, Judge(rules, d).row) {
        if d in front { WinsTransitive(winner, existing.value, Judge(rules, d).row); }
      }
    }
  }

  lemma TheWinner(rules: Rules, candidates: seq<Candidate>, group: string, a: Row, b: Row)
    requires Tidy(rules, candidates) && WinnerOf(rules, candidates, group, a) && WinnerOf(rules, candidates, group, b)
    ensures a == b
  {
    var c :| c in candidates && Entrant(rules, c) && Judge(rules, c).row == a && GroupKey(rules, a) == group;
    var d :| d in candidates && Entrant(rules, d) && Judge(rules, d).row == b && GroupKey(rules, b) == group;
    assert NewlineFree(Judge(rules, c).row) && NewlineFree(Judge(rules, d).row);
    WinnersCoincide(a, b);
    ImportableSurface(rules, c);
    ImportableSurface(rules, d);
    assert CandidateSurface(rules, c) == CandidateSurface(rules, d);
  }

  /** The winner of each duplicate group does not depend on the order of the input. */
  lemma WinnersIgnoreInputOrder(rules: Rules, a: seq<Candidate>, b: seq<Candidate>)
    requires Tidy(rules, a) && multiset(a) == multiset(b)
    ensures AddAll(rules, a).groups == AddAll(rules, b).groups
  {
    forall c ensures c in a <==> c in b { assert c in multiset(a) <==> c in multiset(b); }
    assert Tidy(rules, b);
    GroupsHoldWinners(rules, a);
    GroupsHoldWinners(rules, b);
    var g, h := AddAll(rules, a).groups, AddAll(rules, b).groups;
    SameGroups(rules, a, b);
    SameGroups(rules, b, a);
    forall k | k in g ensures g[k] == h[k] {
      assert WinnerOf(rules, b, k, h[k]) && WinnerOf(rules, a, k, g[k]);
      SameEntrants(rules, b, a, k, h[k]);
      TheWinner(rules, a, k, g[k], h[k]);
    }
  }

  lemma SameEntrants(rules: Rules, a: seq<Candidate>, b: seq<Candidate>, group: string, row: Row)
    requires WinnerOf(rules, a, group, row) && forall c :: c in a <==> c in b
    ensures WinnerOf(rules, b, group, row)
  {
    var c :| c in a && Entrant(rules, c) && Judge(rules, c).row == row && GroupKey(rules, row) == group;
    assert c in b;
  }

  lemma SameGroups(rules: Rules, a: seq<Candidate>, b: seq<Candidate>)
    requires Tidy(rules, a) && Tidy(rules, b) && forall c :: c in a <==> c in b
    ensures AddAll(rules, a).groups.Keys <= AddAll(rules, b).groups.Keys
  {
    GroupsHoldWinners(rules, a);
    GroupsHoldWinners(rules, b);
    forall k | k in AddAll(rules, a).groups ensures k in AddAll(rules, b).groups {
      assert WinnerOf(rules, a, k, AddAll(rules, a).groups[k]);
      var c :| c in a && Entrant(rules, c) && GroupKey(rules, Judge(rules, c).row) == k;
      assert c in b;
    }
  }
}
