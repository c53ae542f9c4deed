/** Which candidates of a catalog are kept, why the others are not, and which of two rows is better. */
module CatalogChoices {
  import opened Wrappers
  import opened Catalog
  import Text

  // ---------------------------------------------------------------- one candidate

  /** `row` is what an importable candidate becomes. */
  predicate Becomes(rules: Rules, c: Candidate, row: Row) {
    && c.domain.Some? && row.domain == rules.lower(c.domain.value) && c.mcpUrl == Some(row.mcpUrl)
    && row.domain !in rules.dead && rules.refuses(row.mcpUrl).None? && c.streamable
    && row.name == (match c.name case Some(name) => name case None => row.domain)
    && row.authKind == c.authKind && row.scopes == c.scopes && row.facts == c.facts
    && row.provenance == (match c.provenance case Some(via) => via case None => "unknown")
    && (row.verified <==> c.provenance == Some("detected"))
    && row.logo == (match c.logo case Some(logo) => logo case None => "https://integrations.sh/logo/" + row.domain)
  }

  /** Why a candidate is refused before it is compared with any other: the first of five reasons. */
  predicate RefusedFor(rules: Rules, c: Candidate, reason: string) {
    if c.domain.None? then reason == "missing_domain"
    else if rules.lower(c.domain.value) in rules.dead then reason == "dead_demo_domain"
    else if c.mcpUrl.None? then reason == "missing_url"
    else if rules.refuses(c.mcpUrl.value).Some? then reason == rules.refuses(c.mcpUrl.value).value
    else !c.streamable && reason == "transport_not_streamable_http"
  }

  lemma JudgedExactly(rules: Rules, c: Candidate)
    ensures match Judge(rules, c)
            case Importable(row) => Becomes(rules, c, row) && forall reason :: !RefusedFor(rules, c, reason)
            case Refused(skip) =>
              && RefusedFor(rules, c, skip.reason) && skip.mcpUrl == c.mcpUrl
              && skip.domain == (match c.domain case Some(domain) => Some(rules.lower(domain)) case None => None)
  {
  }

  // ---------------------------------------------------------------- the whole input

  ghost predicate KeptFor(rules: Rules, candidates: seq<Candidate>, row: Row) {
    row.domain + "\n" + row.mcpUrl !in rules.suspicious && exists c | c in candidates :: Becomes(rules, c, row)
  }

  ghost predicate QuarantinedFor(rules: Rules, candidates: seq<Candidate>, row: Row, reason: string) {
    var surface := row.domain + "\n" + row.mcpUrl;
    && surface in rules.suspicious && reason == rules.suspicious[surface]
    && exists c | c in candidates :: Becomes(rules, c, row)
  }

  /** A candidate is skipped for its own reason, or as the row of an importable one that another
      has the surface or the name of. */
  ghost predicate SkippedFor(rules: Rules, candidates: seq<Candidate>, skip: Skip) {
    || (exists c | c in candidates :: RefusedFor(rules, c, skip.reason) && skip.mcpUrl == c.mcpUrl)
    || ((skip.reason == "duplicate_surface" || skip.reason == "duplicate_domain_name")
        && exists c, row | c in candidates ::
             Becomes(rules, c, row) && skip.domain == Some(row.domain) && skip.mcpUrl == Some(row.mcpUrl))
  }

  ghost predicate Justified(rules: Rules, candidates: seq<Candidate>, n: Normalized) {
    && (forall k | k in n.groups ::
          KeptFor(rules, candidates, n.groups[k]) && k == n.groups[k].domain + "\n" + rules.dedupe(n.groups[k].name))
    && (forall q | q in n.quarantined :: QuarantinedFor(rules, candidates, q.0, q.1))
    && (forall s | s in n.skipped :: SkippedFor(rules, candidates, s))
  }

  lemma MoreCandidates(rules: Rules, candidates: seq<Candidate>, last: Candidate, n: Normalized)
    requires Justified(rules, candidates, n)
    ensures Justified(rules, candidates + [last], n)
  {
    var all := candidates + [last];
    assert forall c | c in candidates :: c in all;
    forall k | k in n.groups ensures KeptFor(rules, all, n.groups[k]) {
      var c :| c in candidates && Becomes(rules, c, n.groups[k]);
      assert c in all;
    }
    forall q | q in n.quarantined ensures QuarantinedFor(rules, all, q.0, q.1) {
      var c :| c in candidates && Becomes(rules, c, q.0);
      assert c in all;
    }
    forall s | s in n.skipped ensures SkippedFor(rules, all, s) { MoreReasons(rules, candidates, last, s); }
  }

  lemma MoreReasons(rules: Rules, candidates: seq<Candidate>, last: Candidate, s: Skip)
    requires SkippedFor(rules, candidates, s)
    ensures SkippedFor(rules, candidates + [last], s)
  {
    var all := candidates + [last];
    if c :| c in candidates && RefusedFor(rules, c, s.reason) && s.mcpUrl == c.mcpUrl {
      assert c in all;
    } else {
      var c, row :| c in candidates && Becomes(rules, c, row) && s.domain == Some(row.domain) && s.mcpUrl == Some(row.mcpUrl);
      assert c in all;
    }
  }

  lemma AddIsJustified(rules: Rules, candidates: seq<Candidate>, c: Candidate, n: Normalized)
    requires c in candidates && Justified(rules, candidates, n)
    ensures Justified(rules, candidates, Add(rules, n, c))
  {
    JudgedExactly(rules, c);
    match Judge(rules, c)
    case Refused(skip) => assert SkippedFor(rules, candidates, skip);
    case Importable(row) => RowIsJustified(rules, candidates, c, row, n);
  }

  lemma RowIsJustified(rules: Rules, candidates: seq<Candidate>, c: Candidate, row: Row, n: Normalized)
    requires c in candidates && Becomes(rules, c, row) && Justified(rules, candidates, n) && Judge(rules, c) == Importable(row)
    ensures Justified(rules, candidates, Add(rules, n, c))
  {
    hide Becomes, QualityScore, Less, RefusedFor;
    assert SkippedFor(rules, candidates, SkipRow(row, "duplicate_surface"));
    var key := GroupKey(rules, row);
    if key in n.groups {
      var loser := n.groups[key];
      var d :| d in candidates && Becomes(rules, d, loser);
      assert SkippedFor(rules, candidates, SkipRow(loser, "duplicate_domain_name"));
      assert SkippedFor(rules, candidates, SkipRow(row, "duplicate_domain_name"));
    }
    if KeyOf(row) in rules.suspicious {
      assert QuarantinedFor(rules, candidates, row, rules.suspicious[KeyOf(row)]);
    } else {
      assert KeptFor(rules, candidates, row);
    }
  }

  /** Every kept row is an importable candidate that is not suspicious, under its domain and name;
      every quarantined one is a suspicious importable candidate; every skip has its reason. */
  lemma {:induction false} EveryRowIsJustified(rules: Rules, candidates: seq<Candidate>)
    ensures Justified(rules, candidates, AddAll(rules, candidates))
  {
    if candidates != [] {
      hide Justified, Add;
      var front, last := candidates[..|candidates| - 1], candidates[|candidates| - 1];
      assert candidates == front + [last];
      EveryRowIsJustified(rules, front);
      MoreCandidates(rules, front, last, AddAll(rules, front));
      AddIsJustified(rules, candidates, last, AddAll(rules, front));
    }
  }

  // ---------------------------------------------------------------- the better row

  /** `a` goes before `b` in the order of UTF-16 units. */
  ghost predicate Before(a: string, b: string) {
    exists i: nat :: i <= |a| && i < |b| && a[..i] == b[..i] && (i == |a| || a[i] < b[i])
  }

  /** What goes before is the empty string, or starts with a lesser unit or the same one. */
  lemma SameStart(a: string, b: string)
    ensures Before(a, b) ==> b != "" && (a == "" || a[0] < b[0] || a[0] == b[0])
  {
    if Before(a, b) {
      var i: nat :| i <= |a| && i < |b| && a[..i] == b[..i] && (i == |a| || a[i] < b[i]);
      if i > 0 { assert a[..i][0] == a[0] && b[..i][0] == b[0]; }
    }
  }

  lemma RestBefore(a: string, b: string, i: nat)
    requires a != "" && b != "" && a[0] == b[0] && i < |a| && i + 1 < |b|
    ensures a[1..][..i] == b[1..][..i] <==> a[..i + 1] == b[..i + 1]
  {
    assert a[..i + 1] == [a[0]] + a[1..][..i] && b[..i + 1] == [b[0]] + b[1..][..i];
    assert a[1..][..i] == a[..i + 1][1..] && b[1..][..i] == b[..i + 1][1..];
  }

  lemma BeforeByRest(a: string, b: string)
    requires a != "" && b != "" && a[0] == b[0]
    ensures Before(a[1..], b[1..]) <==> Before(a, b)
  {
    if Before(a[1..], b[1..]) {
      var i: nat :| i <= |a[1..]| && i < |b[1..]| && a[1..][..i] == b[1..][..i] && (i == |a[1..]| || a[1..][i] < b[1..][i]);
      RestBefore(a, b, i);
      assert a[..i + 1] == b[..i + 1];
      assert i + 1 <= |a| && i + 1 < |b| && (i + 1 == |a| || a[i + 1] < b[i + 1]);
    }
    if Before(a, b) {
      var i: nat :| i <= |a| && i < |b| && a[..i] == b[..i] && (i == |a| || a[i] < b[i]);
      assert i > 0;
      RestBefore(a, b, i - 1);
      assert a[1..][..i - 1] == b[1..][..i - 1];
      assert i - 1 <= |a[1..]| && i - 1 < |b[1..]| && (i - 1 == |a[1..]| || a[1..][i - 1] < b[1..][i - 1]);
    }
  }

  lemma {:induction false} LessIsBefore(a: string, b: string)
    ensures Less(a, b) <==> Before(a, b)
  {
    if a != "" && b != "" && a[0] == b[0] {
      LessIsBefore(a[1..], b[1..]);
      BeforeByRest(a, b);
    } else {
      if b != "" && (a == "" || a[0] < b[0]) { assert a[..0] == b[..0]; }
      SameStart(a, b);
    }
  }

  /** How much a row tells: four for a logo, two for a detected provenance and one for any other but a
      discovered one, and one each for a known kind of authorization, scopes and credential facts. */
  lemma ScoreIs(row: Row)
    ensures var logo := if row.logo == "" then 0 else 4;
            var via := match row.provenance case "detected" => 2 case "discovered" => 0 case _ => 1;
            var kind := match row.authKind case Unknown => 0 case _ => 1;
            QualityScore(row) == logo + via + kind + (if row.scopes == [] then 0 else 1) + (if row.facts == [] then 0 else 1)
  {
  }

  /** The row that tells more wins; of two that tell as much, the second if its domain, name,
      provenance, logo and URL, one under the other, go before those of the first. */
  lemma TheBetterRow(left: Row, right: Row)
    ensures var text := (row: Row) =>
              row.domain + "\n" + row.name + "\n" + row.provenance + "\n" + row.logo + "\n" + row.mcpUrl;
            BestCatalogRow(left, right)
            == if QualityScore(right) > QualityScore(left) then right
               else if QualityScore(right) < QualityScore(left) then left
               else if Before(text(right), text(left)) then right else left
  {
    KeyIs(left);
    KeyIs(right);
    LessIsBefore(StableRowSortKey(right), StableRowSortKey(left));
    hide Before, Less, StableRowSortKey, QualityScore;
  }

  lemma KeyIs(row: Row)
    ensures StableRowSortKey(row)
            == row.domain + "\n" + row.name + "\n" + row.provenance + "\n" + row.logo + "\n" + row.mcpUrl
  {
    Joined(row.domain, row.name, row.provenance, row.logo, row.mcpUrl);
  }

  lemma Joined(a: string, b: string, c: string, d: string, e: string)
    ensures Text.Join([a, b, c, d, e], "\n") == a + "\n" + b + "\n" + c + "\n" + d + "\n" + e
  {
    assert [a, b, c, d, e][1..] == [b, c, d, e] && [b, c, d, e][1..] == [c, d, e] && [c, d, e][1..] == [d, e] && [d, e][1..] == [e];
    var de := d + "\n" + e;
    assert Text.Join([d, e], "\n") == de;
    var cde := c + "\n" + de;
    assert Text.Join([c, d, e], "\n") == cde;
    var bcde := b + "\n" + cde;
    assert Text.Join([b, c, d, e], "\n") == bcde;
    assert a + "\n" + bcde == a + "\n" + b + "\n" + c + "\n" + d + "\n" + e;
  }
}
