/** Model usage pricing, packages/config/src/index.ts, in exact integers. */
module Pricing {
  import opened Wrappers

  /** What a token count may be at run time: a finite number, or anything else. */
  datatype Value = Number(n: real) | NoNumber

  /** One record of `inputTokensDetails`, under its three spellings. */
  datatype Detail = Detail(cached_tokens: Value, cachedInputTokens: Value, cached_input_tokens: Value)

  datatype Entry = Entry(inputTokens: Value, outputTokens: Value, details: seq<Detail>)

  /** Rates are micros per million tokens. */
  datatype ModelPricing = ModelPricing(input: nat, cachedInput: Option<nat>, output: nat, marginBps: Option<nat>)

  function PositiveInt(v: Value): nat {
    if v.Number? && v.n > 0.0 then v.n.Floor else 0
  }

  function CachedTokens(details: seq<Detail>): nat {
    if details == [] then 0 else
    var last := details[|details| - 1];
    CachedTokens(details[..|details| - 1])
    + PositiveInt(last.cached_tokens) + PositiveInt(last.cachedInputTokens) + PositiveInt(last.cached_input_tokens)
  }

  /** The tokens an entry is charged for. */
  datatype Counts = Counts(uncached: nat, cached: nat, output: nat)

  function CountsOf(e: Entry): Counts {
    var input, listed := PositiveInt(e.inputTokens), CachedTokens(e.details);
    var cached := if input < listed then input else listed;
    Counts(input - cached, cached, PositiveInt(e.outputTokens))
  }

  function CachedRate(p: ModelPricing): nat {
    if p.cachedInput.Some? then p.cachedInput.value else p.input
  }

  function Margin(p: ModelPricing): nat {
    if p.marginBps.Some? then p.marginBps.value else 0
  }

  /** `Math.ceil(x / 1_000_000)`. */
  function CeilMillion(x: nat): (c: nat)
    ensures 1_000_000 * c - 1_000_000 < x <= 1_000_000 * c
  {
    (x + 999_999) / 1_000_000
  }

  /** `Math.ceil(x / 10_000)`. */
  function CeilBps(x: nat): (c: nat)
    ensures 10_000 * c - 10_000 < x <= 10_000 * c
  {
    (x + 9_999) / 10_000
  }

  function CostOf(p: ModelPricing, c: Counts): nat {
    CeilMillion(c.uncached * p.input) + CeilMillion(c.cached * CachedRate(p)) + CeilMillion(c.output * p.output)
  }

  /** The exact cost, in millionths of a micro. */
  function ExactOf(p: ModelPricing, c: Counts): nat {
    c.uncached * p.input + c.cached * CachedRate(p) + c.output * p.output
  }

  function CostOfAll(p: ModelPricing, counts: seq<Counts>): nat {
    if counts == [] then 0 else CostOfAll(p, counts[..|counts| - 1]) + CostOf(p, counts[|counts| - 1])
  }

  function ExactOfAll(p: ModelPricing, counts: seq<Counts>): nat {
    if counts == [] then 0 else ExactOfAll(p, counts[..|counts| - 1]) + ExactOf(p, counts[|counts| - 1])
  }

  function AllCounts(entries: seq<Entry>): (r: seq<Counts>)
    ensures |r| == |entries| && forall i | 0 <= i < |r| :: r[i] == CountsOf(entries[i])
  {
    if entries == [] then [] else AllCounts(entries[..|entries| - 1]) + [CountsOf(entries[|entries| - 1])]
  }

  function Charge(p: ModelPricing, counts: seq<Counts>): nat {
    CeilBps(CostOfAll(p, counts) * (10_000 + Margin(p)))
  }

  // ---------------------------------------------------------------- the code

  method CachedInputTokens(details: seq<Detail>) returns (total: nat)
    ensures total == CachedTokens(details)
  {
    total := 0;
    for i := 0 to |details|
      invariant total == CachedTokens(details[..i])
    {
      assert details[..i + 1][..i] == details[..i];
      total := total + PositiveInt(details[i].cached_tokens) + PositiveInt(details[i].cachedInputTokens)
               + PositiveInt(details[i].cached_input_tokens);
    }
    assert details[..|details|] == details;
  }

  /** calculateEntryCostMicros.  Every input token is charged once, at the cached rate as many as
      are listed and not more than there are, and rounding adds less than a micro per rate. */
  method CalculateEntryCostMicros(p: ModelPricing, entry: Entry) returns (micros: nat)
    ensures micros == CostOf(p, CountsOf(entry))
    ensures var c, input, listed := CountsOf(entry), PositiveInt(entry.inputTokens), CachedTokens(entry.details);
            && c.uncached + c.cached == input
            && c.cached <= input && c.cached <= listed && (c.cached == input || c.cached == listed)
            && ExactOf(p, c) <= 1_000_000 * micros < ExactOf(p, c) + 3_000_000
  {
    var inputTokens, outputTokens := PositiveInt(entry.inputTokens), PositiveInt(entry.outputTokens);
    var listed := CachedInputTokens(entry.details);
    var cached := if inputTokens < listed then inputTokens else listed;
    var uncached := inputTokens - cached;
    micros := CeilMillion(uncached * p.input) + CeilMillion(cached * CachedRate(p)) + CeilMillion(outputTokens * p.output);
  }

  /** The entries a usage is charged by: its request entries, or itself when it has none. */
  function Entries(usage: Entry, requestEntries: Option<seq<Entry>>): (r: seq<Entry>)
    ensures r != []
  {
    if requestEntries.Some? && |requestEntries.value| > 0 then requestEntries.value else [usage]
  }

  /** With exact cost R, k entries and margin m: at least R(1+m) and less than (R+3k)(1+m)+1,
      in units of which a micro has ten thousand million. */
  ghost predicate WithinBounds(exact: nat, k: nat, margin: nat, charge: nat) {
    exact * margin <= charge * 10_000_000_000 < (exact + 3_000_000 * k) * margin + 10_000_000_000
  }

  method SumOfCosts(p: ModelPricing, entries: seq<Entry>) returns (raw: nat)
    ensures raw == CostOfAll(p, AllCounts(entries))
  {
    raw := 0;
    for i := 0 to |entries|
      invariant raw == CostOfAll(p, AllCounts(entries[..i]))
    {
      assert entries[..i + 1][..i] == entries[..i];
      assert AllCounts(entries[..i + 1])[..i] == AllCounts(entries[..i]);
      var cost := CalculateEntryCostMicros(p, entries[i]);
      raw := raw + cost;
    }
    assert entries[..|entries|] == entries;
  }

  /** calculateModelUsageCostMicros: none when the model has no pricing. */
  method CalculateModelUsageCostMicros(
    prices: map<string, ModelPricing>, model: string, usage: Entry, requestEntries: Option<seq<Entry>>)
    returns (charge: Option<nat>)
    ensures charge.None? <==> model !in prices
    ensures charge.Some? ==>
      var p, counts := prices[model], AllCounts(Entries(usage, requestEntries));
      && charge.value == Charge(p, counts)
      && WithinBounds(ExactOfAll(p, counts), |counts|, 10_000 + Margin(p), charge.value)
  {
    if model !in prices { return None; }
    var p := prices[model];
    var raw := SumOfCosts(p, Entries(usage, requestEntries));
    ChargeBounds(p, AllCounts(Entries(usage, requestEntries)));
    charge := Some(CeilBps(raw * (10_000 + Margin(p))));
  }

  // ---------------------------------------------------------------- bounds

  lemma {:induction false} CostBounds(p: ModelPricing, counts: seq<Counts>)
    ensures ExactOfAll(p, counts) <= 1_000_000 * CostOfAll(p, counts)
    ensures 1_000_000 * CostOfAll(p, counts) <= ExactOfAll(p, counts) + 3_000_000 * |counts|
  {
    if counts != [] { CostBounds(p, counts[..|counts| - 1]); }
  }

  lemma Times(a: nat, b: nat, m: nat)
    requires a <= b
    ensures a * m <= b * m
  {
  }

  lemma ChargeBounds(p: ModelPricing, counts: seq<Counts>)
    ensures WithinBounds(ExactOfAll(p, counts), |counts|, 10_000 + Margin(p), Charge(p, counts))
  {
    CostBounds(p, counts);
    Scaled(ExactOfAll(p, counts), CostOfAll(p, counts), ExactOfAll(p, counts) + 3_000_000 * |counts|, 10_000 + Margin(p));
  }

  lemma Scaled(low: nat, raw: nat, high: nat, margin: nat)
    requires low <= 1_000_000 * raw <= high
    ensures low * margin <= CeilBps(raw * margin) * 10_000_000_000 < high * margin + 10_000_000_000
  {
    var product, c := raw * margin, CeilBps(raw * margin);
    Times(low, 1_000_000 * raw, margin);
    Times(1_000_000 * raw, high, margin);
    MillionTimes(raw, margin);
    assert 10_000 * c - 10_000 < product <= 10_000 * c;
  }

  lemma MillionTimes(raw: nat, margin: nat)
    ensures 1_000_000 * raw * margin == 1_000_000 * (raw * margin)
  {
  }

  // ---------------------------------------------------------------- monotonicity

  lemma CeilMonotone(x: nat, y: nat, m: nat)
    requires x <= y
    ensures CeilMillion(x * m) <= CeilMillion(y * m)
  {
    Times(x, y, m);
  }

  predicate AtLeast(c: Counts, d: Counts) {
    c.uncached >= d.uncached && c.cached >= d.cached && c.output >= d.output
  }

  lemma CostMonotone(p: ModelPricing, c: Counts, d: Counts)
    requires AtLeast(c, d)
    ensures CostOf(p, c) >= CostOf(p, d)
  {
    CeilMonotone(d.uncached, c.uncached, p.input);
    CeilMonotone(d.cached, c.cached, CachedRate(p));
    CeilMonotone(d.output, c.output, p.output);
  }

  lemma {:induction false} CostsMonotone(p: ModelPricing, a: seq<Entry>, b: seq<Entry>)
    requires |a| == |b| && forall i | 0 <= i < |a| :: AtLeast(CountsOf(b[i]), CountsOf(a[i]))
    ensures CostOfAll(p, AllCounts(a)) <= CostOfAll(p, AllCounts(b))
  {
    if a != [] {
      var n := |a| - 1;
      CostsMonotone(p, a[..n], b[..n]);
      CostMonotone(p, CountsOf(b[n]), CountsOf(a[n]));
      assert AllCounts(a)[..n] == AllCounts(a[..n]) && AllCounts(b)[..n] == AllCounts(b[..n]);
    }
  }

  lemma ChargeRises(p: ModelPricing, a: seq<Counts>, b: seq<Counts>)
    requires CostOfAll(p, a) <= CostOfAll(p, b)
    ensures Charge(p, a) <= Charge(p, b)
  {
    Times(CostOfAll(p, a), CostOfAll(p, b), 10_000 + Margin(p));
  }

  /** More input or output tokens, with the same cache details, never cost less. */
  predicate Uses(more: Entry, less: Entry) {
    && PositiveInt(more.inputTokens) >= PositiveInt(less.inputTokens)
    && PositiveInt(more.outputTokens) >= PositiveInt(less.outputTokens) && more.details == less.details
  }

  lemma ChargeIsMonotone(p: ModelPricing, a: seq<Entry>, b: seq<Entry>)
    requires |a| == |b| && forall i | 0 <= i < |a| :: Uses(b[i], a[i])
    ensures Charge(p, AllCounts(a)) <= Charge(p, AllCounts(b))
  {
    forall i | 0 <= i < |a| ensures AtLeast(CountsOf(b[i]), CountsOf(a[i])) { assert Uses(b[i], a[i]); }
    CostsMonotone(p, a, b);
    ChargeRises(p, AllCounts(a), AllCounts(b));
  }

  // ---------------------------------------------------------------- splitting

  function Sum(parts: seq<Counts>): Counts {
    if parts == [] then Counts(0, 0, 0) else
    var front, last := Sum(parts[..|parts| - 1]), parts[|parts| - 1];
    Counts(front.uncached + last.uncached, front.cached + last.cached, front.output + last.output)
  }

  lemma CeilSubadditive(x: nat, y: nat, m: nat)
    ensures CeilMillion((x + y) * m) <= CeilMillion(x * m) + CeilMillion(y * m)
  {
    assert (x + y) * m == x * m + y * m;
  }

  lemma {:induction false} SumCostsNoMore(p: ModelPricing, parts: seq<Counts>)
    ensures CostOf(p, Sum(parts)) <= CostOfAll(p, parts)
  {
    if parts != [] {
      var front, last := Sum(parts[..|parts| - 1]), parts[|parts| - 1];
      SumCostsNoMore(p, parts[..|parts| - 1]);
      CeilSubadditive(front.uncached, last.uncached, p.input);
      CeilSubadditive(front.cached, last.cached, CachedRate(p));
      CeilSubadditive(front.output, last.output, p.output);
    }
  }

  lemma {:induction false} CostsInParts(p: ModelPricing, a: seq<Counts>, b: seq<Counts>)
    ensures CostOfAll(p, a + b) == CostOfAll(p, a) + CostOfAll(p, b)
  {
    if b == [] {
      assert a + b == a;
    } else {
      assert (a + b)[..|a + b| - 1] == a + b[..|b| - 1];
      CostsInParts(p, a, b[..|b| - 1]);
    }
  }

  /** Splitting an entry's counts over several request entries never lowers the charge. */
  lemma SplittingNeverLowers(p: ModelPricing, before: seq<Counts>, parts: seq<Counts>, after: seq<Counts>)
    ensures Charge(p, before + [Sum(parts)] + after) <= Charge(p, before + parts + after)
  {
    SumCostsNoMore(p, parts);
    CostsInParts(p, before + [Sum(parts)], after);
    CostsInParts(p, before, [Sum(parts)]);
    CostsInParts(p, before + parts, after);
    CostsInParts(p, before, parts);
    assert [Sum(parts)][..0] == [];
    ChargeRises(p, before + [Sum(parts)] + after, before + parts + after);
  }
}
