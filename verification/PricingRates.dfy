/** What is charged for one entry and for a whole usage, rate by rate. */
module PricingRates {
  import opened Wrappers
  import opened Pricing

  /** A count is the integer below a positive number; anything else counts nothing. */
  lemma CountIs(v: Value)
    ensures v.Number? && v.n >= 1.0 ==> PositiveInt(v) as real <= v.n < PositiveInt(v) as real + 1.0
    ensures v.Number? && v.n < 1.0 ==> PositiveInt(v) == 0
    ensures v.NoNumber? ==> PositiveInt(v) == 0
  {
  }

  /** The listed cached tokens are charged at the cached rate, or the input rate if there is none, as far
      as there are input tokens; the other input and the output tokens at their own rates. */
  lemma EntryCosts(p: ModelPricing, e: Entry)
    ensures var input, output, listed := PositiveInt(e.inputTokens), PositiveInt(e.outputTokens), CachedTokens(e.details);
            var rate := match p.cachedInput case Some(r) => r case None => p.input;
            var exact := if listed <= input then (input - listed) * p.input + listed * rate + output * p.output
                         else input * rate + output * p.output;
            && ExactOf(p, CountsOf(e)) == exact
            && exact <= 1_000_000 * CostOf(p, CountsOf(e)) < exact + 3_000_000
  {
  }

  /** All three spellings of all details are added up. */
  lemma {:induction false} ListedIs(a: seq<Detail>, d: Detail)
    ensures CachedTokens([]) == 0
    ensures CachedTokens(a + [d])
            == CachedTokens(a) + PositiveInt(d.cached_tokens) + PositiveInt(d.cachedInputTokens) + PositiveInt(d.cached_input_tokens)
  {
    assert (a + [d])[..|a|] == a;
  }

  /** A usage is charged by its request entries, or as one entry when it has none; the margin, if any, is
      in ten-thousandths on top of the sum, rounded up. */
  lemma UsageCosts(p: ModelPricing, usage: Entry, requestEntries: Option<seq<Entry>>)
    ensures Entries(usage, requestEntries)
            == match requestEntries case Some(entries) => if entries == [] then [usage] else entries case None => [usage]
    ensures var counts := AllCounts(Entries(usage, requestEntries));
            var cost, charge := CostOfAll(p, counts), Charge(p, counts);
            && (p.marginBps.None? ==> charge == cost)
            && (p.marginBps.Some? ==> 10_000 * charge - 10_000 < cost * (10_000 + p.marginBps.value) <= 10_000 * charge)
  {
  }

  /** The sum over the entries. */
  lemma SumIs(p: ModelPricing, a: seq<Entry>, e: Entry)
    ensures CostOfAll(p, AllCounts([])) == 0
    ensures CostOfAll(p, AllCounts(a + [e])) == CostOfAll(p, AllCounts(a)) + CostOf(p, CountsOf(e))
  {
    assert (a + [e])[..|a|] == a;
    assert AllCounts(a + [e])[..|a|] == AllCounts(a);
  }
}
