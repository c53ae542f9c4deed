/**
 What the two readers of a Responses event stream have in common: repairing a stream changes
 nothing that sseToJsonResponse would read from it, and on a stream with one terminal event
 the repaired event carries exactly the object sseToJsonResponse answers with.
 */
module SseAgreement {
  import opened Wrappers
  import opened Text
  import opened SseRepair

  // ---------------------------------------------------------------- sseToJsonResponse

  datatype Reading = Reading(final: Option<Json>, items: seq<Json>)

  /** `ev.response ?? null`. */
  function ResponseOf(ev: Json): Option<Json> {
    match Get(ev, "response")
    case Some(JNull) => None
    case r => r
  }

  function Found(kind: Kind): seq<Json> {
    match kind
    case Item(item) => [item]
    case _ => []
  }

  function FinalAfter(rt: Runtime, block: string, final: Option<Json>): Option<Json> {
    var kind := KindOf(rt, block);
    if kind.Terminal? then ResponseOf(kind.event) else final
  }

  function Read(rt: Runtime, blocks: seq<string>, sofar: Reading): Reading
    decreases |blocks|
  {
    if blocks == [] then sofar else
    Read(rt, blocks[1..], Reading(FinalAfter(rt, blocks[0], sofar.final), sofar.items + Found(KindOf(rt, blocks[0]))))
  }

  /** `final` with the collected items as its output, or `{}`. */
  function Answer(rt: Runtime, r: Reading): Json {
    match r.final
    case None => JObj(map[])
    case Some(final) => if Truthy(final) && r.items != [] then WithOutput(rt, final, r.items) else final
  }

  function ToJson(rt: Runtime, text: string): Json {
    Answer(rt, Read(rt, SplitBlocks(text), Reading(None, [])))
  }

  /** sseToJsonResponse.  A null event throws inside the `try` and is passed over. */
  method SseToJson(rt: Runtime, text: string) returns (answer: Json)
    ensures answer == ToJson(rt, text)
  {
    var final: Option<Json> := None;
    var items: seq<Json> := [];
    var blocks := SplitBlocks(text);
    ghost var result := Read(rt, blocks, Reading(None, []));
    for b := 0 to |blocks|
      invariant Read(rt, blocks[b..], Reading(final, items)) == result
    {
      ghost var before := Reading(final, items);
      assert blocks[b..][1..] == blocks[b + 1..];
      var data := Data(blocks[b]);
      if data != "" && data != "[DONE]" {
        var parsed := rt.parse(data);
        if parsed.Some? && parsed.value != JNull {
          var ev := parsed.value;
          var t := Get(ev, "type");
          if t == Some(JStr("response.output_item.done")) && Get(ev, "item").Some? {
            items := items + [Get(ev, "item").value];
          } else if t.Some? && t.value.JStr? && t.value.s in TERMINAL_TYPES {
            final := ResponseOf(ev);
          }
        }
      }
      assert items == before.items + Found(KindOf(rt, blocks[b]));
    }
    if final.Some? && Truthy(final.value) && |items| > 0 {
      final := Some(WithOutput(rt, final.value, items));
    }
    return if final.Some? then final.value else JObj(map[]);
  }

  // ---------------------------------------------------------------- block by block

  /** No block is a null event. */
  ghost predicate Quiet(rt: Runtime, blocks: seq<string>) {
    forall b | b in blocks :: !KindOf(rt, b).NullEvent?
  }

  function AllFound(rt: Runtime, blocks: seq<string>): seq<Json> {
    if blocks == [] then [] else Found(KindOf(rt, blocks[0])) + AllFound(rt, blocks[1..])
  }

  function PatchedBlocks(rt: Runtime, blocks: seq<string>, items: seq<Json>): (out: seq<string>)
    requires Quiet(rt, blocks)
    ensures |out| == |blocks|
    decreases |blocks|
  {
    if blocks == [] then [] else
    assert !KindOf(rt, blocks[0]).NullEvent?;
    [Patch(rt, blocks[0], items).value] + PatchedBlocks(rt, blocks[1..], items + Found(KindOf(rt, blocks[0])))
  }

  lemma PatchingOne(rt: Runtime, block: string, items: seq<Json>)
    ensures var kind := KindOf(rt, block);
      && (Patching(rt)(block, items).None? <==> kind.NullEvent?)
      && (!kind.NullEvent? ==> Patching(rt)(block, items) == Some(Patched(Patch(rt, block, items).value, items + Found(kind))))
  {
    assert items + [] == items;
  }

  /** The stream fails exactly when a block's payload is JSON null, an event sseToJsonResponse
      passes over; otherwise it rejoins the patched blocks. */
  lemma {:induction false} RepairFailsOnNullEvents(rt: Runtime, blocks: seq<string>, items: seq<Json>)
    requires blocks != []
    ensures RepairBlocks(Patching(rt), blocks, items).failed <==> !Quiet(rt, blocks)
    ensures Quiet(rt, blocks) ==>
      RepairBlocks(Patching(rt), blocks, items).output == Join(PatchedBlocks(rt, blocks, items), "\n\n")
    decreases |blocks|
  {
    var patch, block, tail := Patching(rt), blocks[0], blocks[1..];
    var items' := items + Found(KindOf(rt, block));
    PatchingOne(rt, block, items);
    assert blocks == [block] + tail;
    assert Quiet(rt, blocks) <==> !KindOf(rt, block).NullEvent? && (tail == [] || Quiet(rt, tail));
    if patch(block, items).Some? {
      if tail != [] { RepairFailsOnNullEvents(rt, tail, items'); }
      if Quiet(rt, blocks) {
        var p := patch(block, items).value.text;
        assert PatchedBlocks(rt, blocks, items) == [p] + PatchedBlocks(rt, tail, items');
        assert tail == [] ==> PatchedBlocks(rt, tail, items') == [];
      }
    }
  }

  /** On a lone null event the stream fails, and sseToJsonResponse answers `{}`. */
  lemma NullEventsSeparateTheReaders(rt: Runtime, block: string)
    requires FindBlank(block).None? && KindOf(rt, block).NullEvent?
    ensures RepairText(rt, block).failed && ToJson(rt, block) == JObj(map[])
  {
    RepairFailsOnNullEvents(rt, [block], []);
    assert block in [block];
    assert Read(rt, [block], Reading(None, [])) == Read(rt, [], Reading(None, []));
  }

  lemma ANullEvent(rt: Runtime, payload: string)
    requires payload == "null" && rt.parse(payload) == Some(JNull)
    ensures var block := Join([] + ["data: " + payload], "\n");
            FindBlank(block).None? && KindOf(rt, block).NullEvent?
  {
    var lines := [] + ["data: " + payload];
    PayloadOf([], payload);
    SplitJoined(lines);
    SolidLines(Join(lines, "\n"));
  }

  lemma TrimIs(spaced: string, trimmed: string)
    requires spaced == " " + trimmed && trimmed != ""
    requires !IsSpace(trimmed[0]) && !IsSpace(trimmed[|trimmed| - 1])
    ensures Trim(spaced) == trimmed
  {
    assert spaced[1..] == trimmed;
    assert TrimStart(spaced) == TrimStart(trimmed) == trimmed;
  }

  lemma {:induction false} DataOfAppended(lines: seq<string>, last: string)
    requires StartsWith(last, "data:")
    ensures DataLines(lines + [last]) == DataLines(lines) + [Trim(last[5..])]
    ensures OtherLines(lines + [last]) == OtherLines(lines)
  {
    if lines == [] {
      assert lines + [last] == [last];
    } else {
      assert (lines + [last])[1..] == lines[1..] + [last];
      DataOfAppended(lines[1..], last);
    }
  }

  lemma {:induction false} OthersAreNoData(lines: seq<string>)
    requires forall l | l in lines :: !StartsWith(l, "data:")
    ensures DataLines(lines) == [] && OtherLines(lines) == lines
  {
    if lines != [] {
      assert lines == [lines[0]] + lines[1..];
      OthersAreNoData(lines[1..]);
    }
  }

  /** Lines ended by one data line: that line is the payload, the others are kept. */
  lemma PayloadOf(others: seq<string>, payload: string)
    requires forall l | l in others :: '\n' !in l && !StartsWith(l, "data:")
    requires payload != "" && '\n' !in payload && !IsSpace(payload[0]) && !IsSpace(payload[|payload| - 1])
    ensures var block := Join(others + ["data: " + payload], "\n");
            Data(block) == payload && OtherLines(SplitLines(block)) == others
  {
    var data := "data: " + payload;
    SplitJoined(others + [data]);
    OthersAreNoData(others);
    DataOfAppended(others, data);
    assert data[5..] == " " + payload;
    TrimIs(data[5..], payload);
  }

  function RewrittenEvent(rt: Runtime, ev: Json, items: seq<Json>): Json
    requires HasResponse(ev)
  {
    JObj(ev.fields["response" := WithOutput(rt, Get(ev, "response").value, items)])
  }

  /** A rewritten block reads as the same terminal event with the collected items as its
      output, and keeps its other lines; every other block is left as it is. */
  lemma PatchedBlockReads(rt: Runtime, block: string, items: seq<Json>)
    requires Faithful(rt) && Patch(rt, block, items).Some?
    ensures var out := Patch(rt, block, items).value;
      if Rewrites(rt, block, items) then
        && KindOf(rt, out) == Terminal(RewrittenEvent(rt, KindOf(rt, block).event, items))
        && OtherLines(SplitLines(out)) == OtherLines(SplitLines(block))
      else out == block
  {
    if Rewrites(rt, block, items) {
      var ev := KindOf(rt, block).event;
      var ev' := RewrittenEvent(rt, ev, items);
      var payload := rt.stringify(ev');
      assert rt.parse(payload) == Some(ev');
      PayloadOf(OtherLines(SplitLines(block)), payload);
      assert Get(ev', "type") == Get(ev, "type");
    }
  }

  /** The rewritten text is still one block. */
  lemma PatchedBlockIsFramed(rt: Runtime, block: string, items: seq<Json>)
    requires Faithful(rt) && Patch(rt, block, items).Some?
    requires FindBlank(block).None? && !EndsLine(block)
    ensures FindBlank(Patch(rt, block, items).value).None? && !EndsLine(Patch(rt, block, items).value)
  {
    if Rewrites(rt, block, items) {
      FramedWithPayload(block, rt.stringify(RewrittenEvent(rt, KindOf(rt, block).event, items)));
    }
  }

  lemma FramedWithPayload(block: string, payload: string)
    requires FindBlank(block).None? && !EndsLine(block) && '\n' !in payload
    ensures var out := Join(OtherLines(SplitLines(block)) + ["data: " + payload], "\n");
            FindBlank(out).None? && !EndsLine(out)
  {
    var lines := SplitLines(block);
    var out := OtherLines(lines) + ["data: " + payload];
    SolidLines(block);
    SolidOthers(lines);
    SplitJoined(out);
    SolidLines(Join(out, "\n"));
  }

  lemma {:induction false} SolidOthers(lines: seq<string>)
    requires lines != [] && Solid(lines)
    ensures Solid(OtherLines(lines))
    ensures lines[0] != "" ==> forall l | l in OtherLines(lines) :: l != ""
  {
    var rest := lines[1..];
    if rest == [] {
      assert OtherLines(rest) == [];
    } else {
      assert rest[0] == lines[1] != "";
      forall i | 1 <= i < |rest| ensures rest[i] != "" { assert rest[i] == lines[i + 1]; }
      SolidOthers(rest);
      var others, kept := OtherLines(lines), OtherLines(rest);
      assert others == if StartsWith(lines[0], "data:") then kept else [lines[0]] + kept;
      forall i | 1 <= i < |others| ensures others[i] != "" { assert others[i] in kept; }
    }
  }

  // ---------------------------------------------------------------- the repair keeps the answer

  /** Two readings that end in the same answer whatever items are still to come. */
  ghost predicate SameSoFar(rt: Runtime, f: Option<Json>, g: Option<Json>, items: seq<Json>) {
    || f == g
    || (items != [] && f.Some? && g.Some? && Truthy(f.value) && exists some :: g.value == WithOutput(rt, f.value, some))
  }

  lemma SameAfterBlock(rt: Runtime, block: string, f: Option<Json>, g: Option<Json>, items: seq<Json>)
    requires Faithful(rt) && Patch(rt, block, items).Some? && SameSoFar(rt, f, g, items)
    ensures SameSoFar(rt, FinalAfter(rt, block, f), FinalAfter(rt, Patch(rt, block, items).value, g),
                      items + Found(KindOf(rt, block)))
  {
    PatchedBlockReads(rt, block, items);
    hide KindOf, Rewritten, OtherLines, SplitLines, Faithful;
  }

  lemma {:induction false} ReadPatched(rt: Runtime, blocks: seq<string>, f: Option<Json>, g: Option<Json>, items: seq<Json>)
    requires Faithful(rt) && Quiet(rt, blocks) && SameSoFar(rt, f, g, items)
    ensures var r := Read(rt, blocks, Reading(f, items));
            var p := Read(rt, PatchedBlocks(rt, blocks, items), Reading(g, items));
            r.items == p.items && SameSoFar(rt, r.final, p.final, r.items)
    decreases |blocks|
  {
    if blocks != [] {
      var block, out := blocks[0], PatchedBlocks(rt, blocks, items);
      var items' := items + Found(KindOf(rt, block));
      PatchedBlockStays(rt, block, items);
      SameAfterBlock(rt, block, f, g, items);
      assert out[1..] == PatchedBlocks(rt, blocks[1..], items');
      ReadPatched(rt, blocks[1..], FinalAfter(rt, block, f), FinalAfter(rt, out[0], g), items');
    }
  }

  lemma SameAnswer(rt: Runtime, f: Option<Json>, g: Option<Json>, items: seq<Json>)
    requires SameSoFar(rt, f, g, items)
    ensures Answer(rt, Reading(f, items)) == Answer(rt, Reading(g, items))
  {
    if f != g {
      var some :| g.value == WithOutput(rt, f.value, some);
      assert Spread(rt, f.value)["output" := JArr(some)]["output" := JArr(items)] == Spread(rt, f.value)["output" := JArr(items)];
    }
  }

  /** A patched block is collected and patched as it stands. */
  lemma PatchedBlockStays(rt: Runtime, block: string, items: seq<Json>)
    requires Faithful(rt) && Patch(rt, block, items).Some?
    ensures var out := Patch(rt, block, items).value;
            Found(KindOf(rt, out)) == Found(KindOf(rt, block)) && Patch(rt, out, items) == Some(out)
  {
    PatchedBlockReads(rt, block, items);
    if Rewrites(rt, block, items) { RewrittenHasOutput(rt, KindOf(rt, block).event, items); }
  }

  lemma RewrittenHasOutput(rt: Runtime, ev: Json, items: seq<Json>)
    requires HasResponse(ev) && items != []
    ensures var response := Get(RewrittenEvent(rt, ev, items), "response");
            response.Some? && !EmptyOutput(response.value)
  {
    assert Get(WithOutput(rt, Get(ev, "response").value, items), "output") == Some(JArr(items));
  }

  lemma {:induction false} PatchingTwice(rt: Runtime, blocks: seq<string>, items: seq<Json>)
    requires Faithful(rt) && Quiet(rt, blocks)
    ensures var out := PatchedBlocks(rt, blocks, items);
            Quiet(rt, out) && PatchedBlocks(rt, out, items) == out
    decreases |blocks|
  {
    if blocks != [] {
      var items' := items + Found(KindOf(rt, blocks[0]));
      var head, tail := Patch(rt, blocks[0], items).value, PatchedBlocks(rt, blocks[1..], items');
      var out := [head] + tail;
      PatchedBlockStays(rt, blocks[0], items);
      PatchingTwice(rt, blocks[1..], items');
      assert out[1..] == tail;
      assert Quiet(rt, out);
      assert PatchedBlocks(rt, out, items) == [head] + PatchedBlocks(rt, tail, items');
    }
  }

  lemma {:induction false} PatchedAreFramed(rt: Runtime, blocks: seq<string>, items: seq<Json>)
    requires Faithful(rt) && Quiet(rt, blocks)
    requires forall b | b in blocks :: FindBlank(b).None? && !EndsLine(b)
    ensures forall b | b in PatchedBlocks(rt, blocks, items) :: FindBlank(b).None? && !EndsLine(b)
    decreases |blocks|
  {
    if blocks != [] {
      PatchedBlockIsFramed(rt, blocks[0], items);
      PatchedAreFramed(rt, blocks[1..], items + Found(KindOf(rt, blocks[0])));
    }
  }

  /** On every text without null events whose last block does not end in a newline, the repair
      keeps the number of blocks, does not change what sseToJsonResponse would answer, and
      changes nothing when applied again. */
  lemma RepairKeepsTheAnswer(rt: Runtime, text: string)
    requires Faithful(rt) && Quiet(rt, SplitBlocks(text))
    requires !EndsLine(SplitBlocks(text)[|SplitBlocks(text)| - 1])
    ensures var out := RepairText(rt, text).output;
            && |SplitBlocks(out)| == |SplitBlocks(text)|
            && ToJson(rt, out) == ToJson(rt, text)
            && RepairText(rt, out) == Whole(out, RepairText(rt, out).items, false)
  {
    var blocks := SplitBlocks(text);
    var patched := PatchedBlocks(rt, blocks, []);
    var out := Join(patched, "\n\n");
    RepairFailsOnNullEvents(rt, blocks, []);
    SplitIsFramed(text);
    PatchedAreFramed(rt, blocks, []);
    SplitFramed(patched);
    ReadPatched(rt, blocks, None, None, []);
    var r := Read(rt, blocks, Reading(None, []));
    SameAnswer(rt, r.final, Read(rt, patched, Reading(None, [])).final, r.items);
    PatchingTwice(rt, blocks, []);
    RepairFailsOnNullEvents(rt, patched, []);
  }

  // ---------------------------------------------------------------- one terminal event

  /** Block `t` is the only terminal event; it has a response whose output is empty. */
  ghost predicate OneTerminal(rt: Runtime, blocks: seq<string>, t: nat) {
    && t < |blocks|
    && (forall i | 0 <= i < |blocks| :: KindOf(rt, blocks[i]).Terminal? <==> i == t)
    && HasResponse(KindOf(rt, blocks[t]).event)
    && EmptyOutput(Get(KindOf(rt, blocks[t]).event, "response").value)
  }

  lemma {:induction false} ReadWithoutTerminal(rt: Runtime, blocks: seq<string>, sofar: Reading)
    requires forall b | b in blocks :: !KindOf(rt, b).Terminal?
    ensures Read(rt, blocks, sofar) == Reading(sofar.final, sofar.items + AllFound(rt, blocks))
    decreases |blocks|
  {
    if blocks == [] {
      assert sofar.items + [] == sofar.items;
    } else {
      var found := Found(KindOf(rt, blocks[0]));
      ReadWithoutTerminal(rt, blocks[1..], Reading(sofar.final, sofar.items + found));
      assert sofar.items + found + AllFound(rt, blocks[1..]) == sofar.items + AllFound(rt, blocks);
    }
  }

  lemma {:induction false} ReadInParts(rt: Runtime, blocks: seq<string>, k: nat, sofar: Reading)
    requires k <= |blocks|
    ensures Read(rt, blocks, sofar) == Read(rt, blocks[k..], Read(rt, blocks[..k], sofar))
    decreases k
  {
    if k == 0 {
      assert blocks[0..] == blocks;
    } else {
      var found := Found(KindOf(rt, blocks[0]));
      assert blocks[..k][1..] == blocks[1..][..k - 1] && blocks[1..][k - 1..] == blocks[k..];
      ReadInParts(rt, blocks[1..], k - 1, Reading(FinalAfter(rt, blocks[0], sofar.final), sofar.items + found));
    }
  }

  lemma {:induction false} PatchedAt(rt: Runtime, blocks: seq<string>, items: seq<Json>, k: nat)
    requires Quiet(rt, blocks) && k < |blocks|
    ensures var before := items + AllFound(rt, blocks[..k]);
            Patch(rt, blocks[k], before) == Some(PatchedBlocks(rt, blocks, items)[k])
    decreases k
  {
    var found := Found(KindOf(rt, blocks[0]));
    if k == 0 {
      assert items + [] == items;
    } else {
      PatchedAt(rt, blocks[1..], items + found, k - 1);
      assert blocks[..k][1..] == blocks[1..][..k - 1];
      assert items + found + AllFound(rt, blocks[1..][..k - 1]) == items + AllFound(rt, blocks[..k]);
    }
  }

  /** With one terminal event, whose output is empty, all other blocks pass unchanged, and the
      response in the repaired event is the object sseToJsonResponse returns exactly when no
      item comes after it. */
  lemma TheReadersAgree(rt: Runtime, text: string, t: nat)
    requires Faithful(rt) && Quiet(rt, SplitBlocks(text)) && OneTerminal(rt, SplitBlocks(text), t)
    ensures var blocks := SplitBlocks(text);
            var out := PatchedBlocks(rt, blocks, []);
            && RepairText(rt, text).output == Join(out, "\n\n")
            && (forall i | 0 <= i < |blocks| && i != t :: out[i] == blocks[i])
            && KindOf(rt, out[t]).Terminal?
            && (Get(KindOf(rt, out[t]).event, "response") == Some(ToJson(rt, text))
                <==> AllFound(rt, blocks[t + 1..]) == [])
  {
    var blocks := SplitBlocks(text);
    var out := PatchedBlocks(rt, blocks, []);
    RepairFailsOnNullEvents(rt, blocks, []);
    forall i | 0 <= i < |blocks| && i != t ensures out[i] == blocks[i] { PatchedAt(rt, blocks, [], i); }
    var before, after := AllFound(rt, blocks[..t]), AllFound(rt, blocks[t + 1..]);
    PatchedAt(rt, blocks, [], t);
    assert [] + before == before;
    PatchedBlockReads(rt, blocks[t], before);
    hide WithOutput, Join, OtherLines, SplitLines, SplitBlocks;
    var response := Get(KindOf(rt, blocks[t]).event, "response").value;
    TheAnswer(rt, blocks, t);
    assert ToJson(rt, text) == if before + after == [] then response else WithOutput(rt, response, before + after);
    OutputsDiffer(rt, response, before, after);
  }

  lemma OutputsDiffer(rt: Runtime, response: Json, before: seq<Json>, after: seq<Json>)
    requires EmptyOutput(response)
    ensures var all := before + after;
            (if before == [] then response else WithOutput(rt, response, before))
            == (if all == [] then response else WithOutput(rt, response, all))
            <==> after == []
  {
    var all := before + after;
    assert |all| == |before| + |after|;
    if after == [] {
      assert all == before;
    } else {
      assert Get(WithOutput(rt, response, all), "output") == Some(JArr(all));
      if before != [] { assert Get(WithOutput(rt, response, before), "output") == Some(JArr(before)); }
    }
  }

  lemma TheAnswer(rt: Runtime, blocks: seq<string>, t: nat)
    requires OneTerminal(rt, blocks, t)
    ensures var response := Get(KindOf(rt, blocks[t]).event, "response").value;
            var items := AllFound(rt, blocks[..t]) + AllFound(rt, blocks[t + 1..]);
            Answer(rt, Read(rt, blocks, Reading(None, []))) == if items == [] then response else WithOutput(rt, response, items)
  {
    var start := Reading(None, []);
    var response := Get(KindOf(rt, blocks[t]).event, "response").value;
    var before := AllFound(rt, blocks[..t]);
    ReadInParts(rt, blocks, t, start);
    ReadWithoutTerminal(rt, blocks[..t], start);
    assert [] + before == before && before + [] == before;
    assert blocks[t..][0] == blocks[t] && blocks[t..][1..] == blocks[t + 1..];
    assert Read(rt, blocks[t..], Reading(None, before)) == Read(rt, blocks[t + 1..], Reading(Some(response), before));
    ReadWithoutTerminal(rt, blocks[t + 1..], Reading(Some(response), before));
  }
}
