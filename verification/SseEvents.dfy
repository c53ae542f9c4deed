/**
 What the two readers make of each event of a Responses stream, by the type it carries and without
 reference to how they classify it.
 */
module SseEvents {
  import opened Wrappers
  import opened Text
  import opened SseRepair
  import opened SseAgreement

  // ---------------------------------------------------------------- events

  /** The data lines of a block are the event `fields` of type `kind`. */
  predicate Carries(rt: Runtime, block: string, fields: map<string, Json>, kind: string) {
    && Data(block) != "" && Data(block) != "[DONE]" && rt.parse(Data(block)) == Some(JObj(fields))
    && "type" in fields && fields["type"] == JStr(kind)
  }

  /** The payload is made of the lines that start with `data:`, without that and trimmed; the others
      are what is kept of a block. */
  lemma LineByLine(line: string, rest: seq<string>)
    ensures var data := |line| >= 5 && line[..5] == "data:";
            && DataLines([line] + rest) == (if data then [Trim(line[5..])] else []) + DataLines(rest)
            && OtherLines([line] + rest) == (if data then [] else [line]) + OtherLines(rest)
  {
    hide Trim;
    assert ([line] + rest)[1..] == rest;
    assert StartsWith(line, "data:") <==> |line| >= 5 && line[..5] == "data:";
  }

  /** Trimming takes off the white space of ECMAScript, at both ends, and no more. */
  lemma TrimIsWhiteSpace(c: char)
    ensures IsSpace(c) <==>
              c in {'\t', '\n', '\U{000B}', '\U{000C}', '\r', ' ', '\U{00A0}', '\U{1680}', '\U{2000}', '\U{2001}',
                    '\U{2002}', '\U{2003}', '\U{2004}', '\U{2005}', '\U{2006}', '\U{2007}', '\U{2008}', '\U{2009}',
                    '\U{200A}', '\U{2028}', '\U{2029}', '\U{202F}', '\U{205F}', '\U{3000}', '\U{FEFF}'}
  {
  }

  lemma {:induction false} StartTrimmed(before: string, rest: string)
    requires (forall c | c in before :: IsSpace(c)) && (rest == "" || !IsSpace(rest[0]))
    ensures TrimStart(before + rest) == rest
  {
    hide IsSpace;
    if before == "" {
      assert before + rest == rest;
    } else {
      assert (before + rest)[1..] == before[1..] + rest && before[0] in before;
      StartTrimmed(before[1..], rest);
    }
  }

  lemma {:induction false} EndTrimmed(rest: string, after: string)
    requires (forall c | c in after :: IsSpace(c)) && (rest == "" || !IsSpace(rest[|rest| - 1]))
    ensures TrimEnd(rest + after) == rest
    decreases |after|
  {
    hide IsSpace;
    if after == "" {
      assert rest + after == rest;
    } else {
      var n := |after| - 1;
      assert (rest + after)[..|rest + after| - 1] == rest + after[..n] && after[n] in after;
      EndTrimmed(rest, after[..n]);
    }
  }

  /** It takes all of it off at both ends, and none inside. */
  lemma BothEndsTrimmed(before: string, trimmed: string, after: string)
    requires forall c | c in before || c in after :: IsSpace(c)
    requires trimmed != "" && !IsSpace(trimmed[0]) && !IsSpace(trimmed[|trimmed| - 1])
    ensures Trim(before + trimmed + after) == trimmed
  {
    assert before + trimmed + after == before + (trimmed + after);
    StartTrimmed(before, trimmed + after);
    EndTrimmed(trimmed, after);
  }

  // ---------------------------------------------------------------- what the stream repair does

  /** An item is passed on and collected. */
  lemma ItemsAreCollected(rt: Runtime, block: string, fields: map<string, Json>, items: seq<Json>)
    requires Carries(rt, block, fields, "response.output_item.done") && "item" in fields
    ensures PatchStep(rt, block, items) == Some(Patched(block, items + [fields["item"]]))
  {
  }

  /** A response that is there, and whose `output` is not a list or is an empty one. */
  predicate Unfilled(fields: map<string, Json>) {
    && "response" in fields
    && fields["response"] !in {JNull, JBool(false), JNum(ZERO), JStr("")}
    && (match fields["response"]
        case JObj(response) => "output" in response ==> !response["output"].JArr? || response["output"].elements == []
        case _ => true)
  }

  /** The one rewritten event: after items, the end of a response whose output is unfilled. */
  lemma EndsAreFilled(rt: Runtime, block: string, fields: map<string, Json>, kind: string, items: seq<Json>)
    requires Faithful(rt) && Carries(rt, block, fields, kind)
    requires kind == "response.completed" || kind == "response.done" || kind == "response.incomplete"
    requires Unfilled(fields) && items != []
    ensures var patched := PatchStep(rt, block, items);
            && patched.Some? && patched.value.items == items
            && var data := Data(patched.value.text);
               data != "" && data != "[DONE]"
               && match rt.parse(data)
                  case Some(JObj(after)) =>
                    && after.Keys == fields.Keys
                    && (forall key | key in fields && key != "response" :: after[key] == fields[key])
                    && after["response"].JObj?
                    && var response := after["response"].fields;
                       && "output" in response && response["output"] == JArr(items)
                       && (fields["response"].JObj? ==>
                             && response.Keys == fields["response"].fields.Keys + {"output"}
                             && forall key | key in fields["response"].fields && key != "output" ::
                                  response[key] == fields["response"].fields[key])
                  case _ => false
  {
    PatchedBlockReads(rt, block, items);
    ReadsAsEvent(rt, block, fields, kind);
    var ev := RewrittenEvent(rt, JObj(fields), items);
    var out := Patch(rt, block, items).value;
    EventOf(rt, out);
    hide KindOf, Rewritten, OtherLines, SplitLines, Faithful, Join, DataLines;
    assert ev.JObj? && ev.fields == fields["response" := WithOutput(rt, fields["response"], items)];
  }

  lemma ReadsAsEvent(rt: Runtime, block: string, fields: map<string, Json>, kind: string)
    requires Carries(rt, block, fields, kind)
    requires kind == "response.completed" || kind == "response.done" || kind == "response.incomplete"
    ensures KindOf(rt, block) == Terminal(JObj(fields))
  {
  }

  lemma EventOf(rt: Runtime, block: string)
    requires KindOf(rt, block).Terminal?
    ensures Data(block) != "" && Data(block) != "[DONE]" && rt.parse(Data(block)) == Some(KindOf(rt, block).event)
  {
  }

  /** Every other block is passed on as it is, and nothing is collected from it: one with no data or
      none that is JSON, an event of another type, an item event with no item, the end of a response
      that is filled or not there, or before which no item came. */
  lemma OthersPass(rt: Runtime, block: string, items: seq<Json>)
    requires
      || Data(block) == "" || Data(block) == "[DONE]" || rt.parse(Data(block)).None?
      || (rt.parse(Data(block)).value != JNull && !rt.parse(Data(block)).value.JObj?)
      || exists fields :: rt.parse(Data(block)) == Some(JObj(fields)) && PassesOn(fields, items)
    ensures PatchStep(rt, block, items) == Some(Patched(block, items))
  {
  }

  predicate PassesOn(fields: map<string, Json>, items: seq<Json>) {
    || "type" !in fields || !fields["type"].JStr?
    || fields["type"].s !in {"response.output_item.done", "response.completed", "response.done", "response.incomplete"}
    || (fields["type"].s == "response.output_item.done" && "item" !in fields)
    || (fields["type"].s != "response.output_item.done" && (!Unfilled(fields) || items == []))
  }

  /** Patching throws exactly on a payload that is JSON null. */
  lemma NullThrows(rt: Runtime, block: string, items: seq<Json>)
    ensures PatchStep(rt, block, items).None? <==>
              Data(block) != "" && Data(block) != "[DONE]" && rt.parse(Data(block)) == Some(JNull)
  {
  }

  // ---------------------------------------------------------------- what sseToJsonResponse answers

  /** The item a block yields, if any. */
  ghost predicate Yields(rt: Runtime, block: string, item: Json) {
    exists fields :: Carries(rt, block, fields, "response.output_item.done") && "item" in fields && fields["item"] == item
  }

  ghost predicate YieldsNothing(rt: Runtime, block: string) {
    forall item :: !Yields(rt, block, item)
  }

  /** What each block yields, if anything. */
  ghost predicate Yielded(rt: Runtime, blocks: seq<string>, found: seq<Option<Json>>) {
    && |found| == |blocks|
    && forall b | 0 <= b < |blocks| :: YieldedBy(rt, blocks[b], found[b])
  }

  ghost predicate YieldedBy(rt: Runtime, block: string, found: Option<Json>) {
    match found
    case Some(item) => Yields(rt, block, item)
    case None => YieldsNothing(rt, block)
  }

  function Values(found: seq<Option<Json>>): seq<Json> {
    if found == [] then [] else (if found[0].Some? then [found[0].value] else []) + Values(found[1..])
  }

  /** The block ends a response, with the given value of the field `response`, if any. */
  ghost predicate EndsWith(rt: Runtime, block: string, response: Option<Json>) {
    exists fields, kind ::
      && Carries(rt, block, fields, kind)
      && (kind == "response.completed" || kind == "response.done" || kind == "response.incomplete")
      && response == (if "response" in fields then Some(fields["response"]) else None)
  }

  lemma FoundIs(rt: Runtime, block: string)
    ensures forall item :: Yields(rt, block, item) ==> Found(KindOf(rt, block)) == [item]
    ensures YieldsNothing(rt, block) ==> Found(KindOf(rt, block)) == []
  {
    forall item | Yields(rt, block, item) ensures Found(KindOf(rt, block)) == [item] {
      var fields :| Carries(rt, block, fields, "response.output_item.done") && "item" in fields && fields["item"] == item;
    }
    if Found(KindOf(rt, block)) != [] {
      var ev := rt.parse(Data(block)).value;
      assert Carries(rt, block, ev.fields, "response.output_item.done") && "item" in ev.fields;
      assert Yields(rt, block, ev.fields["item"]);
    }
  }

  lemma {:induction false} AllFoundIs(rt: Runtime, blocks: seq<string>, found: seq<Option<Json>>)
    requires Yielded(rt, blocks, found)
    ensures AllFound(rt, blocks) == Values(found)
    decreases |blocks|
  {
    if blocks != [] {
      FoundIs(rt, blocks[0]);
      assert YieldedBy(rt, blocks[0], found[0]);
      forall b | 0 <= b < |blocks[1..]| ensures YieldedBy(rt, blocks[1..][b], found[1..][b]) {
        assert YieldedBy(rt, blocks[b + 1], found[b + 1]);
      }
      hide Yields, KindOf;
      AllFoundIs(rt, blocks[1..], found[1..]);
    }
  }

  ghost predicate NoEnd(rt: Runtime, block: string) {
    forall response :: !EndsWith(rt, block, response)
  }

  ghost predicate NoEndFrom(rt: Runtime, blocks: seq<string>, k: nat) {
    forall b | k <= b < |blocks| :: NoEnd(rt, blocks[b])
  }

  lemma EndIs(rt: Runtime, block: string, response: Option<Json>)
    requires EndsWith(rt, block, response)
    ensures KindOf(rt, block).Terminal?
    ensures ResponseOf(KindOf(rt, block).event) == if response == Some(JNull) then None else response
  {
  }

  lemma NoEndIs(rt: Runtime, block: string)
    requires NoEnd(rt, block)
    ensures !KindOf(rt, block).Terminal?
  {
    if KindOf(rt, block).Terminal? {
      var ev := KindOf(rt, block).event;
      assert Carries(rt, block, ev.fields, ev.fields["type"].s);
      assert EndsWith(rt, block, if "response" in ev.fields then Some(ev.fields["response"]) else None);
    }
  }

  /** The non-streaming reader answers the response of the last event that ends one, with the items
      of the whole text as its output if there are any, and keeps its other fields. */
  lemma TheLastEndIsAnswered(rt: Runtime, text: string, last: nat, response: Json, found: seq<Option<Json>>)
    requires var blocks := SplitBlocks(text);
             && last < |blocks| && EndsWith(rt, blocks[last], Some(response))
             && NoEndFrom(rt, blocks, last + 1) && Yielded(rt, blocks, found)
    requires response !in {JNull, JBool(false), JNum(ZERO), JStr("")}
    ensures var answer, items := ToJson(rt, text), Values(found);
            if items == [] then answer == response
            else
              && answer.JObj? && "output" in answer.fields && answer.fields["output"] == JArr(items)
              && (response.JObj? ==>
                    && answer.fields.Keys == response.fields.Keys + {"output"}
                    && forall key | key in response.fields && key != "output" :: answer.fields[key] == response.fields[key])
  {
    hide EndsWith, KindOf, Yielded, NoEndFrom;
    var blocks := SplitBlocks(text);
    AllFoundIs(rt, blocks, found);
    ReadEnds(rt, blocks, last, response, Reading(None, []));
  }

  lemma Shift(rt: Runtime, blocks: seq<string>, k: nat)
    requires blocks != [] && k > 0 && NoEndFrom(rt, blocks, k)
    ensures NoEndFrom(rt, blocks[1..], k - 1)
  {
    forall b | k - 1 <= b < |blocks[1..]| ensures NoEnd(rt, blocks[1..][b]) {
      assert blocks[1..][b] == blocks[b + 1] && NoEnd(rt, blocks[b + 1]);
    }
  }

  lemma {:induction false} ReadEnds(rt: Runtime, blocks: seq<string>, last: nat, response: Json, sofar: Reading)
    requires last < |blocks| && EndsWith(rt, blocks[last], Some(response)) && response != JNull
    requires NoEndFrom(rt, blocks, last + 1)
    ensures Read(rt, blocks, sofar) == Reading(Some(response), sofar.items + AllFound(rt, blocks))
    decreases |blocks|
  {
    hide EndsWith, KindOf;
    var block, rest := blocks[0], blocks[1..];
    var next := Reading(FinalAfter(rt, block, sofar.final), sofar.items + Found(KindOf(rt, block)));
    assert sofar.items + Found(KindOf(rt, block)) + AllFound(rt, rest) == sofar.items + AllFound(rt, blocks);
    if last > 0 {
      assert rest[last - 1] == blocks[last];
      Shift(rt, blocks, last + 1);
      ReadEnds(rt, rest, last - 1, response, next);
    } else {
      EndIs(rt, block, Some(response));
      Shift(rt, blocks, 1);
      NoMoreEnds(rt, rest, next);
    }
  }

  lemma NoMoreEnds(rt: Runtime, blocks: seq<string>, sofar: Reading)
    requires NoEndFrom(rt, blocks, 0)
    ensures Read(rt, blocks, sofar) == Reading(sofar.final, sofar.items + AllFound(rt, blocks))
  {
    forall b | b in blocks ensures !KindOf(rt, b).Terminal? {
      var i :| 0 <= i < |blocks| && blocks[i] == b;
      assert NoEnd(rt, blocks[i]);
      NoEndIs(rt, b);
    }
    ReadWithoutTerminal(rt, blocks, sofar);
  }

  /** With no event that ends a response the answer is `{}`. */
  lemma NoEndAnswersEmpty(rt: Runtime, text: string)
    requires NoEndFrom(rt, SplitBlocks(text), 0)
    ensures ToJson(rt, text) == JObj(map[])
  {
    NoMoreEnds(rt, SplitBlocks(text), Reading(None, []));
  }

  /** In the repaired stream every end of a response that is unfilled is filled with all the
      items that came before it. */
  lemma TheStreamIsFilled(
    rt: Runtime, text: string, t: nat, fields: map<string, Json>, kind: string, found: seq<Option<Json>>)
    requires var blocks := SplitBlocks(text);
             && Faithful(rt) && Quiet(rt, blocks) && t < |blocks| && Carries(rt, blocks[t], fields, kind)
             && Yielded(rt, blocks[..t], found)
    requires kind == "response.completed" || kind == "response.done" || kind == "response.incomplete"
    requires Unfilled(fields) && Values(found) != []
    ensures var blocks := SplitBlocks(text);
            var out := PatchedBlocks(rt, blocks, []);
            && RepairText(rt, text).output == Join(out, "\n\n") && |out| == |blocks|
            && match rt.parse(Data(out[t]))
               case Some(JObj(after)) =>
                 "response" in after && after["response"].JObj?
                 && "output" in after["response"].fields && after["response"].fields["output"] == JArr(Values(found))
               case _ => false
  {
    var blocks := SplitBlocks(text);
    RepairFailsOnNullEvents(rt, blocks, []);
    AllFoundIs(rt, blocks[..t], found);
    PatchedAt(rt, blocks, [], t);
    assert [] + Values(found) == Values(found);
    EndsAreFilled(rt, blocks[t], fields, kind, Values(found));
    hide KindOf, Rewritten, OtherLines, SplitLines, Faithful, Join, DataLines, SplitBlocks, RepairBlocks, PatchedBlocks;
  }
}
