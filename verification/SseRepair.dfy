/**
 The two readers of a Responses event stream in packages/codex/src/fetch.ts: the streaming
 repair, which sees the decoded text in chunks, and sseToJsonResponse, which sees it whole.

 Events are framed as section 9.2 of the WHATWG HTML Standard describes: blocks ended by a
 blank line, whose `data:` lines carry the payload.
 */
module SseRepair {
  import opened Wrappers
  import opened Text

  /** A number as its digits times a power of ten, written without trailing zeros. */
  datatype Decimal = Decimal(digits: int, exponent: int)

  const ZERO := Decimal(0, 0)

  type Number = d: Decimal | d == ZERO || d.digits % 10 != 0 witness ZERO

  datatype Json =
    | JNull | JBool(b: bool) | JNum(n: Number) | JStr(s: string)
    | JArr(elements: seq<Json>) | JObj(fields: map<string, Json>)

  /** The parts of the JavaScript runtime the code relies on: `JSON.parse` (none when it
      throws), `JSON.stringify`, and what spreading a value that is no object yields. */
  datatype Runtime = Runtime(parse: string -> Option<Json>, stringify: Json -> string, indexed: Json -> map<string, Json>)

  /** `stringify` writes one trimmed line, and `parse` reads it back. */
  ghost predicate Faithful(rt: Runtime) {
    forall j: Json ::
      && rt.parse(rt.stringify(j)) == Some(j)
      && rt.stringify(j) != "" && rt.stringify(j) != "[DONE]"
      && '\n' !in rt.stringify(j)
      && !IsSpace(rt.stringify(j)[0]) && !IsSpace(rt.stringify(j)[|rt.stringify(j)| - 1])
  }

  // ---------------------------------------------------------------- one block

  function Get(j: Json, key: string): Option<Json> {
    if j.JObj? && key in j.fields then Some(j.fields[key]) else None
  }

  predicate Truthy(j: Json) {
    match j
    case JNull => false
    case JBool(b) => b
    case JNum(n) => n != ZERO
    case JStr(s) => s != ""
    case _ => true
  }

  function DataLines(lines: seq<string>): seq<string> {
    if lines == [] then []
    else (if StartsWith(lines[0], "data:") then [Trim(lines[0][5..])] else []) + DataLines(lines[1..])
  }

  function OtherLines(lines: seq<string>): (r: seq<string>)
    ensures forall l | l in r :: l in lines && !StartsWith(l, "data:")
  {
    if lines == [] then []
    else (if StartsWith(lines[0], "data:") then [] else [lines[0]]) + OtherLines(lines[1..])
  }

  function Data(block: string): string {
    Join(DataLines(SplitLines(block)), "\n")
  }

  /** What one block is to both readers. */
  datatype Kind =
    | Passive                                  // no payload, not JSON, or an event of no interest
    | Item(item: Json)                         // response.output_item.done with an item
    | Terminal(event: Json)                    // response.completed, .done or .incomplete
    | NullEvent                                // the payload is JSON null: reading its type throws

  const TERMINAL_TYPES := {"response.completed", "response.done", "response.incomplete"}

  function KindOf(rt: Runtime, block: string): Kind {
    var data := Data(block);
    if data == "" || data == "[DONE]" then Passive
    else match rt.parse(data)
      case None => Passive
      case Some(JNull) => NullEvent
      case Some(ev) =>
        var t := Get(ev, "type");
        if t == Some(JStr("response.output_item.done")) && Get(ev, "item").Some? then Item(Get(ev, "item").value)
        else if t.Some? && t.value.JStr? && t.value.s in TERMINAL_TYPES then Terminal(ev)
        else Passive
  }

  function Spread(rt: Runtime, j: Json): map<string, Json> {
    if j.JObj? then j.fields else rt.indexed(j)
  }

  /** `{ ...response, output: items }`. */
  function WithOutput(rt: Runtime, response: Json, items: seq<Json>): Json {
    JObj(Spread(rt, response)["output" := JArr(items)])
  }

  predicate HasResponse(ev: Json) {
    Get(ev, "response").Some? && Truthy(Get(ev, "response").value)
  }

  predicate EmptyOutput(response: Json) {
    match Get(response, "output")
    case Some(JArr(elements)) => elements == []
    case _ => true
  }

  /** The terminal event is rewritten: it has a response with no output, and items came before. */
  predicate Rewrites(rt: Runtime, block: string, items: seq<Json>) {
    var kind := KindOf(rt, block);
    kind.Terminal? && HasResponse(kind.event) && EmptyOutput(Get(kind.event, "response").value) && items != []
  }

  function Rewritten(rt: Runtime, block: string, items: seq<Json>): string
    requires Rewrites(rt, block, items)
  {
    var ev := KindOf(rt, block).event;
    var ev' := JObj(ev.fields["response" := WithOutput(rt, Get(ev, "response").value, items)]);
    Join(OtherLines(SplitLines(block)) + ["data: " + rt.stringify(ev')], "\n")
  }

  /** patchSseBlock: the text that replaces a block; none when reading a null event throws. */
  function Patch(rt: Runtime, block: string, items: seq<Json>): Option<string> {
    if KindOf(rt, block).NullEvent? then None
    else if Rewrites(rt, block, items) then Some(Rewritten(rt, block, items))
    else Some(block)
  }

  function Collect(rt: Runtime, block: string, items: seq<Json>): seq<Json> {
    match KindOf(rt, block)
    case Item(item) => items + [item]
    case _ => items
  }

  datatype Patched = Patched(text: string, items: seq<Json>)
  type Patcher = (string, seq<Json>) -> Option<Patched>

  /** One call of patchSseBlock: the new text and the new list of items. */
  function PatchStep(rt: Runtime, block: string, items: seq<Json>): Option<Patched> {
    match Patch(rt, block, items)
    case None => None
    case Some(text) => Some(Patched(text, Collect(rt, block, items)))
  }

  function Patching(rt: Runtime): Patcher {
    (block, items) => PatchStep(rt, block, items)
  }

  // ---------------------------------------------------------------- the whole text

  /** The output for a whole text: patch the blocks in order with one list of items, and
      rejoin.  When a block throws, the stream fails after the blocks before it. */
  datatype Whole = Whole(output: string, items: seq<Json>, failed: bool)

  function RepairBlocks(patch: Patcher, blocks: seq<string>, items: seq<Json>): Whole
    requires blocks != []
  {
    match patch(blocks[0], items)
    case None => Whole("", items, true)
    case Some(p) =>
      if |blocks| == 1 then Whole(p.text, p.items, false)
      else
        var rest := RepairBlocks(patch, blocks[1..], p.items);
        rest.(output := p.text + "\n\n" + rest.output)
  }

  function RepairText(rt: Runtime, text: string): Whole {
    RepairBlocks(Patching(rt), SplitBlocks(text), [])
  }

  // ---------------------------------------------------------------- the stream

  /** What the transform keeps between chunks, and what it has enqueued so far. */
  datatype Stream = Stream(buffer: string, items: seq<Json>, output: string, failed: bool)

  const START := Stream("", [], "", false)

  /** One round of the loop of `transform`: the block is cut off, patched and enqueued. */
  function Emit(patch: Patcher, st: Stream, block: string, rest: string): (r: Stream)
    ensures |r.buffer| <= |rest|
  {
    match patch(block, st.items)
    case None => st.(buffer := "", failed := true)
    case Some(p) => Stream(rest, p.items, st.output + p.text + "\n\n", false)
  }

  /** The loop of `transform`: emit complete blocks until none is left. */
  function Drain(patch: Patcher, st: Stream): Stream
    decreases |st.buffer|
  {
    var at := FindBlank(st.buffer);
    if st.failed || at.None? then st
    else Drain(patch, Emit(patch, st, st.buffer[..at.value], st.buffer[at.value + 2..]))
  }

  function Feed(patch: Patcher, st: Stream, chunk: string): Stream {
    if st.failed then st else Drain(patch, st.(buffer := st.buffer + chunk))
  }

  function FeedAll(patch: Patcher, st: Stream, chunks: seq<string>): Stream
    decreases |chunks|
  {
    if chunks == [] then st else FeedAll(patch, Feed(patch, st, chunks[0]), chunks[1..])
  }

  /** `flush`: what is left in the buffer is the last, unterminated block. */
  function Finish(patch: Patcher, st: Stream): Stream {
    if st.failed || st.buffer == "" then st
    else match patch(st.buffer, st.items)
      case None => st.(buffer := "", failed := true)
      case Some(p) => st.(items := p.items, output := st.output + p.text)
  }

  function Concat(chunks: seq<string>): string {
    Join(chunks, "")
  }

  class StreamRepair {
    const rt: Runtime
    var buffer: string
    var items: seq<Json>
    var output: string
    var failed: bool

    function View(): Stream
      reads this
    {
      Stream(buffer, items, output, failed)
    }

    constructor (rt: Runtime)
      ensures this.rt == rt && View() == START
    {
      this.rt := rt;
      buffer, items, output, failed := "", [], "", false;
    }

    /** patchSseBlock, which pushes onto `items` in place.  False when it throws. */
    method PatchBlock(block: string) returns (ok: bool, patched: string)
      modifies this`items
      ensures ok <==> Patch(rt, block, old(items)).Some?
      ensures ok ==> patched == Patch(rt, block, old(items)).value
      ensures items == Collect(rt, block, old(items))
    {
      var data := Data(block);
      if data == "" || data == "[DONE]" { return true, block; }
      var parsed := rt.parse(data);
      if parsed.None? { return true, block; }
      var ev := parsed.value;
      if ev.JNull? { return false, ""; }
      var t := Get(ev, "type");
      if t == Some(JStr("response.output_item.done")) && Get(ev, "item").Some? {
        items := items + [Get(ev, "item").value];
        return true, block;
      }
      if t.Some? && t.value.JStr? && t.value.s in TERMINAL_TYPES && HasResponse(ev) {
        var response := Get(ev, "response").value;
        if EmptyOutput(response) && |items| > 0 {
          var patchedEvent := JObj(ev.fields["response" := WithOutput(rt, response, items)]);
          return true, Join(OtherLines(SplitLines(block)) + ["data: " + rt.stringify(patchedEvent)], "\n");
        }
      }
      return true, block;
    }

    /** `transform`.  After a throw the stream is errored and drops what it holds. */
    method Transform(chunk: string)
      modifies this
      ensures View() == Feed(Patching(rt), old(View()), chunk)
    {
      if failed { return; }
      buffer := buffer + chunk;
      ghost var result := Drain(Patching(rt), View());
      var idx := FindBlank(buffer);
      while idx.Some?
        invariant !failed && idx == FindBlank(buffer)
        invariant Drain(Patching(rt), View()) == result
        decreases |buffer|
      {
        EmitBlock(idx.value);
        if failed { return; }
        idx := FindBlank(buffer);
      }
    }

    /** The body of the loop of `transform`. */
    method EmitBlock(idx: nat)
      requires !failed && FindBlank(buffer) == Some(idx)
      modifies this
      ensures View() == Emit(Patching(rt), old(View()), old(buffer)[..idx], old(buffer)[idx + 2..])
    {
      var block := buffer[..idx];
      buffer := buffer[idx + 2..];
      var ok, patched := PatchBlock(block);
      if ok {
        output := output + patched + "\n\n";
      } else {
        buffer, failed := "", true;
      }
    }

    method Flush()
      modifies this
      ensures View() == Finish(Patching(rt), old(View()))
    {
      if failed { return; }
      if |buffer| > 0 {
        var ok, patched := PatchBlock(buffer);
        if !ok {
          buffer, failed := "", true;
          return;
        }
        output := output + patched;
      }
    }
  }

  // ---------------------------------------------------------------- chunk invariance

  lemma DrainRound(patch: Patcher, st: Stream, block: string, rest: string)
    requires !st.failed && st.buffer == block + "\n\n" + rest && FindBlank(st.buffer) == Some(|block|)
    ensures Drain(patch, st) == Drain(patch, Emit(patch, st, block, rest))
  {
    assert st.buffer[..|block|] == block && st.buffer[|block| + 2..] == rest;
  }

  /** Draining a longer buffer is draining the shorter one and then the rest. */
  lemma {:induction false} DrainSplits(patch: Patcher, st: Stream, more: string)
    requires !st.failed
    ensures Drain(patch, st.(buffer := st.buffer + more)) == Feed(patch, Drain(patch, st), more)
    decreases |st.buffer|
  {
    var at := FindBlank(st.buffer);
    if at.Some? {
      var block, rest := st.buffer[..at.value], st.buffer[at.value + 2..];
      FindBlankInPrefix(st.buffer, more);
      assert st.buffer == block + "\n\n" + rest;
      assert st.buffer + more == block + "\n\n" + (rest + more);
      DrainRound(patch, st, block, rest);
      DrainRound(patch, st.(buffer := st.buffer + more), block, rest + more);
      var next := Emit(patch, st, block, rest);
      if !next.failed { DrainSplits(patch, next, more); }
    }
  }

  lemma FeedTwice(patch: Patcher, st: Stream, a: string, b: string)
    ensures Feed(patch, Feed(patch, st, a), b) == Feed(patch, st, a + b)
  {
    if !st.failed {
      DrainSplits(patch, st.(buffer := st.buffer + a), b);
      assert st.buffer + a + b == st.buffer + (a + b);
    }
  }

  lemma {:induction false} DrainTwice(patch: Patcher, st: Stream)
    ensures Drain(patch, Drain(patch, st)) == Drain(patch, st)
    decreases |st.buffer|
  {
    hide FindBlank;
    var at := FindBlank(st.buffer);
    if !st.failed && at.Some? {
      DrainTwice(patch, Emit(patch, st, st.buffer[..at.value], st.buffer[at.value + 2..]));
    }
  }

  lemma {:induction false} FeedAllAtOnce(patch: Patcher, st: Stream, chunks: seq<string>)
    requires st == Drain(patch, st)
    ensures FeedAll(patch, st, chunks) == Feed(patch, st, Concat(chunks))
    decreases |chunks|
  {
    if chunks == [] {
      assert st.buffer + "" == st.buffer;
    } else {
      var next, rest := Feed(patch, st, chunks[0]), Concat(chunks[1..]);
      if !st.failed { DrainTwice(patch, st.(buffer := st.buffer + chunks[0])); }
      FeedAllAtOnce(patch, next, chunks[1..]);
      FeedTwice(patch, st, chunks[0], rest);
      assert Concat(chunks) == chunks[0] + rest;
    }
  }

  /** Draining and finishing a text is repairing its blocks. */
  lemma {:induction false} DrainIsRepair(patch: Patcher, st: Stream)
    requires !st.failed
    requires forall items :: patch("", items) == Some(Patched("", items))
    ensures var end := Finish(patch, Drain(patch, st));
            var whole := RepairBlocks(patch, SplitBlocks(st.buffer), st.items);
            end.output == st.output + whole.output && end.items == whole.items && end.failed == whole.failed
    decreases |st.buffer|
  {
    var at := FindBlank(st.buffer);
    var blocks := SplitBlocks(st.buffer);
    if at.Some? {
      var rest := st.buffer[at.value + 2..];
      var next := Emit(patch, st, blocks[0], rest);
      assert blocks[1..] == SplitBlocks(rest);
      if !next.failed {
        DrainIsRepair(patch, next);
        var more := RepairBlocks(patch, SplitBlocks(rest), next.items).output;
        var text := patch(blocks[0], st.items).value.text;
        assert st.output + text + "\n\n" + more == st.output + (text + "\n\n" + more);
      }
    }
  }

  /** Streaming repair is chunk-invariant: however a text is cut, what the stream enqueues,
      the items it collects and whether it fails are those of the whole text. */
  lemma StreamingIsChunkInvariant(rt: Runtime, chunks: seq<string>)
    ensures var end := Finish(Patching(rt), FeedAll(Patching(rt), START, chunks));
            var whole := RepairText(rt, Concat(chunks));
            end.output == whole.output && end.items == whole.items && end.failed == whole.failed
  {
    var patch := Patching(rt);
    FeedAllAtOnce(patch, START, chunks);
    forall items ensures patch("", items) == Some(Patched("", items)) { assert Data("") == ""; }
    DrainIsRepair(patch, START.(buffer := Concat(chunks)));
    assert "" + Concat(chunks) == Concat(chunks);
  }
}
