/** Which deltas merge, by the fields they carry, and what text they carry. */
module CoalesceRuns {
  import opened Wrappers
  import opened Coalesce

  /** The field of a record, if it is a string. */
  predicate HasString(payload: Value, key: string, s: string) {
    payload.Node? && key in payload.fields && payload.fields[key] == Text(s)
  }

  /** Both have the field as one string, or neither has it as a string. */
  ghost predicate SameString(a: Value, b: Value, key: string) {
    forall s :: HasString(a, key, s) <==> HasString(b, key, s)
  }

  lemma SameField(a: Value, b: Value, key: string)
    ensures SameString(a, b, key) <==> StringField(a, key) == StringField(b, key)
  {
    if SameString(a, b, key) {
      if StringField(a, key).Some? { assert HasString(a, key, StringField(a, key).value); }
      if StringField(b, key).Some? { assert HasString(b, key, StringField(b, key).value); }
    }
  }

  /** Two events merge exactly when they are deltas of one of three kinds, of one turn, and, if of a
      sandbox command, of one command, stream and sandbox. */
  lemma MergesExactlyWhen(e: Event, f: Event)
    ensures Mergeable(e, f) <==>
              && (e.kind == "agent.message.delta" || e.kind == "agent.reasoning.delta" || e.kind == "sandbox.command.output.delta")
              && f.kind == e.kind && f.turn == e.turn
              && (e.kind == "sandbox.command.output.delta" ==>
                    && SameString(e.payload, f.payload, "name") && SameString(e.payload, f.payload, "stream")
                    && SameString(e.payload, f.payload, "commandId"))
  {
    SameField(e.payload, f.payload, "name");
    SameField(e.payload, f.payload, "stream");
    SameField(e.payload, f.payload, "commandId");
  }

  /** Two events become one exactly when they merge, and else stay two, a delta on its own too. */
  lemma TwoEvents(e: Event, f: Event)
    ensures |Coalesced([e, f])| == if Mergeable(e, f) then 1 else 2
  {
    hide KeyOf, MergedEvent, Texts;
    assert [e, f][1..] == [f] && [e, f][2..] == [] && [f][1..] == [];
    assert Coalesced([]) == [];
    OneEvent(f);
    if Delta(e) {
      var n := RunLength([e, f]);
      assert [e, f][..1] == [e];
    }
  }

  lemma OneEvent(e: Event)
    ensures |Coalesced([e])| == 1 && (!Delta(e) ==> Coalesced([e]) == [e])
  {
    hide KeyOf, MergedEvent, Texts;
    assert [e][1..] == [] && Coalesced([]) == [];
  }

  /** The text of a message delta is its `text`. */
  lemma MessageText(e: Event, s: string)
    requires e.kind == "agent.message.delta"
    ensures HasString(e.payload, "text", s) ==> DeltaText(e) == s
    ensures (forall any :: !HasString(e.payload, "text", any)) ==> DeltaText(e) == ""
  {
    if StringField(e.payload, "text").Some? { assert HasString(e.payload, "text", StringField(e.payload, "text").value); }
  }

  /** The text of a sandbox delta is its `chunk`, or else its `text`, or else its `output`. */
  lemma SandboxText(e: Event, s: string)
    requires e.kind == "sandbox.command.output.delta"
    ensures HasString(e.payload, "chunk", s) ==> DeltaText(e) == s
    ensures (forall any :: !HasString(e.payload, "chunk", any)) && HasString(e.payload, "text", s) ==> DeltaText(e) == s
    ensures ((forall any :: !HasString(e.payload, "chunk", any) && !HasString(e.payload, "text", any))
             && HasString(e.payload, "output", s)) ==> DeltaText(e) == s
    ensures (forall any :: !HasString(e.payload, "chunk", any) && !HasString(e.payload, "text", any)
                           && !HasString(e.payload, "output", any)) ==> DeltaText(e) == ""
  {
    NoString(e.payload, "chunk");
    NoString(e.payload, "text");
    NoString(e.payload, "output");
  }

  lemma NoString(payload: Value, key: string)
    ensures (forall s :: !HasString(payload, key, s)) <==> StringField(payload, key).None?
    ensures forall s :: HasString(payload, key, s) <==> StringField(payload, key) == Some(s)
  {
    if StringField(payload, key).Some? { assert HasString(payload, key, StringField(payload, key).value); }
  }

  /** The text of a reasoning delta is its `text`, or else the texts of the parts of its raw item. */
  lemma ReasoningTextIs(e: Event, s: string, item: Value, raw: Value, parts: seq<Value>)
    requires e.kind == "agent.reasoning.delta"
    ensures HasString(e.payload, "text", s) ==> DeltaText(e) == s
    ensures ((forall any :: !HasString(e.payload, "text", any))
             && e.payload.Node? && "item" in e.payload.fields && e.payload.fields["item"] == item
             && item.Node? && "rawItem" in item.fields && item.fields["rawItem"] == raw
             && raw.Node? && "content" in raw.fields && raw.fields["content"] == List(parts)) ==>
              DeltaText(e) == PartsText(parts)
  {
    NoString(e.payload, "text");
  }

  /** The texts of parts are joined in order; a part without a text adds nothing. */
  lemma PartsAre(part: Value, rest: seq<Value>, s: string)
    ensures PartsText([]) == ""
    ensures HasString(part, "text", s) ==> PartsText([part] + rest) == s + PartsText(rest)
    ensures (forall any :: !HasString(part, "text", any)) ==> PartsText([part] + rest) == PartsText(rest)
  {
    NoString(part, "text");
    assert ([part] + rest)[1..] == rest;
  }

  /** A merged event carries the joined text and the last sequence under the names the readers know,
      and of a sandbox run the fields all its deltas share. */
  lemma MergedPayload(first: Event, text: string, until: int)
    requires Delta(first)
    ensures var merged := MergedEvent(first, text, until);
            var sandbox := first.kind == "sandbox.command.output.delta";
            && merged == first.(payload := merged.payload) && merged.payload.Node?
            && HasString(merged.payload, if sandbox then "chunk" else "text", text)
            && "coalescedUntil" in merged.payload.fields && merged.payload.fields["coalescedUntil"] == Number(until)
            && (sandbox ==> forall key | key in {"name", "stream", "commandId"} :: SameString(first.payload, merged.payload, key))
            && merged.payload.fields.Keys <= {"chunk", "text", "coalescedUntil", "name", "stream", "commandId"}
  {
    forall key | key in {"name", "stream", "commandId"} && first.kind == "sandbox.command.output.delta"
      ensures SameString(first.payload, MergedEvent(first, text, until).payload, key)
    {
      SameField(first.payload, MergedEvent(first, text, until).payload, key);
    }
  }
}
