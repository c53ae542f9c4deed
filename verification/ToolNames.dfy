/** What a tool's name becomes, character by character, and which requests are rewritten. */
module ToolNames {
  import opened Wrappers
  import opened ToolNameMapper

  /** A digit, a letter, an underscore or a hyphen, by its code. */
  predicate AsciiWord(c: char) {
    var code := c as int;
    48 <= code <= 57 || 65 <= code <= 90 || 97 <= code <= 122 || code == 95 || code == 45
  }

  lemma LegalCharsAre(c: char)
    ensures LegalChar(c) <==> AsciiWord(c)
  {
  }

  /** Every illegal character, and no other, becomes an underscore. */
  lemma {:induction false} ReplacedIs(original: string, i: nat)
    requires i < |original|
    ensures |Replaced(original)| == |original|
    ensures Replaced(original)[i] == if AsciiWord(original[i]) then original[i] else '_'
    decreases i
  {
    LegalCharsAre(original[0]);
    hide AsciiWord;
    if i > 0 { ReplacedIs(original[1..], i - 1); }
  }

  /** A name that is legal and at most 52 long stays; the empty one is `tool`; any other has its illegal
      characters replaced, and is cut to 52 with a hash of the original at its end if it is longer. */
  lemma BaseIs(hash: Hash, original: string)
    requires HashOk(hash)
    ensures var base := Base(hash, original);
            && (original == "" ==> base == "tool")
            && (original != "" && |original| <= 52 ==>
                  |base| == |original| && forall i | 0 <= i < |base| :: base[i] == if AsciiWord(original[i]) then original[i] else '_')
            && (|original| > 52 ==>
                  var end := "_" + hash(original);
                  && |base| == 52 && base[52 - |end|..] == end
                  && forall i | 0 <= i < 52 - |end| :: base[i] == if AsciiWord(original[i]) then original[i] else '_')
  {
    assert EFFECTIVE_MAX == 52;
    forall i | 0 <= i < |original|
      ensures Cleaned(original)[i] == (if AsciiWord(original[i]) then original[i] else '_') && |Cleaned(original)| == |original|
    {
      CleanedIs(original, i);
    }
    hide AsciiWord;
    if |original| > 52 { CleanedIs(original, 0); }
    if original != "" { CleanedIs(original, 0); }
  }

  lemma CleanedIs(original: string, i: nat)
    requires i < |original|
    ensures |Cleaned(original)| == |original|
    ensures Cleaned(original)[i] == if AsciiWord(original[i]) then original[i] else '_'
  {
    ReplacedIs(original, i);
    LegalCharsAre(original[i]);
    hide AsciiWord, Replaced;
  }

  /** A suffixed name is the base, cut to keep the cap of 52, an underscore and the number. */
  lemma SuffixedIs(base: string, n: nat)
    requires |base| <= 52 && |Decimal(n)| <= 51
    ensures var end := "_" + Decimal(n);
            var cut := if |base| + |end| > 52 then 52 - |end| else |base|;
            Suffixed(base, n) == base[..cut] + end && |Suffixed(base, n)| <= 52
  {
  }

  lemma {:induction false} NoLeadingZero(n: nat)
    requires n > 0
    ensures Decimal(n)[0] != '0' && Value(Decimal(n)) == n
  {
    DecimalReadsBack(n);
    if n >= 10 { NoLeadingZero(n / 10); }
  }

  /** The namespace of a name is what is before its first dot, if that is anything. */
  lemma NamespaceIs(namespace: string, rest: string)
    requires '.' !in namespace
    ensures Namespace(namespace + "." + rest) == if namespace == "" then None else Some(namespace)
    ensures Namespace(namespace).None?
  {
    var name := namespace + "." + rest;
    assert name[|namespace|] == '.';
    if namespace != "" {
      var i := IndexOfDot(name);
      assert i >= |namespace| by { assert forall k | 0 <= k < |namespace| :: name[k] == namespace[k] && namespace[k] != '.'; }
      assert i <= |namespace| by { assert forall k | 0 <= k < i :: name[..i][k] != '.' && name[..i][k] == name[k]; }
      assert name[..|namespace|] == namespace;
    }
  }

  /** One tool of a list: no record is left alone; a record loses its output schema, has a string name
      mapped, learned and its namespace noted, and keeps all else. */
  lemma ListedToolIs(hash: Hash, names: map<string, string>, e: Entry)
    ensures var renamed := Renamed(hash, names, e);
            && (e.NoRecord? ==> renamed == e && Learned(hash, names, e) == names && NamespaceOf(e) == {})
            && (e.Record? ==> renamed == e.(hasOutputSchema := false, name := renamed.name))
            && (e.Record? && e.name.None? ==> renamed.name.None? && Learned(hash, names, e) == names && NamespaceOf(e) == {})
            && (e.Record? && e.name.Some? ==>
                  && renamed.name.Some? && Learned(hash, names, e) == names[renamed.name.value := e.name.value]
                  && NamespaceOf(e) == match Namespace(e.name.value) case Some(namespace) => {namespace} case None => {})
  {
  }

  /** The base name is taken when free or already this original's; else the first free of base with
      2, 3, and so on. */
  lemma PickIs(hash: Hash, names: map<string, string>, original: string)
    ensures var base, name := Base(hash, original), Pick(hash, names, original);
            if base !in names || names[base] == original then name == base
            else exists k :: k >= 2 && name == Suffixed(base, k) && name !in names
                             && forall i | 2 <= i < k :: Suffixed(base, i) in names
  {
    var base := Base(hash, original);
    if base in names && names[base] != original { var k := FirstFreeIsLeast(base, names.Keys, 2); }
  }

  /** Only a tools/call on a name that stands for another is rewritten, and only its name. */
  lemma RemapIs(names: map<string, string>, request: Request)
    ensures var remapped := Remap(names, request);
            && (remapped.Some? <==>
                  request.rpcMethod == "tools/call" && request.name.Some? && request.name.value in names
                  && names[request.name.value] != request.name.value)
            && (remapped.Some? ==> remapped.value == request.(name := Some(names[request.name.value])))
  {
  }
}
