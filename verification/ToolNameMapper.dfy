/**
 The tool-name mapper of packages/codex/src/mcp-sanitize.ts: an injective renaming of MCP tool
 names to legal ones under a hard cap, undone on every call.

 A char stands for one UTF-16 unit.  Hashing is any function with short legal results.
 */
module ToolNameMapper {
  import opened Wrappers

  // ---------------------------------------------------------------- names

  predicate LegalChar(c: char) {
    'a' <= c <= 'z' || 'A' <= c <= 'Z' || '0' <= c <= '9' || c == '_' || c == '-'
  }

  predicate Legal(name: string) {
    name != "" && forall i | 0 <= i < |name| :: LegalChar(name[i])
  }

  const MAX_TOOL_NAME_LEN := 64
  const RUNTIME_PREFIX := "codex_apps__"
  const EFFECTIVE_MAX := MAX_TOOL_NAME_LEN - |RUNTIME_PREFIX|

  type Hash = string -> string

  /** djb2 in base 36: legal, and at most seven characters for 32 bits. */
  ghost predicate HashOk(hash: Hash) {
    forall s :: Legal(hash(s)) && |hash(s)| <= 7
  }

  /** How many names a mapper may have handed out: integers are exact up to here. */
  const MAX_NAMES := 0x20_0000_0000_0000

  function Replaced(original: string): (r: string)
    ensures |r| == |original| && forall i | 0 <= i < |r| :: LegalChar(r[i])
  {
    if original == "" then ""
    else [if LegalChar(original[0]) then original[0] else '_'] + Replaced(original[1..])
  }

  function Cleaned(original: string): string {
    if Legal(original) then original
    else if original == "" then "tool" else Replaced(original)
  }

  function Capped(hash: Hash, candidate: string, original: string): string {
    if |candidate| <= EFFECTIVE_MAX then candidate
    else
      var suffix := "_" + hash(original);
      candidate[..if |suffix| < EFFECTIVE_MAX then EFFECTIVE_MAX - |suffix| else 0] + suffix
  }

  /** The name an original gets when nothing else has claimed it. */
  function Base(hash: Hash, original: string): string {
    Capped(hash, Cleaned(original), original)
  }

  function Decimal(n: nat): (r: string)
    ensures r != "" && forall i | 0 <= i < |r| :: '0' <= r[i] <= '9'
  {
    (if n < 10 then "" else Decimal(n / 10)) + [('0' as int + n % 10) as char]
  }

  /** `base` with suffix `_n`, cut so that the whole keeps the cap.  (A suffix
      longer than the cap needs more names than a mapper can count.) */
  function Suffixed(base: string, n: nat): string {
    var suffix := "_" + Decimal(n);
    if |base| + |suffix| > EFFECTIVE_MAX && |suffix| <= EFFECTIVE_MAX
    then base[..EFFECTIVE_MAX - |suffix|] + suffix
    else base + suffix
  }

  /** The first free candidate, counting from `n`: each `n` gives another candidate, so the
      finite set of used names runs out. */
  function FirstFree(base: string, used: set<string>, n: nat): string
    requires n >= 2 && forall i | 2 <= i < n :: Suffixed(base, i) in used
    decreases |used| + 2 - n
  {
    TriesAreFew(base, used, n);
    var candidate := Suffixed(base, n);
    if candidate in used then
      TriesAreFew(base, used, n + 1);
      FirstFree(base, used, n + 1)
    else candidate
  }

  /** What `sanitize` answers, given the names handed out so far. */
  function Pick(hash: Hash, names: map<string, string>, original: string): string {
    var base := Base(hash, original);
    if base in names && names[base] != original then FirstFree(base, names.Keys, 2) else base
  }

  // ---------------------------------------------------------------- decimals

  function Value(digits: string): int {
    if digits == "" then 0 else Value(digits[..|digits| - 1]) * 10 + (digits[|digits| - 1] as int - '0' as int)
  }

  lemma {:induction false} DecimalReadsBack(n: nat)
    ensures Value(Decimal(n)) == n
  {
    if n >= 10 { DecimalReadsBack(n / 10); }
    assert Decimal(n)[..|Decimal(n)| - 1] == if n < 10 then "" else Decimal(n / 10);
  }

  function Pow10(k: nat): nat {
    if k == 0 then 1 else 10 * Pow10(k - 1)
  }

  lemma {:induction false} DecimalIsShort(n: nat, k: nat)
    requires k > 0 && n < Pow10(k)
    ensures |Decimal(n)| <= k
  {
    if n >= 10 { DecimalIsShort(n / 10, k - 1); }
  }

  lemma CountsAreShort(n: nat)
    requires n < MAX_NAMES + 2
    ensures |Decimal(n)| <= 16
  {
    assert Pow10(4) == 10_000;
    assert Pow10(8) == 100_000_000;
    assert Pow10(12) == 1_000_000_000_000;
    assert Pow10(16) == 10_000_000_000_000_000;
    DecimalIsShort(n, 16);
  }

  // ---------------------------------------------------------------- the suffix search

  /** What follows the last underscore. */
  function Tail(s: string): string {
    if s == "" || s[|s| - 1] == '_' then "" else Tail(s[..|s| - 1]) + [s[|s| - 1]]
  }

  lemma {:induction false} TailOf(front: string, digits: string)
    requires forall i | 0 <= i < |digits| :: digits[i] != '_'
    ensures Tail(front + "_" + digits) == digits
  {
    var s := front + "_" + digits;
    if digits != "" {
      var less := digits[..|digits| - 1];
      TailOf(front, less);
      assert s[..|s| - 1] == front + "_" + less;
    }
  }

  /** Different numbers give different candidates. */
  lemma CandidatesDiffer(base: string, m: nat, n: nat)
    requires Suffixed(base, m) == Suffixed(base, n)
    ensures m == n
  {
    NumberOf(base, m);
    NumberOf(base, n);
  }

  lemma NumberOf(base: string, n: nat)
    ensures Value(Tail(Suffixed(base, n))) == n
  {
    var digits := Decimal(n);
    var cut := if |base| + |digits| + 1 > EFFECTIVE_MAX && |digits| < EFFECTIVE_MAX then EFFECTIVE_MAX - |digits| - 1 else |base|;
    assert base[..|base|] == base;
    assert Suffixed(base, n) == base[..cut] + "_" + digits;
    TailOf(base[..cut], digits);
    DecimalReadsBack(n);
  }

  lemma {:induction false} Tries(base: string, n: nat) returns (tried: set<string>)
    requires n >= 2
    ensures |tried| == n - 2 && forall s | s in tried :: exists i :: 2 <= i < n && s == Suffixed(base, i)
  {
    tried := {};
    if n > 2 {
      var before := Tries(base, n - 1);
      var s := Suffixed(base, n - 1);
      if s in before {
        var i :| 2 <= i < n - 1 && s == Suffixed(base, i);
        CandidatesDiffer(base, i, n - 1);
      }
      tried := before + {s};
    }
  }

  lemma {:induction false} SubsetIsSmaller(a: set<string>, b: set<string>)
    requires a <= b
    ensures |a| <= |b|
  {
    if a != {} {
      var x :| x in a;
      SubsetIsSmaller(a - {x}, b - {x});
    }
  }

  lemma TriesAreFew(base: string, used: set<string>, n: nat)
    requires n >= 2 && forall i | 2 <= i < n :: Suffixed(base, i) in used
    ensures n - 2 <= |used|
  {
    var tried := Tries(base, n);
    SubsetIsSmaller(tried, used);
  }

  /** The search ends at the least number whose candidate is free. */
  lemma {:induction false} FirstFreeIsLeast(base: string, used: set<string>, n: nat) returns (k: nat)
    requires n >= 2 && forall i | 2 <= i < n :: Suffixed(base, i) in used
    ensures n <= k <= |used| + 2 && FirstFree(base, used, n) == Suffixed(base, k) && Suffixed(base, k) !in used
    ensures forall i | 2 <= i < k :: Suffixed(base, i) in used
    decreases |used| + 2 - n
  {
    TriesAreFew(base, used, n);
    if Suffixed(base, n) in used {
      TriesAreFew(base, used, n + 1);
      k := FirstFreeIsLeast(base, used, n + 1);
    } else {
      k := n;
    }
  }

  /** The do-while loop of `sanitize`. */
  method FindFree(base: string, used: set<string>) returns (candidate: string)
    ensures candidate == FirstFree(base, used, 2)
  {
    var n := 2;
    candidate := Suffixed(base, n);
    n := n + 1;
    TriesAreFew(base, used, 2);
    while candidate in used
      invariant n >= 3 && candidate == Suffixed(base, n - 1)
      invariant forall i | 2 <= i < n - 1 :: Suffixed(base, i) in used
      invariant FirstFree(base, used, n - 1) == FirstFree(base, used, 2)
      invariant n - 3 <= |used|
      decreases |used| + 3 - n
    {
      TriesAreFew(base, used, n);
      candidate := Suffixed(base, n);
      n := n + 1;
    }
  }

  // ---------------------------------------------------------------- what names look like

  predicate Fits(name: string) {
    Legal(name) && |name| <= EFFECTIVE_MAX
  }

  lemma BaseFits(hash: Hash, original: string)
    requires HashOk(hash)
    ensures Fits(Base(hash, original))
  {
    assert Legal(hash(original));
  }

  lemma SuffixedFits(base: string, n: nat)
    requires Fits(base) && |Decimal(n)| <= 16
    ensures Fits(Suffixed(base, n))
  {
  }

  /** Every picked name is non-empty, legal and at most 52 characters, and is either free, or
      the base name the original already has. */
  lemma PickFits(hash: Hash, names: map<string, string>, original: string)
    requires HashOk(hash) && |names| < MAX_NAMES
    ensures var r := Pick(hash, names, original);
            Fits(r) && |RUNTIME_PREFIX + r| <= MAX_TOOL_NAME_LEN && (r in names ==> names[r] == original)
  {
    var base := Base(hash, original);
    BaseFits(hash, original);
    if base in names && names[base] != original {
      var k := FirstFreeIsLeast(base, names.Keys, 2);
      CountsAreShort(k);
      SuffixedFits(base, k);
    }
  }

  // ---------------------------------------------------------------- tools/list

  /** One element of `result.tools`: anything that is no object, or a record whose name may be
      no string; `rest` is all its other fields. */
  datatype Entry = NoRecord | Record(name: Option<string>, hasOutputSchema: bool, rest: string)

  function Renamed(hash: Hash, names: map<string, string>, e: Entry): Entry {
    match e
    case NoRecord => NoRecord
    case Record(None, _, rest) => Record(None, false, rest)
    case Record(Some(name), _, rest) => Record(Some(Pick(hash, names, name)), false, rest)
  }

  function Learned(hash: Hash, names: map<string, string>, e: Entry): map<string, string> {
    if e.Record? && e.name.Some? then names[Pick(hash, names, e.name.value) := e.name.value] else names
  }

  function Namespace(name: string): Option<string> {
    if '.' !in name || name[0] == '.' then None
    else Some(name[..IndexOfDot(name)])
  }

  function IndexOfDot(name: string): (i: nat)
    requires '.' in name
    ensures i < |name| && name[i] == '.' && '.' !in name[..i]
  {
    if name[0] == '.' then 0 else
    assert name == [name[0]] + name[1..];
    var i := 1 + IndexOfDot(name[1..]);
    assert name[..i] == [name[0]] + name[1..][..i - 1];
    i
  }

  function NamespaceOf(e: Entry): set<string> {
    if e.Record? && e.name.Some? && Namespace(e.name.value).Some? then {Namespace(e.name.value).value} else {}
  }

  /** What a list of tools makes of the names, and what it is rewritten to. */
  function NamesAfter(hash: Hash, names: map<string, string>, tools: seq<Entry>): map<string, string>
    decreases |tools|
  {
    if tools == [] then names else NamesAfter(hash, Learned(hash, names, tools[0]), tools[1..])
  }

  function Rewritten(hash: Hash, names: map<string, string>, tools: seq<Entry>): (r: seq<Entry>)
    ensures |r| == |tools|
    decreases |tools|
  {
    if tools == [] then [] else
    [Renamed(hash, names, tools[0])] + Rewritten(hash, Learned(hash, names, tools[0]), tools[1..])
  }

  function Namespaces(tools: seq<Entry>): set<string> {
    if tools == [] then {} else NamespaceOf(tools[0]) + Namespaces(tools[1..])
  }

  lemma {:induction false} NamesInParts(hash: Hash, names: map<string, string>, a: seq<Entry>, b: seq<Entry>)
    ensures NamesAfter(hash, names, a + b) == NamesAfter(hash, NamesAfter(hash, names, a), b)
    decreases |a|
  {
    if a == [] {
      assert a + b == b;
    } else {
      assert (a + b)[1..] == a[1..] + b;
      NamesInParts(hash, Learned(hash, names, a[0]), a[1..], b);
    }
  }

  lemma {:induction false} ListedInParts(hash: Hash, names: map<string, string>, a: seq<Entry>, b: seq<Entry>)
    ensures Rewritten(hash, names, a + b) == Rewritten(hash, names, a) + Rewritten(hash, NamesAfter(hash, names, a), b)
    ensures Namespaces(a + b) == Namespaces(a) + Namespaces(b)
    decreases |a|
  {
    if a == [] {
      assert a + b == b;
    } else {
      assert (a + b)[1..] == a[1..] + b;
      ListedInParts(hash, Learned(hash, names, a[0]), a[1..], b);
    }
  }

  lemma NextListed(hash: Hash, names: map<string, string>, tools: seq<Entry>, i: nat)
    requires i < |tools|
    ensures var known := NamesAfter(hash, names, tools[..i]);
            && NamesAfter(hash, names, tools[..i + 1]) == Learned(hash, known, tools[i])
            && Rewritten(hash, names, tools[..i + 1]) == Rewritten(hash, names, tools[..i]) + [Renamed(hash, known, tools[i])]
            && Namespaces(tools[..i + 1]) == Namespaces(tools[..i]) + NamespaceOf(tools[i])
  {
    var one := [tools[i]];
    assert tools[..i + 1] == tools[..i] + one && one[1..] == [];
    NamesInParts(hash, names, tools[..i], one);
    ListedInParts(hash, names, tools[..i], one);
  }

  /** The first `i` of the given tools have been dealt with. */
  ghost predicate Listed(hash: Hash, names: map<string, string>, given: seq<Entry>, i: nat,
                         now: map<string, string>, sink: set<string>, tools: seq<Entry>)
    requires i <= |given|
  {
    && now == NamesAfter(hash, names, given[..i]) && sink == Namespaces(given[..i])
    && tools == Rewritten(hash, names, given[..i]) + given[i..]
  }

  lemma ReplaceFirst(done: seq<Entry>, todo: seq<Entry>, e: Entry)
    requires todo != []
    ensures (done + todo)[|done| := e] == done + [e] + todo[1..]
  {
  }

  lemma ListOne(hash: Hash, names: map<string, string>, given: seq<Entry>, i: nat,
                now: map<string, string>, sink: set<string>, tools: seq<Entry>)
    requires i < |given| && Listed(hash, names, given, i, now, sink, tools)
    ensures |tools| == |given| && tools[i] == given[i]
    ensures Listed(hash, names, given, i + 1, Learned(hash, now, given[i]), sink + NamespaceOf(given[i]),
                   tools[i := Renamed(hash, now, given[i])])
  {
    hide NamesAfter, Rewritten, Namespaces, Learned, Renamed, NamespaceOf;
    NextListed(hash, names, given, i);
    ReplaceFirst(Rewritten(hash, names, given[..i]), given[i..], Renamed(hash, now, given[i]));
  }

  // ---------------------------------------------------------------- tools/call

  datatype Request = Request(rpcMethod: string, name: Option<string>, rest: string)

  /** remapToolCallRequestBody: the rewritten request, or none when it goes out as it is. */
  function Remap(names: map<string, string>, request: Request): Option<Request> {
    if request.rpcMethod != "tools/call" || request.name.None? || request.name.value !in names
       || names[request.name.value] == request.name.value
    then None
    else Some(request.(name := Some(names[request.name.value])))
  }

  function Forwarded(names: map<string, string>, request: Request): Request {
    match Remap(names, request)
    case Some(remapped) => remapped
    case None => request
  }

  // ---------------------------------------------------------------- the mapper

  class Mapper {
    const hash: Hash
    var sanitizedToOriginal: map<string, string>
    var used: set<string>

    /** Both tables list the same names, all of them legal and short. */
    ghost predicate Valid()
      reads this
    {
      && HashOk(hash) && used == sanitizedToOriginal.Keys
      && forall name | name in used :: Fits(name)
    }

    constructor (hash: Hash)
      requires HashOk(hash)
      ensures Valid() && this.hash == hash && sanitizedToOriginal == map[]
    {
      this.hash := hash;
      sanitizedToOriginal, used := map[], {};
    }

    /** `sanitize`. */
    method Sanitize(original: string) returns (candidate: string)
      requires Valid() && |sanitizedToOriginal| < MAX_NAMES
      modifies this
      ensures Valid()
      ensures candidate == Pick(hash, old(sanitizedToOriginal), original)
      ensures sanitizedToOriginal == old(sanitizedToOriginal)[candidate := original]
    {
      candidate := Base(hash, original);
      PickFits(hash, sanitizedToOriginal, original);
      if candidate in used && sanitizedToOriginal[candidate] != original {
        candidate := FindFree(candidate, used);
      }
      used := used + {candidate};
      sanitizedToOriginal := sanitizedToOriginal[candidate := original];
    }

    method ToOriginal(sanitized: string) returns (original: Option<string>)
      ensures original == if sanitized in sanitizedToOriginal then Some(sanitizedToOriginal[sanitized]) else None
    {
      if sanitized in sanitizedToOriginal { return Some(sanitizedToOriginal[sanitized]); }
      return None;
    }

    /** One tool of the list: the output schema goes, the namespace is noted, the name mapped. */
    method SanitizeTool(tool: Entry, sink: set<string>) returns (tool': Entry, sink': set<string>)
      requires Valid() && |sanitizedToOriginal| < MAX_NAMES
      modifies this
      ensures Valid()
      ensures tool' == Renamed(hash, old(sanitizedToOriginal), tool) && sink' == sink + NamespaceOf(tool)
      ensures sanitizedToOriginal == Learned(hash, old(sanitizedToOriginal), tool)
    {
      tool', sink' := tool, sink;
      if tool.Record? {
        tool' := tool.(hasOutputSchema := false);
        if tool.name.Some? {
          var namespace := Namespace(tool.name.value);
          if namespace.Some? { sink' := sink + {namespace.value}; }
          var renamed := Sanitize(tool.name.value);
          tool' := tool'.(name := Some(renamed));
        }
      }
    }

    /** sanitizeToolsInRpcMessage, rewriting the records in place. */
    method SanitizeTools(tools: array<Entry>) returns (sink: set<string>)
      requires Valid() && |sanitizedToOriginal| + tools.Length < MAX_NAMES
      modifies this, tools
      ensures Valid()
      ensures sanitizedToOriginal == NamesAfter(hash, old(sanitizedToOriginal), old(tools[..]))
      ensures tools[..] == Rewritten(hash, old(sanitizedToOriginal), old(tools[..]))
      ensures sink == Namespaces(old(tools[..]))
    {
      sink := {};
      ghost var names, given := sanitizedToOriginal, tools[..];
      for i := 0 to tools.Length
        invariant Valid() && |sanitizedToOriginal| <= |names| + i
        invariant Listed(hash, names, given, i, sanitizedToOriginal, sink, tools[..])
      {
        ghost var before := tools[..];
        ListOne(hash, names, given, i, sanitizedToOriginal, sink, before);
        assert tools[..][i] == given[i];
        var tool, found := SanitizeTool(tools[i], sink);
        tools[i], sink := tool, found;
        assert tools[..] == before[i := tool];
      }
      assert given[..tools.Length] == given;
    }

    /** remapToolCallRequestBody. */
    method RemapToolCall(request: Request) returns (remapped: Option<Request>)
      ensures remapped == Remap(sanitizedToOriginal, request)
    {
      if request.rpcMethod != "tools/call" || request.name.None? { return None; }
      var original := ToOriginal(request.name.value);
      if original.None? || original.value == request.name.value { return None; }
      return Some(request.(name := original));
    }
  }

  // ---------------------------------------------------------------- over whole runs

  /** Every name ever handed out keeps its original. */
  ghost predicate Extends(names: map<string, string>, later: map<string, string>) {
    forall name | name in names :: name in later && later[name] == names[name]
  }

  lemma {:induction false} NamesPersist(hash: Hash, names: map<string, string>, tools: seq<Entry>)
    requires HashOk(hash) && |names| + |tools| < MAX_NAMES
    ensures Extends(names, NamesAfter(hash, names, tools))
    ensures |NamesAfter(hash, names, tools)| <= |names| + |tools|
    decreases |tools|
  {
    if tools != [] {
      var e := tools[0];
      if e.Record? && e.name.Some? { PickFits(hash, names, e.name.value); }
      NamesPersist(hash, Learned(hash, names, e), tools[1..]);
    }
  }

  lemma {:induction false} NamesFit(hash: Hash, names: map<string, string>, tools: seq<Entry>)
    requires HashOk(hash) && |names| + |tools| < MAX_NAMES && forall name | name in names :: Fits(name)
    ensures forall name | name in NamesAfter(hash, names, tools) :: Fits(name)
    decreases |tools|
  {
    if tools != [] {
      var e := tools[0];
      if e.Record? && e.name.Some? { PickFits(hash, names, e.name.value); }
      NamesFit(hash, Learned(hash, names, e), tools[1..]);
    }
  }

  /** The tool at position `i`, with the names known when its turn comes. */
  lemma ListedAt(hash: Hash, names: map<string, string>, tools: seq<Entry>, i: nat)
    requires i < |tools|
    ensures var known := NamesAfter(hash, names, tools[..i]);
            && Rewritten(hash, names, tools)[i] == Renamed(hash, known, tools[i])
            && NamesAfter(hash, names, tools) == NamesAfter(hash, Learned(hash, known, tools[i]), tools[i + 1..])
  {
    assert tools == tools[..i] + tools[i..];
    NamesInParts(hash, names, tools[..i], tools[i..]);
    ListedInParts(hash, names, tools[..i], tools[i..]);
    assert tools[i..][1..] == tools[i + 1..];
  }

  /** Whatever is listed, and whatever is listed later: every tool keeps all but its name and
      loses its output schema; its name is legal and fits; and a tools/call on that name reaches
      the server under the original name. */
  lemma ToolsCallReachesTheOriginal(hash: Hash, tools: seq<Entry>, later: seq<Entry>, i: nat, rest: string)
    requires HashOk(hash) && |tools| + |later| < MAX_NAMES
    requires i < |tools| && tools[i].Record? && tools[i].name.Some?
    ensures var out := Rewritten(hash, map[], tools)[i];
            && out.Record? && out.name.Some? && Fits(out.name.value)
            && !out.hasOutputSchema && out.rest == tools[i].rest
            && Forwarded(NamesAfter(hash, map[], tools + later), Request("tools/call", out.name, rest))
               == Request("tools/call", tools[i].name, rest)
  {
    var known := NamesAfter(hash, map[], tools[..i]);
    ListedAt(hash, map[], tools, i);
    NamesPersist(hash, map[], tools[..i]);
    PickFits(hash, known, tools[i].name.value);
    ListedNameStays(hash, tools + later, i);
    assert (tools + later)[..i] == tools[..i];
  }

  lemma ListedNameStays(hash: Hash, tools: seq<Entry>, i: nat)
    requires HashOk(hash) && |tools| < MAX_NAMES
    requires i < |tools| && tools[i].Record? && tools[i].name.Some?
    ensures var name := Pick(hash, NamesAfter(hash, map[], tools[..i]), tools[i].name.value);
            var names := NamesAfter(hash, map[], tools);
            name in names && names[name] == tools[i].name.value
  {
    var known := NamesAfter(hash, map[], tools[..i]);
    ListedAt(hash, map[], tools, i);
    NamesPersist(hash, map[], tools[..i]);
    var learned := Learned(hash, known, tools[i]);
    assert |learned| <= i + 1;
    NamesPersist(hash, learned, tools[i + 1..]);
  }

  /** Distinct originals never share a name, within a listing or across listings. */
  lemma NamesAreInjective(hash: Hash, tools: seq<Entry>, i: nat, j: nat)
    requires HashOk(hash) && |tools| < MAX_NAMES && i < j < |tools|
    requires tools[i].Record? && tools[i].name.Some? && tools[j].Record? && tools[j].name.Some?
    requires tools[i].name != tools[j].name
    ensures var out := Rewritten(hash, map[], tools);
            out[i].Record? && out[j].Record? && out[i].name != out[j].name
  {
    ToolsCallReachesTheOriginal(hash, tools, [], i, "");
    ToolsCallReachesTheOriginal(hash, tools, [], j, "");
  }

  // ---------------------------------------------------------------- listing again

  /** A tool listed again, after anything else was listed, gets the same name exactly when it
      was the first to claim its base name. */
  lemma SameNameOnlyForTheFirstClaimant(hash: Hash, names: map<string, string>, original: string, between: seq<Entry>)
    requires HashOk(hash) && |names| + 1 + |between| < MAX_NAMES
    ensures var first := Pick(hash, names, original);
            var later := NamesAfter(hash, names[first := original], between);
            var base := Base(hash, original);
            Pick(hash, later, original) == first <==> (base in names ==> names[base] == original)
  {
    var first := Pick(hash, names, original);
    var learned := names[first := original];
    var later := NamesAfter(hash, learned, between);
    var base := Base(hash, original);
    NamesPersist(hash, learned, between);
    assert first in later && later[first] == original;
    if base in names && names[base] != original {
      var k := FirstFreeIsLeast(base, names.Keys, 2);
      assert base in learned && learned[base] != original;
      var l := FirstFreeIsLeast(base, later.Keys, 2);
    }
  }

  /** So the mapper is not idempotent across listings: `a.b` and `a_b` listed twice. */
  lemma ACollidedToolIsRenamedAgain(hash: Hash, dotted: string, plain: string)
    requires HashOk(hash) && dotted == "a.b" && plain == "a_b"
    ensures var tools := [Record(Some(dotted), false, ""), Record(Some(plain), false, "")];
            var again := Rewritten(hash, NamesAfter(hash, map[], tools), tools);
            again[0] == Rewritten(hash, map[], tools)[0] && again[1] != Rewritten(hash, map[], tools)[1]
  {
    var tools := [Record(Some(dotted), false, ""), Record(Some(plain), false, "")];
    assert !LegalChar(dotted[1]);
    var b := dotted[2..];
    assert dotted[1..] == "." + b && (['.'] + b)[1..] == b && b[1..] == "";
    assert Replaced(b) == b;
    assert Replaced(dotted[1..]) == "_" + b;
    assert Replaced(dotted) == "a_" + b;
    assert Base(hash, dotted) == plain == Base(hash, plain);
    var one := map[plain := dotted];
    assert tools[1..] == [tools[1]] && tools[1..][1..] == [];
    assert Learned(hash, map[], tools[0]) == one;
    var two := Learned(hash, one, tools[1]);
    assert NamesAfter(hash, one, [tools[1]]) == NamesAfter(hash, two, []) == two;
    assert NamesAfter(hash, map[], tools) == two;
    SameNameOnlyForTheFirstClaimant(hash, map[], dotted, [tools[1]]);
    SameNameOnlyForTheFirstClaimant(hash, one, plain, [tools[0]]);
    var k := FirstFreeIsLeast(plain, one.Keys, 2);
    assert two[plain] == dotted;
    assert Learned(hash, two, tools[0]) == two;
    assert NamesAfter(hash, two, [tools[0]]) == NamesAfter(hash, two, []);
  }
}
