/**
 Event payload repair, packages/db/src/event-payload-sanitizer.ts: strings are sequences of
 UTF-16 code units, as section 3.9 of the Unicode Standard has them.
 */
module EventSanitizer {
  import opened Wrappers

  newtype Unit = x: int | 0 <= x < 0x1_0000

  type Str = seq<Unit>

  const REPLACEMENT: Unit := 0xFFFD

  predicate High(u: Unit) { 0xD800 <= u <= 0xDBFF }

  predicate Low(u: Unit) { 0xDC00 <= u <= 0xDFFF }

  // ---------------------------------------------------------------- code points

  /** Scalar values, with U+FFFD for every ill-formed unit. */
  function Decode(s: Str): seq<int> {
    if s == [] then []
    else if High(s[0]) && |s| > 1 && Low(s[1]) then
      [0x1_0000 + (s[0] as int - 0xD800) * 0x400 + (s[1] as int - 0xDC00)] + Decode(s[2..])
    else if High(s[0]) || Low(s[0]) then [REPLACEMENT as int] + Decode(s[1..])
    else [s[0] as int] + Decode(s[1..])
  }

  predicate Scalar(c: int) {
    0 <= c < 0xD800 || 0xE000 <= c < 0x11_0000
  }

  function EncodeOne(c: int): Str
    requires Scalar(c)
  {
    if c < 0x1_0000 then [c as Unit]
    else [(0xD800 + (c - 0x1_0000) / 0x400) as Unit, (0xDC00 + (c - 0x1_0000) % 0x400) as Unit]
  }

  function Encode(points: seq<int>): Str
    requires forall i | 0 <= i < |points| :: Scalar(points[i])
  {
    if points == [] then [] else EncodeOne(points[0]) + Encode(points[1..])
  }

  function WithoutNul(points: seq<int>): seq<int> {
    if points == [] then [] else (if points[0] == 0 then [] else [points[0]]) + WithoutNul(points[1..])
  }

  lemma {:induction false} PointsAreScalar(s: Str)
    ensures forall i | 0 <= i < |Decode(s)| :: Scalar(Decode(s)[i])
    ensures forall i | 0 <= i < |WithoutNul(Decode(s))| :: Scalar(WithoutNul(Decode(s))[i])
  {
    if s != [] { PointsAreScalar(s[if High(s[0]) && |s| > 1 && Low(s[1]) then 2 else 1..]); }
  }

  /** Decode with replacement, drop NUL, encode again. */
  function Repaired(s: Str): Str {
    PointsAreScalar(s);
    Encode(WithoutNul(Decode(s)))
  }

  predicate WellFormed(s: Str) {
    s == []
    || (if High(s[0]) then |s| > 1 && Low(s[1]) && WellFormed(s[2..]) else !Low(s[0]) && WellFormed(s[1..]))
  }

  predicate Clean(s: Str) {
    WellFormed(s) && 0 !in s
  }

  // ---------------------------------------------------------------- one string

  /** How many units the loop takes at the front, and what it adds for them. */
  function Taken(s: Str): (n: nat)
    requires s != []
    ensures 1 <= n <= |s|
  {
    if High(s[0]) && |s| > 1 && Low(s[1]) then 2 else 1
  }

  function Piece(s: Str): Str
    requires s != []
  {
    if Taken(s) == 2 then [s[0], s[1]]
    else if High(s[0]) || Low(s[0]) then [REPLACEMENT]
    else if s[0] == 0 then []
    else [s[0]]
  }

  lemma PairEncodes(high: Unit, low: Unit)
    requires High(high) && Low(low)
    ensures var c := 0x1_0000 + (high as int - 0xD800) * 0x400 + (low as int - 0xDC00);
            Scalar(c) && c > 0xFFFF && EncodeOne(c) == [high, low]
  {
    var a, b := high as int - 0xD800, low as int - 0xDC00;
    assert (a * 0x400 + b) / 0x400 == a && (a * 0x400 + b) % 0x400 == b;
  }

  lemma RepairedStep(s: Str)
    requires s != []
    ensures Repaired(s) == Piece(s) + Repaired(s[Taken(s)..])
  {
    var rest := s[Taken(s)..];
    PointsAreScalar(s);
    PointsAreScalar(rest);
    if Taken(s) == 2 { PairEncodes(s[0], s[1]); }
    var head := Decode(s)[0];
    var points := WithoutNul(Decode(rest));
    assert Decode(s) == [head] + Decode(rest);
    assert Decode(s)[1..] == Decode(rest);
    if head == 0 {
      assert WithoutNul(Decode(s)) == points;
    } else {
      assert WithoutNul(Decode(s)) == [head] + points;
      assert ([head] + points)[1..] == points;
      assert Piece(s) == EncodeOne(head);
    }
  }

  /** One round of the rebuild loop. */
  method NextPiece(value: Str, i: nat) returns (piece: Str, next: nat)
    requires i < |value|
    ensures piece == Piece(value[i..]) && next == i + Taken(value[i..]) <= |value|
  {
    var code := value[i];
    if code == 0 { return [], i + 1; }
    if 0xD800 <= code <= 0xDBFF {
      var following := if i + 1 < |value| then value[i + 1] else 0;
      if 0xDC00 <= following <= 0xDFFF { return [value[i], value[i + 1]], i + 2; }
      return [REPLACEMENT], i + 1;
    }
    if 0xDC00 <= code <= 0xDFFF { return [REPLACEMENT], i + 1; }
    return [value[i]], i + 1;
  }

  /** sanitizeEventString: the scan, then the rebuild. */
  method SanitizeEventString(value: Str) returns (out: Str)
    ensures out == Repaired(value)
  {
    var needsWork := false;
    for i := 0 to |value|
      invariant forall k | 0 <= k < i :: value[k] != 0 && !High(value[k]) && !Low(value[k])
    {
      if value[i] == 0 || 0xD800 <= value[i] <= 0xDFFF { needsWork := true; break; }
    }
    if !needsWork {
      NothingToRepair(value);
      return value;
    }
    out := Rebuild(value);
  }

  lemma Regroup(a: Str, b: Str, c: Str)
    ensures a + b + c == a + (b + c)
  {
  }

  lemma RepairedFrom(s: Str, i: nat)
    requires i < |s|
    ensures var rest := s[i..];
            i + Taken(rest) <= |s| && Repaired(rest) == Piece(rest) + Repaired(s[i + Taken(rest)..])
  {
    RepairedStep(s[i..]);
    assert s[i..][Taken(s[i..])..] == s[i + Taken(s[i..])..];
  }

  method Rebuild(value: Str) returns (out: Str)
    ensures out == Repaired(value)
  {
    out := [];
    var i := 0;
    assert value[0..] == value;
    while i < |value|
      invariant 0 <= i <= |value|
      invariant out + Repaired(value[i..]) == Repaired(value)
    {
      var piece, next := NextPiece(value, i);
      hide Repaired, Piece, Taken;
      RepairedFrom(value, i);
      Regroup(out, piece, Repaired(value[next..]));
      out, i := out + piece, next;
    }
    assert value[i..] == [];
  }

  lemma {:induction false} NothingToRepair(s: Str)
    requires forall k | 0 <= k < |s| :: s[k] != 0 && !High(s[k]) && !Low(s[k])
    ensures Repaired(s) == s
  {
    if s != [] {
      RepairedStep(s);
      NothingToRepair(s[1..]);
    }
  }

  /** The result is well-formed UTF-16 without NUL. */
  lemma {:induction false} RepairedIsClean(s: Str)
    ensures Clean(Repaired(s))
  {
    if s != [] {
      RepairedStep(s);
      RepairedIsClean(s[Taken(s)..]);
      var tail := Repaired(s[Taken(s)..]);
      assert (Piece(s) + tail)[|Piece(s)|..] == tail;
    }
  }

  lemma {:induction false} CleanIsKept(s: Str)
    requires Clean(s)
    ensures Repaired(s) == s
  {
    if s != [] {
      RepairedStep(s);
      CleanIsKept(s[if High(s[0]) then 2 else 1..]);
      assert High(s[0]) ==> s == [s[0], s[1]] + s[2..];
    }
  }

  /** The input comes back unchanged exactly when it is already clean. */
  lemma UnchangedIffClean(s: Str)
    ensures Repaired(s) == s <==> Clean(s)
  {
    RepairedIsClean(s);
    if Clean(s) { CleanIsKept(s); }
  }

  lemma RepairIsIdempotent(s: Str)
    ensures Repaired(Repaired(s)) == Repaired(s)
  {
    RepairedIsClean(s);
    CleanIsKept(Repaired(s));
  }

  // ---------------------------------------------------------------- payload trees

  /** A JSON value; `Leaf` is a number, boolean or null.  An object lists its fields in order. */
  datatype Value = Text(s: Str) | Leaf(n: int) | Arr(elements: seq<Value>) | Obj(fields: seq<Field>)

  datatype Field = Field(key: Str, value: Value)

  function Ascii(s: string): (r: Str)
    requires forall i | 0 <= i < |s| :: 0 < s[i] as int < 0x80
    ensures |r| == |s| && forall i | 0 <= i < |r| :: r[i] as int == s[i] as int
  {
    seq(|s|, i requires 0 <= i < |s| => s[i] as int as Unit)
  }

  /** The field names and the text the walk knows. */
  datatype Names = Names(
    redacted: Str, serverLists: set<Str>, headers: Str, headersEncrypted: Str, headerNames: Str, sensitive: set<Str>)

  function SourceNames(): Names {
    Names(
      Ascii("[redacted]"), {Ascii("mcpServers"), Ascii("mcpCredentialUpdates")},
      Ascii("headers"), Ascii("headersEncrypted"), Ascii("headerNames"),
      {Ascii("authorization"), Ascii("headers"), Ascii("accesstoken"), Ascii("refreshtoken"), Ascii("idtoken"),
       Ascii("token"), Ascii("apikey"), Ascii("secret"), Ascii("clientsecret"), Ascii("credential"),
       Ascii("credentialencrypted"), Ascii("encryptedpkceverifier"), Ascii("codeverifier")})
  }

  /** The names, with `toLowerCase` and the default `sort` of an array of strings. */
  datatype Runtime = Runtime(names: Names, lower: Str -> Str, sort: seq<Str> -> seq<Str>)

  function WithoutDashes(s: Str): Str {
    if s == [] then [] else (if s[0] == 0x2D || s[0] == 0x5F then [] else [s[0]]) + WithoutDashes(s[1..])
  }

  predicate Sensitive(rt: Runtime, key: Str) {
    WithoutDashes(rt.lower(key)) in rt.names.sensitive
  }

  predicate ServerList(rt: Runtime, key: Str) {
    key in rt.names.serverLists
  }

  predicate HeaderKey(rt: Runtime, key: Str) {
    key == rt.names.headers || key == rt.names.headersEncrypted
  }

  /** Sorting keeps the strings; `headerNames` is an ordinary field name. */
  ghost predicate RuntimeOk(rt: Runtime) {
    && (forall strings: seq<Str> :: multiset(rt.sort(strings)) == multiset(strings))
    && Clean(rt.names.redacted) && Clean(rt.names.headerNames)
    && !Sensitive(rt, rt.names.headerNames) && !ServerList(rt, rt.names.headerNames) && !HeaderKey(rt, rt.names.headerNames)
  }

  /** `object[key] = value`: in place when the key is there, at the end otherwise. */
  function Put(fields: seq<Field>, key: Str, value: Value): seq<Field> {
    if fields == [] then [Field(key, value)]
    else if fields[0].key == key then [Field(key, value)] + fields[1..]
    else [fields[0]] + Put(fields[1..], key, value)
  }

  function Get(fields: seq<Field>, key: Str): Option<Value> {
    if fields == [] then None else if fields[0].key == key then Some(fields[0].value) else Get(fields[1..], key)
  }

  function KeyTexts(fields: seq<Field>): seq<Str> {
    if fields == [] then [] else [Repaired(fields[0].key)] + KeyTexts(fields[1..])
  }

  function Texts(strings: seq<Str>): seq<Value> {
    if strings == [] then [] else [Text(strings[0])] + Texts(strings[1..])
  }

  /** safeHeaderNames. */
  function HeaderNames(rt: Runtime, v: Option<Value>): Option<Value> {
    if v.Some? && v.value.Obj? then Some(Arr(Texts(rt.sort(KeyTexts(v.value.fields))))) else None
  }

  /** sanitizeEventPayload. */
  function Sanitized(rt: Runtime, v: Value): Value
    decreases v, 2, 0
  {
    match v
    case Text(s) => Text(Repaired(s))
    case Leaf(n) => v
    case Arr(elements) => Arr(ElementsUpTo(rt, v, |elements|))
    case Obj(fields) => Obj(FieldsUpTo(rt, v, |fields|, false))
  }

  function ElementsUpTo(rt: Runtime, v: Value, n: nat): (r: seq<Value>)
    requires v.Arr? && n <= |v.elements|
    ensures |r| == n
    decreases v, 0, n
  {
    if n == 0 then [] else ElementsUpTo(rt, v, n - 1) + [Sanitized(rt, v.elements[n - 1])]
  }

  /** The first `n` fields, without the header fields when `strip`. */
  function FieldsUpTo(rt: Runtime, v: Value, n: nat, strip: bool): seq<Field>
    requires v.Obj? && n <= |v.fields|
    decreases v, 0, n
  {
    if n == 0 then [] else
    var front, f := FieldsUpTo(rt, v, n - 1, strip), v.fields[n - 1];
    if strip && HeaderKey(rt, f.key) then front else Put(front, Repaired(f.key), SanitizedField(rt, f.key, f.value))
  }

  /** sanitizeSensitiveEventField. */
  function SanitizedField(rt: Runtime, key: Str, v: Value): Value
    decreases v, 3, 0
  {
    if ServerList(rt, key) then
      if v.Arr? then Arr(ServersUpTo(rt, v, |v.elements|)) else Sanitized(rt, v)
    else if Sensitive(rt, key) then Text(rt.names.redacted)
    else Sanitized(rt, v)
  }

  /** sanitizeSessionMcpServerList and sanitizeMcpCredentialUpdateList. */
  function ServersUpTo(rt: Runtime, v: Value, n: nat): (r: seq<Value>)
    requires v.Arr? && n <= |v.elements|
    ensures |r| == n
    decreases v, 0, n
  {
    if n == 0 then [] else ServersUpTo(rt, v, n - 1) + [SanitizedServer(rt, v.elements[n - 1])]
  }

  function SanitizedServer(rt: Runtime, item: Value): Value
    decreases item, 3, 0
  {
    if !item.Obj? then Sanitized(rt, item)
    else
      var cleaned := FieldsUpTo(rt, item, |item.fields|, true);
      var named := HeaderNames(rt, Get(item.fields, rt.names.headers));
      var names := if named.Some? then named else HeaderNames(rt, Get(item.fields, rt.names.headersEncrypted));
      Obj(if names.Some? then Put(cleaned, rt.names.headerNames, names.value) else cleaned)
  }

  // ---------------------------------------------------------------- every string and key is clean

  predicate CleanTree(v: Value) {
    match v
    case Text(s) => Clean(s)
    case Leaf(_) => true
    case Arr(elements) => forall i | 0 <= i < |elements| :: CleanTree(elements[i])
    case Obj(fields) => forall i | 0 <= i < |fields| :: Clean(fields[i].key) && CleanTree(fields[i].value)
  }

  predicate CleanFields(fields: seq<Field>) {
    forall i | 0 <= i < |fields| :: Clean(fields[i].key) && CleanTree(fields[i].value)
  }

  lemma {:induction false} PutIsClean(fields: seq<Field>, key: Str, value: Value)
    requires CleanFields(fields) && Clean(key) && CleanTree(value)
    ensures CleanFields(Put(fields, key, value))
  {
    if fields != [] && fields[0].key != key { PutIsClean(fields[1..], key, value); }
  }

  lemma {:induction false} PlainIsClean(s: Str)
    requires forall i | 0 <= i < |s| :: 0 < s[i] < 0x80
    ensures Clean(s)
  {
    if s != [] { PlainIsClean(s[1..]); }
  }

  lemma {:induction false} TextsAreClean(strings: seq<Str>)
    requires forall s | s in strings :: Clean(s)
    ensures CleanTree(Arr(Texts(strings)))
  {
    if strings != [] {
      TextsAreClean(strings[1..]);
      var rest := Texts(strings[1..]);
      forall i | 0 <= i < |Texts(strings)| ensures CleanTree(Texts(strings)[i]) {
        if i > 0 { assert Texts(strings)[i] == rest[i - 1] && CleanTree(Arr(rest)); }
      }
    }
  }

  lemma {:induction false} KeyTextsAreClean(fields: seq<Field>)
    ensures forall s | s in KeyTexts(fields) :: Clean(s)
  {
    if fields != [] {
      RepairedIsClean(fields[0].key);
      KeyTextsAreClean(fields[1..]);
    }
  }

  lemma HeaderNamesAreClean(rt: Runtime, v: Option<Value>)
    requires RuntimeOk(rt)
    ensures HeaderNames(rt, v).Some? ==> CleanTree(HeaderNames(rt, v).value)
  {
    if v.Some? && v.value.Obj? {
      var names := KeyTexts(v.value.fields);
      KeyTextsAreClean(v.value.fields);
      forall s | s in rt.sort(names) ensures Clean(s) { assert s in multiset(rt.sort(names)); }
      TextsAreClean(rt.sort(names));
    }
  }

  /** Whatever the payload, every string and every key of the result is clean. */
  lemma {:induction false} EveryStringIsClean(rt: Runtime, v: Value)
    requires RuntimeOk(rt)
    ensures CleanTree(Sanitized(rt, v))
    decreases v, 2, 0
  {
    match v
    case Text(s) => RepairedIsClean(s);
    case Leaf(_) =>
    case Arr(elements) => ElementsAreClean(rt, v, |elements|);
    case Obj(fields) => FieldsAreClean(rt, v, |fields|, false);
  }

  lemma {:induction false} ElementsAreClean(rt: Runtime, v: Value, n: nat)
    requires RuntimeOk(rt) && v.Arr? && n <= |v.elements|
    ensures CleanTree(Arr(ElementsUpTo(rt, v, n))) && CleanTree(Arr(ServersUpTo(rt, v, n)))
    decreases v, 0, n
  {
    if n > 0 {
      ElementsAreClean(rt, v, n - 1);
      EveryStringIsClean(rt, v.elements[n - 1]);
      ServerIsClean(rt, v.elements[n - 1]);
      AppendIsClean(ElementsUpTo(rt, v, n - 1), Sanitized(rt, v.elements[n - 1]));
      AppendIsClean(ServersUpTo(rt, v, n - 1), SanitizedServer(rt, v.elements[n - 1]));
    }
  }

  lemma AppendIsClean(elements: seq<Value>, v: Value)
    requires CleanTree(Arr(elements)) && CleanTree(v)
    ensures CleanTree(Arr(elements + [v]))
  {
  }

  lemma {:induction false} FieldsAreClean(rt: Runtime, v: Value, n: nat, strip: bool)
    requires RuntimeOk(rt) && v.Obj? && n <= |v.fields|
    ensures CleanFields(FieldsUpTo(rt, v, n, strip))
    decreases v, 0, n
  {
    if n > 0 {
      var f := v.fields[n - 1];
      FieldsAreClean(rt, v, n - 1, strip);
      RepairedIsClean(f.key);
      FieldIsClean(rt, f.key, f.value);
      PutIsClean(FieldsUpTo(rt, v, n - 1, strip), Repaired(f.key), SanitizedField(rt, f.key, f.value));
    }
  }

  lemma {:induction false} FieldIsClean(rt: Runtime, key: Str, v: Value)
    requires RuntimeOk(rt)
    ensures CleanTree(SanitizedField(rt, key, v))
    decreases v, 3, 0
  {
    if ServerList(rt, key) && v.Arr? { ElementsAreClean(rt, v, |v.elements|); } else { EveryStringIsClean(rt, v); }
  }

  lemma {:induction false} ServerIsClean(rt: Runtime, item: Value)
    requires RuntimeOk(rt)
    ensures CleanTree(SanitizedServer(rt, item))
    decreases item, 3, 0
  {
    if item.Obj? {
      var cleaned := FieldsUpTo(rt, item, |item.fields|, true);
      FieldsAreClean(rt, item, |item.fields|, true);
      HeaderNamesAreClean(rt, Get(item.fields, rt.names.headers));
      HeaderNamesAreClean(rt, Get(item.fields, rt.names.headersEncrypted));
      var server := SanitizedServer(rt, item);
      if server != Obj(cleaned) {
        var named := HeaderNames(rt, Get(item.fields, rt.names.headers));
        var names := if named.Some? then named else HeaderNames(rt, Get(item.fields, rt.names.headersEncrypted));
        PutIsClean(cleaned, rt.names.headerNames, names.value);
      }
    } else {
      EveryStringIsClean(rt, item);
    }
  }

  lemma {:induction false} PutThenGet(fields: seq<Field>, key: Str, value: Value)
    ensures Get(Put(fields, key, value), key) == Some(value)
  {
    if fields != [] && fields[0].key != key { PutThenGet(fields[1..], key, value); }
  }

  /** A listed server keeps the names of its headers, repaired and sorted; its plain headers go
      before its encrypted ones. */
  lemma ServersListTheirHeaderNames(rt: Runtime, item: Value, headers: Value)
    requires item.Obj? && headers.Obj?
    requires var plain := Get(item.fields, rt.names.headers);
             if plain.Some? && plain.value.Obj? then plain.value == headers
             else Get(item.fields, rt.names.headersEncrypted) == Some(headers)
    ensures SanitizedServer(rt, item).Obj?
    ensures Get(SanitizedServer(rt, item).fields, rt.names.headerNames)
            == Some(Arr(Texts(rt.sort(KeyTexts(headers.fields)))))
  {
    PutThenGet(FieldsUpTo(rt, item, |item.fields|, true), rt.names.headerNames,
               Arr(Texts(rt.sort(KeyTexts(headers.fields)))));
  }

  // ---------------------------------------------------------------- walking twice

  ghost predicate DistinctKeys(fields: seq<Field>) {
    forall i, j | 0 <= i < j < |fields| :: fields[i].key != fields[j].key
  }

  ghost predicate NoHeaders(rt: Runtime, v: Value) {
    v.Obj? ==> forall i | 0 <= i < |v.fields| :: !HeaderKey(rt, v.fields[i].key)
  }

  /** A tree the walk leaves as it is: clean, redacted, and with no headers on listed servers. */
  ghost predicate Settled(rt: Runtime, v: Value)
    decreases v, 0
  {
    match v
    case Text(s) => Clean(s)
    case Leaf(_) => true
    case Arr(elements) => forall i | 0 <= i < |elements| :: Settled(rt, elements[i])
    case Obj(fields) =>
      DistinctKeys(fields)
      && forall i | 0 <= i < |fields| :: Clean(fields[i].key) && SettledField(rt, fields[i].key, fields[i].value)
  }

  ghost predicate SettledField(rt: Runtime, key: Str, v: Value)
    decreases v, 1
  {
    if ServerList(rt, key) then
      Settled(rt, v) && (v.Arr? ==> forall i | 0 <= i < |v.elements| :: NoHeaders(rt, v.elements[i]))
    else if Sensitive(rt, key) then v == Text(rt.names.redacted)
    else Settled(rt, v)
  }

  lemma {:induction false} SettledStays(rt: Runtime, v: Value)
    requires Settled(rt, v)
    ensures Sanitized(rt, v) == v
    decreases v, 2, 0
  {
    match v
    case Text(s) => CleanIsKept(s);
    case Leaf(_) =>
    case Arr(elements) => SettledElementsStay(rt, v, |elements|); assert elements[..|elements|] == elements;
    case Obj(fields) => SettledFieldsStay(rt, v, |fields|, false); assert fields[..|fields|] == fields;
  }

  lemma {:induction false} SettledElementsStay(rt: Runtime, v: Value, n: nat)
    requires v.Arr? && Settled(rt, v) && n <= |v.elements|
    ensures ElementsUpTo(rt, v, n) == v.elements[..n]
    ensures (forall i | 0 <= i < n :: NoHeaders(rt, v.elements[i])) ==> ServersUpTo(rt, v, n) == v.elements[..n]
    decreases v, 0, n
  {
    if n > 0 {
      SettledElementsStay(rt, v, n - 1);
      SettledStays(rt, v.elements[n - 1]);
      if NoHeaders(rt, v.elements[n - 1]) { SettledServerStays(rt, v.elements[n - 1]); }
    }
  }

  lemma {:induction false} PutAppends(fields: seq<Field>, key: Str, value: Value)
    requires forall i | 0 <= i < |fields| :: fields[i].key != key
    ensures Put(fields, key, value) == fields + [Field(key, value)]
  {
    if fields != [] { PutAppends(fields[1..], key, value); }
  }

  lemma KnownField(rt: Runtime, v: Value, i: nat, strip: bool)
    requires v.Obj? && i < |v.fields| && Settled(rt, v) && (strip ==> NoHeaders(rt, v))
    ensures Clean(v.fields[i].key) && SettledField(rt, v.fields[i].key, v.fields[i].value)
    ensures forall j | 0 <= j < i :: v.fields[j].key != v.fields[i].key
    ensures strip ==> !HeaderKey(rt, v.fields[i].key)
  {
  }

  lemma {:induction false} SettledFieldsStay(rt: Runtime, v: Value, n: nat, strip: bool)
    requires v.Obj? && Settled(rt, v) && n <= |v.fields| && (strip ==> NoHeaders(rt, v))
    ensures FieldsUpTo(rt, v, n, strip) == v.fields[..n]
    decreases v, 0, n
  {
    if n > 0 {
      hide *;
      var f := v.fields[n - 1];
      SettledFieldsStay(rt, v, n - 1, strip);
      KnownField(rt, v, n - 1, strip);
      SettledFieldStays(rt, f.key, f.value);
      OneMoreStays(rt, v, n, strip);
    }
  }

  lemma OneMoreStays(rt: Runtime, v: Value, n: nat, strip: bool)
    requires v.Obj? && 0 < n <= |v.fields| && FieldsUpTo(rt, v, n - 1, strip) == v.fields[..n - 1]
    requires var f := v.fields[n - 1];
             Clean(f.key) && SanitizedField(rt, f.key, f.value) == f.value && (strip ==> !HeaderKey(rt, f.key))
    requires forall i | 0 <= i < n - 1 :: v.fields[i].key != v.fields[n - 1].key
    ensures FieldsUpTo(rt, v, n, strip) == v.fields[..n]
  {
    hide Clean, SanitizedField, HeaderKey, Put;
    var f := v.fields[n - 1];
    CleanIsKept(f.key);
    PutAppends(v.fields[..n - 1], f.key, f.value);
  }

  lemma {:induction false} SettledFieldStays(rt: Runtime, key: Str, v: Value)
    requires SettledField(rt, key, v)
    ensures SanitizedField(rt, key, v) == v
    decreases v, 3, 0
  {
    if ServerList(rt, key) && v.Arr? {
      SettledElementsStay(rt, v, |v.elements|);
      assert v.elements[..|v.elements|] == v.elements;
    } else if ServerList(rt, key) || !Sensitive(rt, key) {
      SettledStays(rt, v);
    }
  }

  lemma {:induction false} NoSuchField(fields: seq<Field>, key: Str)
    requires forall i | 0 <= i < |fields| :: fields[i].key != key
    ensures Get(fields, key).None?
  {
    if fields != [] { NoSuchField(fields[1..], key); }
  }

  lemma {:induction false} SettledServerStays(rt: Runtime, item: Value)
    requires Settled(rt, item) && NoHeaders(rt, item)
    ensures SanitizedServer(rt, item) == item
    decreases item, 3, 0
  {
    if item.Obj? {
      SettledFieldsStay(rt, item, |item.fields|, true);
      assert item.fields[..|item.fields|] == item.fields;
      NoSuchField(item.fields, rt.names.headers);
      NoSuchField(item.fields, rt.names.headersEncrypted);
    } else {
      SettledStays(rt, item);
    }
  }

  // ---------------------------------------------------------------- one walk settles

  /** Every key of the tree is clean; its strings may be anything. */
  predicate CleanKeys(v: Value) {
    match v
    case Text(_) => true
    case Leaf(_) => true
    case Arr(elements) => forall i | 0 <= i < |elements| :: CleanKeys(elements[i])
    case Obj(fields) => forall i | 0 <= i < |fields| :: Clean(fields[i].key) && CleanKeys(fields[i].value)
  }

  ghost predicate SettledFields(rt: Runtime, fields: seq<Field>) {
    DistinctKeys(fields)
    && forall i | 0 <= i < |fields| :: Clean(fields[i].key) && SettledField(rt, fields[i].key, fields[i].value)
  }

  lemma {:induction false} PutKeys(fields: seq<Field>, key: Str, value: Value, other: Str)
    requires key != other && forall i | 0 <= i < |fields| :: fields[i].key != other
    ensures forall i | 0 <= i < |Put(fields, key, value)| :: Put(fields, key, value)[i].key != other
  {
    if fields != [] && fields[0].key != key { PutKeys(fields[1..], key, value, other); }
  }

  lemma {:induction false} PutSettles(rt: Runtime, fields: seq<Field>, key: Str, value: Value)
    requires SettledFields(rt, fields) && Clean(key) && SettledField(rt, key, value)
    ensures SettledFields(rt, Put(fields, key, value))
  {
    if fields != [] && fields[0].key != key {
      PutSettles(rt, fields[1..], key, value);
      PutKeys(fields[1..], key, value, fields[0].key);
    }
  }

  lemma {:induction false} OneWalkSettles(rt: Runtime, v: Value)
    requires RuntimeOk(rt) && CleanKeys(v)
    ensures Settled(rt, Sanitized(rt, v))
    decreases v, 2, 0
  {
    match v
    case Text(s) => RepairedIsClean(s);
    case Leaf(_) =>
    case Arr(elements) => ElementsSettle(rt, v, |elements|);
    case Obj(fields) => FieldsSettle(rt, v, |fields|, false);
  }

  ghost predicate SettledServers(rt: Runtime, servers: seq<Value>) {
    Settled(rt, Arr(servers)) && forall i | 0 <= i < |servers| :: NoHeaders(rt, servers[i])
  }

  lemma {:induction false} ElementsSettle(rt: Runtime, v: Value, n: nat)
    requires RuntimeOk(rt) && v.Arr? && CleanKeys(v) && n <= |v.elements|
    ensures Settled(rt, Arr(ElementsUpTo(rt, v, n))) && SettledServers(rt, ServersUpTo(rt, v, n))
    decreases v, 0, n
  {
    if n > 0 {
      var item := v.elements[n - 1];
      ElementsSettle(rt, v, n - 1);
      OneWalkSettles(rt, item);
      ServerSettles(rt, item);
      AppendSettles(rt, ElementsUpTo(rt, v, n - 1), Sanitized(rt, item));
      AppendSettles(rt, ServersUpTo(rt, v, n - 1), SanitizedServer(rt, item));
    }
  }

  lemma AppendSettles(rt: Runtime, elements: seq<Value>, v: Value)
    requires Settled(rt, Arr(elements)) && Settled(rt, v)
    ensures Settled(rt, Arr(elements + [v]))
  {
  }

  lemma {:induction false} FieldsSettle(rt: Runtime, v: Value, n: nat, strip: bool)
    requires RuntimeOk(rt) && v.Obj? && CleanKeys(v) && n <= |v.fields|
    ensures SettledFields(rt, FieldsUpTo(rt, v, n, strip))
    decreases v, 0, n
  {
    hide *;
    if n == 0 {
      NothingToSettle(rt, v, strip);
    } else {
      var f := v.fields[n - 1];
      CleanField(v, n - 1);
      FieldsSettle(rt, v, n - 1, strip);
      FieldSettles(rt, f.key, f.value);
      OneMoreSettles(rt, v, n, strip);
    }
  }

  lemma CleanField(v: Value, i: nat)
    requires v.Obj? && CleanKeys(v) && i < |v.fields|
    ensures Clean(v.fields[i].key) && CleanKeys(v.fields[i].value)
  {
  }

  lemma NothingToSettle(rt: Runtime, v: Value, strip: bool)
    requires v.Obj?
    ensures SettledFields(rt, FieldsUpTo(rt, v, 0, strip))
  {
  }

  lemma OneMoreSettles(rt: Runtime, v: Value, n: nat, strip: bool)
    requires v.Obj? && 0 < n <= |v.fields| && SettledFields(rt, FieldsUpTo(rt, v, n - 1, strip))
    requires var f := v.fields[n - 1]; Clean(f.key) && SettledField(rt, f.key, SanitizedField(rt, f.key, f.value))
    ensures SettledFields(rt, FieldsUpTo(rt, v, n, strip))
  {
    hide Clean, Settled, SettledField, SettledFields, Sanitized, SanitizedField, HeaderKey, Put;
    var f := v.fields[n - 1];
    CleanIsKept(f.key);
    PutSettles(rt, FieldsUpTo(rt, v, n - 1, strip), f.key, SanitizedField(rt, f.key, f.value));
  }

  lemma {:induction false} HeadersGo(rt: Runtime, v: Value, n: nat)
    requires v.Obj? && CleanKeys(v) && n <= |v.fields|
    ensures NoHeaders(rt, Obj(FieldsUpTo(rt, v, n, true)))
    decreases v, 0, n
  {
    if n > 0 {
      var f, front := v.fields[n - 1], FieldsUpTo(rt, v, n - 1, true);
      hide Clean, Sanitized, SanitizedField, HeaderKey, Put;
      HeadersGo(rt, v, n - 1);
      CleanIsKept(f.key);
      if !HeaderKey(rt, f.key) { PutNoHeaders(rt, front, f.key, SanitizedField(rt, f.key, f.value)); }
    }
  }

  lemma PutNoHeaders(rt: Runtime, fields: seq<Field>, key: Str, value: Value)
    requires NoHeaders(rt, Obj(fields)) && !HeaderKey(rt, key)
    ensures NoHeaders(rt, Obj(Put(fields, key, value)))
  {
    PutKeys(fields, key, value, rt.names.headers);
    PutKeys(fields, key, value, rt.names.headersEncrypted);
  }

  lemma {:induction false} FieldSettles(rt: Runtime, key: Str, v: Value)
    requires RuntimeOk(rt) && CleanKeys(v)
    ensures SettledField(rt, key, SanitizedField(rt, key, v))
    decreases v, 3, 0
  {
    if ServerList(rt, key) && v.Arr? { ElementsSettle(rt, v, |v.elements|); } else { OneWalkSettles(rt, v); }
    assert ServerList(rt, key) && !v.Arr? ==> !Sanitized(rt, v).Arr?;
  }

  lemma {:induction false} ServerSettles(rt: Runtime, item: Value)
    requires RuntimeOk(rt) && CleanKeys(item)
    ensures Settled(rt, SanitizedServer(rt, item)) && NoHeaders(rt, SanitizedServer(rt, item))
    decreases item, 3, 0
  {
    if item.Obj? {
      var cleaned := FieldsUpTo(rt, item, |item.fields|, true);
      FieldsSettle(rt, item, |item.fields|, true);
      HeadersGo(rt, item, |item.fields|);
      var named := HeaderNames(rt, Get(item.fields, rt.names.headers));
      var names := if named.Some? then named else HeaderNames(rt, Get(item.fields, rt.names.headersEncrypted));
      if names.Some? {
        NamesSettle(rt, Get(item.fields, rt.names.headers));
        NamesSettle(rt, Get(item.fields, rt.names.headersEncrypted));
        PutSettles(rt, cleaned, rt.names.headerNames, names.value);
        PutNoHeaders(rt, cleaned, rt.names.headerNames, names.value);
      }
    } else {
      OneWalkSettles(rt, item);
    }
  }

  lemma NamesSettle(rt: Runtime, v: Option<Value>)
    requires RuntimeOk(rt)
    ensures HeaderNames(rt, v).Some? ==> SettledField(rt, rt.names.headerNames, HeaderNames(rt, v).value)
  {
    HeaderNamesAreClean(rt, v);
    if HeaderNames(rt, v).Some? { CleanTextsSettle(rt, rt.sort(KeyTexts(v.value.fields))); }
  }

  lemma {:induction false} CleanTextsSettle(rt: Runtime, strings: seq<Str>)
    requires CleanTree(Arr(Texts(strings)))
    ensures Settled(rt, Arr(Texts(strings)))
  {
    forall i | 0 <= i < |Texts(strings)| ensures Settled(rt, Texts(strings)[i]) {
      TextAt(strings, i);
      assert CleanTree(Texts(strings)[i]);
    }
  }

  lemma {:induction false} TextAt(strings: seq<Str>, i: nat)
    requires i < |Texts(strings)|
    ensures Texts(strings)[i].Text?
  {
    if i > 0 { TextAt(strings[1..], i - 1); }
  }

  /** The walk is idempotent on every tree whose keys are clean. */
  lemma WalkIsIdempotent(rt: Runtime, v: Value)
    requires RuntimeOk(rt) && CleanKeys(v)
    ensures Sanitized(rt, Sanitized(rt, v)) == Sanitized(rt, v)
  {
    OneWalkSettles(rt, v);
    SettledStays(rt, Sanitized(rt, v));
  }

  /** Not on every other: a field whose key becomes a known name only when it is repaired is
      redacted by the second walk only. */
  lemma UncleanKeysNeedTwoWalks(rt: Runtime, key: Str, n: int)
    requires Sensitive(rt, Repaired(key)) && !ServerList(rt, Repaired(key))
    requires !Sensitive(rt, key) && !ServerList(rt, key)
    ensures var v := Obj([Field(key, Leaf(n))]);
            && Sanitized(rt, v) == Obj([Field(Repaired(key), Leaf(n))])
            && Sanitized(rt, Sanitized(rt, v)) == Obj([Field(Repaired(key), Text(rt.names.redacted))])
  {
    var v, w := Obj([Field(key, Leaf(n))]), Obj([Field(Repaired(key), Leaf(n))]);
    assert FieldsUpTo(rt, v, 0, false) == [] && FieldsUpTo(rt, w, 0, false) == [];
    assert v.fields[0] == Field(key, Leaf(n)) && SanitizedField(rt, key, Leaf(n)) == Leaf(n);
    assert FieldsUpTo(rt, v, 1, false) == [Field(Repaired(key), Leaf(n))];
    assert w.fields[0] == Field(Repaired(key), Leaf(n));
    RepairIsIdempotent(key);
    assert FieldsUpTo(rt, w, 1, false) == [Field(Repaired(key), Text(rt.names.redacted))];
  }

  function Lower(u: Unit): Unit {
    if 0x41 <= u <= 0x5A then u + 0x20 else u
  }

  lemma NoSensitiveNameLike(s: Str)
    requires |s| == 11 && s[0] == 0x68
    ensures s !in SourceNames().sensitive
  {
  }

  lemma HeaderNamesName(names: Names)
    requires names == SourceNames()
    ensures Clean(names.redacted) && Clean(names.headerNames)
    ensures names.headerNames !in names.serverLists
    ensures names.headerNames != names.headers && names.headerNames != names.headersEncrypted
    ensures |names.headerNames| == 11 && names.headerNames[0] == 0x68
    ensures forall i | 0 <= i < 11 :: 0x41 <= names.headerNames[i] <= 0x5A || 0x61 <= names.headerNames[i] <= 0x7A
  {
    PlainIsClean(names.redacted);
    PlainIsClean(names.headerNames);
  }

  /** The names of the source, under a `toLowerCase` that lowers ASCII letters, meet the
      assumptions. */
  lemma SourceNamesAreOk(rt: Runtime)
    requires rt.names == SourceNames() && forall strings: seq<Str> :: multiset(rt.sort(strings)) == multiset(strings)
    requires var name, low := rt.names.headerNames, rt.lower(rt.names.headerNames);
             |low| == |name| && forall i | 0 <= i < |name| :: low[i] == Lower(name[i])
    ensures RuntimeOk(rt)
  {
    HeaderNamesName(rt.names);
    var low := rt.lower(rt.names.headerNames);
    NoDashes(low);
    NoSensitiveNameLike(low);
  }

  lemma {:induction false} NoDashes(s: Str)
    requires forall i | 0 <= i < |s| :: s[i] != 0x2D && s[i] != 0x5F
    ensures WithoutDashes(s) == s
  {
    if s != [] { NoDashes(s[1..]); }
  }
}
