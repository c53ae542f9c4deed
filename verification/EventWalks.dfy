/**
 When walking an event payload twice is walking it once.

 The walk decides by a key as it finds it and stores the field under the repaired key, so a
 second walk may treat it otherwise.  `Steady` says, from the payload alone, for which payloads
 it does not.
 */
module EventWalks {
  import opened Wrappers
  import opened EventSanitizer

  /** The names of server lists and header fields are themselves clean. */
  ghost predicate NamesAreClean(rt: Runtime) {
    (forall key | ServerList(rt, key) :: Clean(key)) && (forall key | HeaderKey(rt, key) :: Clean(key))
  }

  // ---------------------------------------------------------------- the condition

  /** Repairing the keys changes the treatment of no field that survives. */
  predicate Steady(rt: Runtime, v: Value)
    decreases v, 2, 0
  {
    match v
    case Text(_) => true
    case Leaf(_) => true
    case Arr(elements) => forall i | 0 <= i < |elements| :: Steady(rt, elements[i])
    case Obj(fields) => SteadyFields(rt, v, |fields|, false, {})
  }

  /** The first `n` fields; a field does not survive if its repaired key is set again later. */
  predicate SteadyFields(rt: Runtime, v: Value, n: nat, strip: bool, later: set<Str>)
    requires v.Obj? && n <= |v.fields|
    decreases v, 0, n
  {
    n == 0 ||
    var f := v.fields[n - 1];
    if strip && HeaderKey(rt, f.key) then SteadyFields(rt, v, n - 1, strip, later)
    else
      && (Repaired(f.key) in later || SteadyField(rt, f.key, f.value))
      && SteadyFields(rt, v, n - 1, strip, later + {Repaired(f.key)})
  }

  predicate SteadyField(rt: Runtime, key: Str, v: Value)
    decreases v, 3, 0
  {
    var repaired := Repaired(key);
    if ServerList(rt, key) then
      if v.Arr? then forall i | 0 <= i < |v.elements| :: SteadyServer(rt, v.elements[i]) else Steady(rt, v)
    else if Sensitive(rt, key) then true
    else if ServerList(rt, repaired) then
      Steady(rt, v) && (v.Arr? ==> forall i | 0 <= i < |v.elements| :: NoHeaderAppears(rt, v.elements[i], false))
    else if Sensitive(rt, repaired) then v.Text? && Repaired(v.s) == rt.names.redacted
    else Steady(rt, v)
  }

  predicate SteadyServer(rt: Runtime, item: Value)
    decreases item, 3, 0
  {
    if !item.Obj? then Steady(rt, item)
    else
      && SteadyFields(rt, item, |item.fields|, true, if ListsHeaders(rt, item) then {rt.names.headerNames} else {})
      && NoHeaderAppears(rt, item, true)
  }

  /** None of the first `n` fields the walk keeps gets the name of a header field. */
  predicate NoHeaderUpTo(rt: Runtime, v: Value, n: nat, strip: bool)
    requires v.Obj? && n <= |v.fields|
  {
    n == 0 || (((strip && HeaderKey(rt, v.fields[n - 1].key)) || !HeaderKey(rt, Repaired(v.fields[n - 1].key)))
               && NoHeaderUpTo(rt, v, n - 1, strip))
  }

  /** No field gets the name of a header field by being repaired. */
  predicate NoHeaderAppears(rt: Runtime, v: Value, strip: bool) {
    v.Obj? ==> NoHeaderUpTo(rt, v, |v.fields|, strip)
  }

  predicate ListsHeaders(rt: Runtime, item: Value)
    requires item.Obj?
  {
    HeaderNames(rt, Get(item.fields, rt.names.headers)).Some?
    || HeaderNames(rt, Get(item.fields, rt.names.headersEncrypted)).Some?
  }

  // ---------------------------------------------------------------- setting a field

  ghost predicate GoodKeys(fields: seq<Field>) {
    DistinctKeys(fields) && forall i | 0 <= i < |fields| :: Clean(fields[i].key)
  }

  ghost predicate SettledExcept(rt: Runtime, fields: seq<Field>, later: set<Str>) {
    fields == []
    || ((fields[0].key in later || SettledField(rt, fields[0].key, fields[0].value)) && SettledExcept(rt, fields[1..], later))
  }

  lemma {:induction false} PutGoodKeys(fields: seq<Field>, key: Str, value: Value)
    requires GoodKeys(fields) && Clean(key)
    ensures GoodKeys(Put(fields, key, value))
  {
    if fields != [] && fields[0].key != key {
      PutGoodKeys(fields[1..], key, value);
      PutKeys(fields[1..], key, value, fields[0].key);
    }
  }

  lemma {:induction false} KeyAbsent(rt: Runtime, fields: seq<Field>, key: Str, later: set<Str>)
    requires forall i | 0 <= i < |fields| :: fields[i].key != key
    ensures SettledExcept(rt, fields, later + {key}) == SettledExcept(rt, fields, later)
  {
    if fields != [] {
      assert fields[0].key != key;
      KeyAbsent(rt, fields[1..], key, later);
    }
  }

  lemma {:induction false} PutExcept(rt: Runtime, fields: seq<Field>, key: Str, value: Value, later: set<Str>)
    requires DistinctKeys(fields)
    ensures SettledExcept(rt, Put(fields, key, value), later)
            <==> (key in later || SettledField(rt, key, value)) && SettledExcept(rt, fields, later + {key})
  {
    var put := Put(fields, key, value);
    if fields == [] {
      assert put[1..] == [];
    } else if fields[0].key == key {
      assert put[1..] == fields[1..];
      KeyAbsent(rt, fields[1..], key, later);
    } else {
      assert put[1..] == Put(fields[1..], key, value);
      PutExcept(rt, fields[1..], key, value, later);
    }
  }

  lemma {:induction false} PutShowsHeaders(rt: Runtime, fields: seq<Field>, key: Str, value: Value)
    ensures NoHeaders(rt, Obj(Put(fields, key, value))) <==> NoHeaders(rt, Obj(fields)) && !HeaderKey(rt, key)
  {
    var put := Put(fields, key, value);
    if fields == [] || fields[0].key == key {
      assert put[0].key == key && forall i | 1 <= i < |put| :: put[i] == fields[i];
    } else {
      var rest := Put(fields[1..], key, value);
      PutShowsHeaders(rt, fields[1..], key, value);
      assert put[0] == fields[0] && forall i | 0 <= i < |rest| :: put[i + 1] == rest[i];
      assert forall i | 0 <= i < |fields[1..]| :: fields[i + 1] == fields[1..][i];
    }
  }

  // ---------------------------------------------------------------- the condition is exact

  lemma {:induction false} WalkedKeys(rt: Runtime, v: Value, n: nat, strip: bool)
    requires v.Obj? && n <= |v.fields|
    ensures GoodKeys(FieldsUpTo(rt, v, n, strip))
    decreases n
  {
    if n > 0 {
      var f, front := v.fields[n - 1], FieldsUpTo(rt, v, n - 1, strip);
      hide GoodKeys, Clean, SanitizedField, HeaderKey, Put;
      WalkedKeys(rt, v, n - 1, strip);
      RepairedIsClean(f.key);
      PutGoodKeys(front, Repaired(f.key), SanitizedField(rt, f.key, f.value));
    }
  }

  lemma {:induction false} WalkedHeaders(rt: Runtime, v: Value, n: nat, strip: bool)
    requires v.Obj? && n <= |v.fields|
    ensures NoHeaders(rt, Obj(FieldsUpTo(rt, v, n, strip))) <==> NoHeaderUpTo(rt, v, n, strip)
    decreases n
  {
    if n > 0 {
      var f, front := v.fields[n - 1], FieldsUpTo(rt, v, n - 1, strip);
      WalkedHeaders(rt, v, n - 1, strip);
      PutShowsHeaders(rt, front, Repaired(f.key), SanitizedField(rt, f.key, f.value));
    }
  }

  lemma {:induction false} ObjectSettled(rt: Runtime, fields: seq<Field>)
    requires GoodKeys(fields)
    ensures Settled(rt, Obj(fields)) <==> SettledExcept(rt, fields, {})
    decreases |fields|
  {
    if fields != [] {
      var rest := fields[1..];
      ObjectSettled(rt, rest);
      assert forall i | 0 <= i < |rest| :: fields[i + 1] == rest[i];
      assert Settled(rt, Obj(fields)) <==> SettledField(rt, fields[0].key, fields[0].value) && Settled(rt, Obj(rest));
    }
  }

  /** A walked payload is settled exactly when the payload is steady. */
  lemma {:induction false} SteadySettles(rt: Runtime, v: Value)
    requires RuntimeOk(rt) && NamesAreClean(rt)
    ensures Settled(rt, Sanitized(rt, v)) <==> Steady(rt, v)
    decreases v, 2, 0
  {
    match v
    case Text(s) => RepairedIsClean(s);
    case Leaf(_) =>
    case Arr(elements) => SteadyElements(rt, v, |elements|);
    case Obj(fields) =>
      SteadyUpTo(rt, v, |fields|, false, {});
      WalkedKeys(rt, v, |fields|, false);
      ObjectSettled(rt, FieldsUpTo(rt, v, |fields|, false));
  }

  lemma OneMoreSettled(rt: Runtime, elements: seq<Value>, v: Value)
    ensures Settled(rt, Arr(elements + [v])) <==> Settled(rt, Arr(elements)) && Settled(rt, v)
  {
    var all := elements + [v];
    assert all[|elements|] == v && forall i | 0 <= i < |elements| :: all[i] == elements[i];
  }

  ghost predicate NoHeadersIn(rt: Runtime, servers: seq<Value>) {
    forall i | 0 <= i < |servers| :: NoHeaders(rt, servers[i])
  }

  lemma OneMoreServer(rt: Runtime, servers: seq<Value>, v: Value)
    ensures NoHeadersIn(rt, servers + [v]) <==> NoHeadersIn(rt, servers) && NoHeaders(rt, v)
  {
    var all := servers + [v];
    assert all[|servers|] == v && forall i | 0 <= i < |servers| :: all[i] == servers[i];
  }

  lemma {:induction false} SteadyElements(rt: Runtime, v: Value, n: nat)
    requires RuntimeOk(rt) && NamesAreClean(rt) && v.Arr? && n <= |v.elements|
    ensures Settled(rt, Arr(ElementsUpTo(rt, v, n))) <==> forall i | 0 <= i < n :: Steady(rt, v.elements[i])
    decreases v, 0, n
  {
    hide *;
    if n == 0 {
      NoneSettled(rt);
    } else {
      SteadyElements(rt, v, n - 1);
      SteadySettles(rt, v.elements[n - 1]);
      ElementsStep(rt, v, n);
      OneMoreSettled(rt, ElementsUpTo(rt, v, n - 1), Sanitized(rt, v.elements[n - 1]));
    }
  }

  lemma NoneSettled(rt: Runtime)
    ensures Settled(rt, Arr([])) && NoHeadersIn(rt, [])
  {
  }

  lemma ElementsStep(rt: Runtime, v: Value, n: nat)
    requires v.Arr? && 0 < n <= |v.elements|
    ensures ElementsUpTo(rt, v, n) == ElementsUpTo(rt, v, n - 1) + [Sanitized(rt, v.elements[n - 1])]
    ensures ServersUpTo(rt, v, n) == ServersUpTo(rt, v, n - 1) + [SanitizedServer(rt, v.elements[n - 1])]
  {
  }

  lemma {:induction false} SteadyServers(rt: Runtime, v: Value, n: nat)
    requires RuntimeOk(rt) && NamesAreClean(rt) && v.Arr? && n <= |v.elements|
    ensures var servers := ServersUpTo(rt, v, n);
            Settled(rt, Arr(servers)) && NoHeadersIn(rt, servers)
            <==> forall i | 0 <= i < n :: SteadyServer(rt, v.elements[i])
    decreases v, 0, n
  {
    hide *;
    if n == 0 {
      NoneSettled(rt);
    } else {
      SteadyServers(rt, v, n - 1);
      ServerSteady(rt, v.elements[n - 1]);
      ElementsStep(rt, v, n);
      OneMoreSettled(rt, ServersUpTo(rt, v, n - 1), SanitizedServer(rt, v.elements[n - 1]));
      OneMoreServer(rt, ServersUpTo(rt, v, n - 1), SanitizedServer(rt, v.elements[n - 1]));
    }
  }

  /** The last of the first `n` fields, when the walk keeps it. */
  lemma WalkedOne(rt: Runtime, v: Value, n: nat, strip: bool, later: set<Str>)
    requires v.Obj? && 0 < n <= |v.fields| && !(strip && HeaderKey(rt, v.fields[n - 1].key))
    ensures var f := v.fields[n - 1];
            var key := Repaired(f.key);
            && FieldsUpTo(rt, v, n, strip) == Put(FieldsUpTo(rt, v, n - 1, strip), key, SanitizedField(rt, f.key, f.value))
            && (SteadyFields(rt, v, n, strip, later) <==>
                  (key in later || SteadyField(rt, f.key, f.value)) && SteadyFields(rt, v, n - 1, strip, later + {key}))
  {
  }

  lemma PutWalked(rt: Runtime, v: Value, n: nat, strip: bool, key: Str, value: Value, later: set<Str>)
    requires v.Obj? && n <= |v.fields|
    ensures var front := FieldsUpTo(rt, v, n, strip);
            SettledExcept(rt, Put(front, key, value), later)
            <==> (key in later || SettledField(rt, key, value)) && SettledExcept(rt, front, later + {key})
  {
    WalkedKeys(rt, v, n, strip);
    PutExcept(rt, FieldsUpTo(rt, v, n, strip), key, value, later);
  }

  lemma {:induction false} SteadyKept(rt: Runtime, v: Value, n: nat, strip: bool, later: set<Str>)
    requires RuntimeOk(rt) && NamesAreClean(rt) && v.Obj? && 0 < n <= |v.fields|
    requires !(strip && HeaderKey(rt, v.fields[n - 1].key))
    ensures SettledExcept(rt, FieldsUpTo(rt, v, n, strip), later) <==> SteadyFields(rt, v, n, strip, later)
    decreases v, 0, 2 * n
  {
    hide *;
    var f := v.fields[n - 1];
    var key, value := Repaired(f.key), SanitizedField(rt, f.key, f.value);
    SteadyUpTo(rt, v, n - 1, strip, later + {key});
    FieldSteady(rt, f.key, f.value);
    PutWalked(rt, v, n - 1, strip, key, value, later);
    WalkedOne(rt, v, n, strip, later);
  }

  lemma {:induction false} SteadyStripped(rt: Runtime, v: Value, n: nat, later: set<Str>)
    requires RuntimeOk(rt) && NamesAreClean(rt) && v.Obj? && 0 < n <= |v.fields|
    requires HeaderKey(rt, v.fields[n - 1].key)
    ensures SettledExcept(rt, FieldsUpTo(rt, v, n, true), later) <==> SteadyFields(rt, v, n, true, later)
    decreases v, 0, 2 * n
  {
    hide *;
    SteadyUpTo(rt, v, n - 1, true, later);
    StrippedOne(rt, v, n, later);
  }

  lemma StrippedOne(rt: Runtime, v: Value, n: nat, later: set<Str>)
    requires v.Obj? && 0 < n <= |v.fields| && HeaderKey(rt, v.fields[n - 1].key)
    ensures FieldsUpTo(rt, v, n, true) == FieldsUpTo(rt, v, n - 1, true)
    ensures SteadyFields(rt, v, n, true, later) <==> SteadyFields(rt, v, n - 1, true, later)
  {
  }

  /** The fields walked so far are settled, but for those set again later, exactly when they
      are steady. */
  lemma {:induction false} SteadyUpTo(rt: Runtime, v: Value, n: nat, strip: bool, later: set<Str>)
    requires RuntimeOk(rt) && NamesAreClean(rt) && v.Obj? && n <= |v.fields|
    ensures SettledExcept(rt, FieldsUpTo(rt, v, n, strip), later) <==> SteadyFields(rt, v, n, strip, later)
    decreases v, 0, 2 * n + 1
  {
    if n > 0 {
      if strip && HeaderKey(rt, v.fields[n - 1].key) {
        SteadyStripped(rt, v, n, later);
      } else {
        SteadyKept(rt, v, n, strip, later);
      }
    }
  }

  lemma {:induction false} FieldSteady(rt: Runtime, key: Str, v: Value)
    requires RuntimeOk(rt) && NamesAreClean(rt)
    ensures SettledField(rt, Repaired(key), SanitizedField(rt, key, v)) <==> SteadyField(rt, key, v)
    decreases v, 3, 0
  {
    if ServerList(rt, key) { CleanIsKept(key); }
    if ServerList(rt, key) && v.Arr? {
      SteadyServers(rt, v, |v.elements|);
    } else {
      SteadySettles(rt, v);
      if v.Arr? { HeadersAppear(rt, v, |v.elements|); }
    }
  }

  lemma {:induction false} HeadersAppear(rt: Runtime, v: Value, n: nat)
    requires v.Arr? && n <= |v.elements|
    ensures NoHeadersIn(rt, ElementsUpTo(rt, v, n)) <==> forall i | 0 <= i < n :: NoHeaderAppears(rt, v.elements[i], false)
    decreases n
  {
    hide *;
    if n == 0 {
      NoneSettled(rt);
    } else {
      var item := v.elements[n - 1];
      HeadersAppear(rt, v, n - 1);
      HeadersOfOne(rt, item);
      ElementsStep(rt, v, n);
      OneMoreServer(rt, ElementsUpTo(rt, v, n - 1), Sanitized(rt, item));
    }
  }

  lemma HeadersOfOne(rt: Runtime, item: Value)
    ensures NoHeaders(rt, Sanitized(rt, item)) <==> NoHeaderAppears(rt, item, false)
  {
    if item.Obj? { WalkedHeaders(rt, item, |item.fields|, false); }
  }

  lemma {:induction false} ServerSteady(rt: Runtime, item: Value)
    requires RuntimeOk(rt) && NamesAreClean(rt)
    ensures Settled(rt, SanitizedServer(rt, item)) && NoHeaders(rt, SanitizedServer(rt, item)) <==> SteadyServer(rt, item)
    decreases item, 3, 0
  {
    if !item.Obj? {
      SteadySettles(rt, item);
    } else {
      var cleaned := FieldsUpTo(rt, item, |item.fields|, true);
      var named := HeaderNames(rt, Get(item.fields, rt.names.headers));
      var names := if named.Some? then named else HeaderNames(rt, Get(item.fields, rt.names.headersEncrypted));
      WalkedKeys(rt, item, |item.fields|, true);
      WalkedHeaders(rt, item, |item.fields|, true);
      if names.Some? {
        SteadyUpTo(rt, item, |item.fields|, true, {rt.names.headerNames});
        NamesSettle(rt, Get(item.fields, rt.names.headers));
        NamesSettle(rt, Get(item.fields, rt.names.headersEncrypted));
        HeaderNamesPut(rt, cleaned, names.value);
      } else {
        SteadyUpTo(rt, item, |item.fields|, true, {});
        ObjectSettled(rt, cleaned);
      }
    }
  }

  lemma HeaderNamesPut(rt: Runtime, cleaned: seq<Field>, names: Value)
    requires RuntimeOk(rt) && GoodKeys(cleaned) && SettledField(rt, rt.names.headerNames, names)
    ensures var put := Put(cleaned, rt.names.headerNames, names);
            && (Settled(rt, Obj(put)) <==> SettledExcept(rt, cleaned, {rt.names.headerNames}))
            && (NoHeaders(rt, Obj(put)) <==> NoHeaders(rt, Obj(cleaned)))
  {
    PutGoodKeys(cleaned, rt.names.headerNames, names);
    PutExcept(rt, cleaned, rt.names.headerNames, names, {});
    PutShowsHeaders(rt, cleaned, rt.names.headerNames, names);
    assert {} + {rt.names.headerNames} == {rt.names.headerNames};
    ObjectSettled(rt, Put(cleaned, rt.names.headerNames, names));
  }

  lemma {:induction false} CleanTreesHaveCleanKeys(v: Value)
    requires CleanTree(v)
    ensures CleanKeys(v)
  {
    match v
    case Text(_) =>
    case Leaf(_) =>
    case Arr(elements) => forall i | 0 <= i < |elements| ensures CleanKeys(elements[i]) { CleanTreesHaveCleanKeys(elements[i]); }
    case Obj(fields) => forall i | 0 <= i < |fields| ensures CleanKeys(fields[i].value) { CleanTreesHaveCleanKeys(fields[i].value); }
  }

  /** A second walk changes nothing exactly when repairing the keys changes the treatment of no
      field that survives. */
  lemma IdempotentExactlyWhenSteady(rt: Runtime, v: Value)
    requires RuntimeOk(rt) && NamesAreClean(rt)
    ensures Sanitized(rt, Sanitized(rt, v)) == Sanitized(rt, v) <==> Steady(rt, v)
  {
    var walked := Sanitized(rt, v);
    SteadySettles(rt, v);
    if Settled(rt, walked) {
      SettledStays(rt, walked);
    } else {
      EveryStringIsClean(rt, v);
      CleanTreesHaveCleanKeys(walked);
      OneWalkSettles(rt, walked);
    }
  }

  /** Payloads with clean keys are steady, whatever their strings. */
  lemma CleanKeysAreSteady(rt: Runtime, v: Value)
    requires RuntimeOk(rt) && NamesAreClean(rt) && CleanKeys(v)
    ensures Steady(rt, v)
  {
    OneWalkSettles(rt, v);
    SteadySettles(rt, v);
  }

  // ---------------------------------------------------------------- the names of the source

  lemma SourceNamesAreClean(rt: Runtime)
    requires rt.names == SourceNames()
    ensures NamesAreClean(rt)
  {
    forall key | ServerList(rt, key) || HeaderKey(rt, key) ensures Clean(key) { PlainIsClean(key); }
  }

  ghost predicate Plain(s: Str) {
    forall i | 0 <= i < |s| :: s[i] != 0 && !High(s[i]) && !Low(s[i])
  }

  /** A NUL between plain units is dropped. */
  lemma {:induction false} NulIsDropped(front: Str, back: Str)
    requires Plain(front) && Plain(back)
    ensures Repaired(front + [0] + back) == front + back
    decreases |front|
  {
    var s := front + [0] + back;
    RepairedStep(s);
    if front == [] {
      assert s[1..] == back && Taken(s) == 1 && Piece(s) == [];
      NothingToRepair(back);
      assert [] + back == back;
    } else {
      assert s[1..] == front[1..] + [0] + back && Taken(s) == 1 && Piece(s) == [front[0]];
      NulIsDropped(front[1..], back);
      assert front + back == [front[0]] + (front[1..] + back);
    }
  }

  lemma TokenIsSensitive(names: Names, token: Str, split: Str)
    requires names == SourceNames() && token == Ascii("token") && |split| == 6 && split[2] == 0
    ensures token in names.sensitive && token !in names.serverLists
    ensures split !in names.sensitive && split !in names.serverLists
  {
    forall key | key in names.serverLists ensures |key| != |token| { }
  }

  /** Such a payload: a field `to\0ken` is kept by the first walk, under the name `token`, and
      redacted by the second. */
  lemma ASplitTokenNeedsTwoWalks(rt: Runtime, token: Str, n: int)
    requires rt.names == SourceNames() && token == Ascii("token")
    requires var split := token[..2] + [0] + token[2..];
             rt.lower(split) == split && rt.lower(token) == token
    ensures var v := Obj([Field(token[..2] + [0] + token[2..], Leaf(n))]);
            && !Steady(rt, v)
            && Sanitized(rt, v) == Obj([Field(token, Leaf(n))])
            && Sanitized(rt, Sanitized(rt, v)) == Obj([Field(token, Text(rt.names.redacted))])
  {
    var split := token[..2] + [0] + token[2..];
    assert token[..2] + token[2..] == token;
    NulIsDropped(token[..2], token[2..]);
    NoDashes(split);
    NoDashes(token);
    TokenIsSensitive(rt.names, token, split);
    UncleanKeysNeedTwoWalks(rt, split, n);
    NotSteady(rt, split, n);
  }

  lemma NotSteady(rt: Runtime, key: Str, n: int)
    requires !ServerList(rt, key) && !Sensitive(rt, key)
    requires !ServerList(rt, Repaired(key)) && Sensitive(rt, Repaired(key))
    ensures !Steady(rt, Obj([Field(key, Leaf(n))]))
  {
    var v := Obj([Field(key, Leaf(n))]);
    assert v.fields[0] == Field(key, Leaf(n)) && !SteadyField(rt, key, Leaf(n));
  }
}
