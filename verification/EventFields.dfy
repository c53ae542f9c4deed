/** What the walk over an event payload makes of each field, by the name it finds. */
module EventFields {
  import opened Wrappers
  import opened EventSanitizer

  // ---------------------------------------------------------------- sensitive names

  /** `s` is `name` with hyphens and underscores anywhere in between. */
  predicate Spells(s: Str, name: Str) {
    if s == [] then name == []
    else if s[0] as int == '-' as int || s[0] as int == '_' as int then Spells(s[1..], name)
    else name != [] && s[0] == name[0] && Spells(s[1..], name[1..])
  }

  lemma {:induction false} StrippedSpells(s: Str, name: Str)
    ensures WithoutDashes(s) == name <==> Spells(s, name)
  {
    if s != [] {
      if s[0] as int == '-' as int || s[0] as int == '_' as int {
        StrippedSpells(s[1..], name);
      } else {
        assert WithoutDashes(s) == [s[0]] + WithoutDashes(s[1..]);
        if name != [] {
          StrippedSpells(s[1..], name[1..]);
          assert name == [name[0]] + name[1..];
        }
      }
    }
  }

  /** A field is sensitive exactly when its name, in lower case, spells one of thirteen. */
  lemma SensitiveExactlyWhen(rt: Runtime, key: Str)
    requires rt.names == SourceNames()
    ensures Sensitive(rt, key) <==>
              exists name | name in {
                Ascii("authorization"), Ascii("headers"), Ascii("accesstoken"), Ascii("refreshtoken"), Ascii("idtoken"),
                Ascii("token"), Ascii("apikey"), Ascii("secret"), Ascii("clientsecret"), Ascii("credential"),
                Ascii("credentialencrypted"), Ascii("encryptedpkceverifier"), Ascii("codeverifier")} ::
                Spells(rt.lower(key), name)
  {
    var lowered, known := rt.lower(key), {
      Ascii("authorization"), Ascii("headers"), Ascii("accesstoken"), Ascii("refreshtoken"), Ascii("idtoken"),
      Ascii("token"), Ascii("apikey"), Ascii("secret"), Ascii("clientsecret"), Ascii("credential"),
      Ascii("credentialencrypted"), Ascii("encryptedpkceverifier"), Ascii("codeverifier")};
    assert rt.names.sensitive == known;
    hide SourceNames, Spells, WithoutDashes, Ascii;
    StrippedSpells(lowered, WithoutDashes(lowered));
    forall name | name in known && Spells(lowered, name) ensures WithoutDashes(lowered) == name { StrippedSpells(lowered, name); }
    assert Sensitive(rt, key) <==> WithoutDashes(lowered) in known;
    assert Sensitive(rt, key) <==> exists name | name in known :: Spells(lowered, name);
  }

  // ---------------------------------------------------------------- one string

  /** A surrogate pair stays, a lone surrogate becomes U+FFFD, NUL goes, all else stays. */
  lemma UnitByUnit(s: Str)
    requires s != []
    ensures var high, low := (u: Unit) => 0xD800 <= u <= 0xDBFF, (u: Unit) => 0xDC00 <= u <= 0xDFFF;
            Repaired(s)
            == if high(s[0]) && |s| > 1 && low(s[1]) then [s[0], s[1]] + Repaired(s[2..])
               else (if high(s[0]) || low(s[0]) then [0xFFFD] else if s[0] == 0 then [] else [s[0]]) + Repaired(s[1..])
  {
    RepairedStep(s);
  }

  // ---------------------------------------------------------------- one value

  /** What is made of the value of one field. */
  lemma FieldIs(rt: Runtime, key: Str, v: Value)
    requires rt.names == SourceNames()
    ensures var list := key == Ascii("mcpServers") || key == Ascii("mcpCredentialUpdates");
            var made := SanitizedField(rt, key, v);
            && (list && v.Arr? ==>
                  && made.Arr? && |made.elements| == |v.elements|
                  && forall i | 0 <= i < |v.elements| :: made.elements[i] == SanitizedServer(rt, v.elements[i]))
            && (!list && Sensitive(rt, key) ==> made == Text(Ascii("[redacted]")))
            && ((list && !v.Arr?) || (!list && !Sensitive(rt, key)) ==> made == Sanitized(rt, v))
  {
    if v.Arr? { ElementsAre(rt, v, |v.elements|); }
  }

  lemma {:induction false} ElementsAre(rt: Runtime, v: Value, n: nat)
    requires v.Arr? && n <= |v.elements|
    ensures forall i | 0 <= i < n :: ElementsUpTo(rt, v, n)[i] == Sanitized(rt, v.elements[i])
    ensures forall i | 0 <= i < n :: ServersUpTo(rt, v, n)[i] == SanitizedServer(rt, v.elements[i])
    decreases n
  {
    if n > 0 { ElementsAre(rt, v, n - 1); }
  }

  /** Strings are repaired, other leaves kept, lists walked element by element in order. */
  lemma ValueIs(rt: Runtime, v: Value)
    ensures match v
            case Text(s) => Sanitized(rt, v) == Text(Repaired(s))
            case Leaf(n) => Sanitized(rt, v) == v
            case Arr(elements) =>
              && Sanitized(rt, v).Arr? && |Sanitized(rt, v).elements| == |elements|
              && forall i | 0 <= i < |elements| :: Sanitized(rt, v).elements[i] == Sanitized(rt, elements[i])
            case Obj(fields) => Sanitized(rt, v).Obj?
  {
    if v.Arr? { ElementsAre(rt, v, |v.elements|); }
  }

  // ---------------------------------------------------------------- the fields of an object

  lemma {:induction false} PutKeepsOthers(fields: seq<Field>, key: Str, value: Value, other: Str)
    requires other != key
    ensures Get(Put(fields, key, value), other) == Get(fields, other)
  {
    if fields != [] && fields[0].key != key { PutKeepsOthers(fields[1..], key, value, other); }
  }

  /** Field `i` is walked, and no later one that is takes its name. */
  predicate Lasts(rt: Runtime, v: Value, n: nat, strip: bool, i: nat)
    requires v.Obj? && n <= |v.fields|
  {
    && i < n && !(strip && HeaderKey(rt, v.fields[i].key))
    && forall j | i < j < n && !(strip && HeaderKey(rt, v.fields[j].key)) ::
         Repaired(v.fields[j].key) != Repaired(v.fields[i].key)
  }

  lemma {:induction false} LastFieldWins(rt: Runtime, v: Value, n: nat, strip: bool, i: nat)
    requires v.Obj? && n <= |v.fields| && Lasts(rt, v, n, strip, i)
    ensures Get(FieldsUpTo(rt, v, n, strip), Repaired(v.fields[i].key))
            == Some(SanitizedField(rt, v.fields[i].key, v.fields[i].value))
    decreases n
  {
    var f, front := v.fields[n - 1], FieldsUpTo(rt, v, n - 1, strip);
    hide SanitizedField, Repaired, HeaderKey;
    if i < n - 1 { LastFieldWins(rt, v, n - 1, strip, i); }
    if !(strip && HeaderKey(rt, f.key)) {
      if i == n - 1 {
        PutThenGet(front, Repaired(f.key), SanitizedField(rt, f.key, f.value));
      } else {
        PutKeepsOthers(front, Repaired(f.key), SanitizedField(rt, f.key, f.value), Repaired(v.fields[i].key));
      }
    }
  }

  lemma {:induction false} NothingElse(rt: Runtime, v: Value, n: nat, strip: bool, key: Str)
    requires v.Obj? && n <= |v.fields|
    requires forall i | 0 <= i < n && !(strip && HeaderKey(rt, v.fields[i].key)) :: Repaired(v.fields[i].key) != key
    ensures Get(FieldsUpTo(rt, v, n, strip), key).None?
    decreases n
  {
    hide SanitizedField, Repaired, HeaderKey;
    if n > 0 {
      var f := v.fields[n - 1];
      NothingElse(rt, v, n - 1, strip, key);
      if !(strip && HeaderKey(rt, f.key)) {
        PutKeepsOthers(FieldsUpTo(rt, v, n - 1, strip), Repaired(f.key), SanitizedField(rt, f.key, f.value), key);
      }
    }
  }

  /** A walked object has the repaired name of every field, with what is made of the last field of
      that name, and no other name. */
  lemma ObjectsAreWalked(rt: Runtime, v: Value, key: Str)
    requires v.Obj?
    ensures var walked := Get(Sanitized(rt, v).fields, key);
            && (forall i | 0 <= i < |v.fields| && Repaired(v.fields[i].key) == key
                           && (forall j | i < j < |v.fields| :: Repaired(v.fields[j].key) != key) ::
                  walked == Some(SanitizedField(rt, v.fields[i].key, v.fields[i].value)))
            && ((forall i | 0 <= i < |v.fields| :: Repaired(v.fields[i].key) != key) ==> walked.None?)
  {
    var n := |v.fields|;
    assert Sanitized(rt, v) == Obj(FieldsUpTo(rt, v, n, false));
    hide Repaired, SanitizedField, Sanitized, FieldsUpTo;
    forall i | 0 <= i < n && Repaired(v.fields[i].key) == key && (forall j | i < j < n :: Repaired(v.fields[j].key) != key)
      ensures Get(FieldsUpTo(rt, v, n, false), key) == Some(SanitizedField(rt, v.fields[i].key, v.fields[i].value))
    {
      LastFieldWins(rt, v, n, false, i);
    }
    if forall i | 0 <= i < n :: Repaired(v.fields[i].key) != key { NothingElse(rt, v, n, false, key); }
  }

  /** A listed server is walked without its two header fields, but for the list of their names. */
  lemma ServersAreWalked(rt: Runtime, item: Value, key: Str)
    requires rt.names == SourceNames() && item.Obj? && key != Ascii("headerNames")
    ensures SanitizedServer(rt, item).Obj?
    ensures var walked := Get(SanitizedServer(rt, item).fields, key);
            var n := |item.fields|;
            && (forall i | 0 <= i < n && Lasts(rt, item, n, true, i) && Repaired(item.fields[i].key) == key ::
                  walked == Some(SanitizedField(rt, item.fields[i].key, item.fields[i].value)))
            && ((forall i | 0 <= i < n && !HeaderKey(rt, item.fields[i].key) :: Repaired(item.fields[i].key) != key) ==>
                  walked.None?)
  {
    var n := |item.fields|;
    var cleaned := FieldsUpTo(rt, item, n, true);
    var named := HeaderNames(rt, Get(item.fields, rt.names.headers));
    var names := if named.Some? then named else HeaderNames(rt, Get(item.fields, rt.names.headersEncrypted));
    if names.Some? { PutKeepsOthers(cleaned, rt.names.headerNames, names.value, key); }
    assert Get(SanitizedServer(rt, item).fields, key) == Get(cleaned, key);
    hide Repaired, SanitizedField, SanitizedServer, FieldsUpTo, HeaderKey, HeaderNames, Get;
    forall i | 0 <= i < n && Lasts(rt, item, n, true, i) && Repaired(item.fields[i].key) == key
      ensures Get(cleaned, key) == Some(SanitizedField(rt, item.fields[i].key, item.fields[i].value))
    {
      LastFieldWins(rt, item, n, true, i);
    }
    if forall i | 0 <= i < n && !HeaderKey(rt, item.fields[i].key) :: Repaired(item.fields[i].key) != key {
      NothingElse(rt, item, n, true, key);
    }
  }

  /** The header fields of a listed server, and the field their names go to. */
  lemma HeaderFieldsAre(rt: Runtime, key: Str)
    requires rt.names == SourceNames()
    ensures HeaderKey(rt, key) <==> key == Ascii("headers") || key == Ascii("headersEncrypted")
    ensures rt.names.headerNames == Ascii("headerNames")
  {
  }

  lemma {:induction false} TextsAre(strings: seq<Str>)
    ensures |Texts(strings)| == |strings| && forall i | 0 <= i < |strings| :: Texts(strings)[i] == Text(strings[i])
  {
    if strings != [] { TextsAre(strings[1..]); }
  }

  /** The list of header names: of an object only, one string each. */
  lemma HeaderNamesAre(rt: Runtime, v: Option<Value>)
    ensures HeaderNames(rt, v).Some? <==> v.Some? && v.value.Obj?
    ensures v.Some? && v.value.Obj? ==>
              var sorted := rt.sort(KeyTexts(v.value.fields));
              HeaderNames(rt, v).value.Arr? && |HeaderNames(rt, v).value.elements| == |sorted|
              && forall i | 0 <= i < |sorted| :: HeaderNames(rt, v).value.elements[i] == Text(sorted[i])
  {
    if v.Some? && v.value.Obj? { TextsAre(rt.sort(KeyTexts(v.value.fields))); }
  }

  /** The names of an object's fields, repaired, in their order, before they are sorted. */
  lemma {:induction false} KeyTextsAre(fields: seq<Field>)
    ensures |KeyTexts(fields)| == |fields| && forall i | 0 <= i < |fields| :: KeyTexts(fields)[i] == Repaired(fields[i].key)
  {
    if fields != [] { KeyTextsAre(fields[1..]); }
  }
}
