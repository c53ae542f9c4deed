/**
 A runtime whose `JSON.stringify` writes one trimmed line that its `JSON.parse` reads back, so
 that what is proved of every such runtime is proved of something.

 A value is listed as natural numbers from which it can be told where it ends, and the numbers
 are written in unary.
 */
module SseRuntime {
  import opened Wrappers
  import opened Text
  import opened SseRepair

  // ---------------------------------------------------------------- values as numbers

  function Abs(n: int): nat {
    if n < 0 then -n else n
  }

  function OfInt(n: int): seq<nat> {
    [if n < 0 then 1 else 0, Abs(n)]
  }

  function OfString(s: string): seq<nat> {
    if s == "" then [0] else [1, s[0] as int] + OfString(s[1..])
  }

  ghost function OfJson(j: Json): seq<nat>
    decreases j, 1, 0
  {
    match j
    case JNull => [0]
    case JBool(b) => [1, if b then 1 else 0]
    case JNum(n) => [2] + OfInt(n.digits) + OfInt(n.exponent)
    case JStr(s) => [3] + OfString(s)
    case JArr(elements) => [4] + OfElements(j, 0)
    case JObj(fields) => [5] + OfFields(j, fields.Keys)
  }

  ghost function OfElements(j: Json, from: nat): seq<nat>
    requires j.JArr? && from <= |j.elements|
    decreases j, 0, |j.elements| - from
  {
    if from == |j.elements| then [0] else [1] + (OfJson(j.elements[from]) + OfElements(j, from + 1))
  }

  ghost function First(names: set<string>): (name: string)
    requires names != {}
    ensures name in names
  {
    var name :| name in names; name
  }

  /** The fields with one of the names, in some order. */
  ghost function OfFields(j: Json, names: set<string>): seq<nat>
    requires j.JObj? && names <= j.fields.Keys
    decreases j, 0, |names|
  {
    if names == {} then [0] else
    var name := First(names);
    [1] + (OfString(name) + (OfJson(j.fields[name]) + OfFields(j, names - {name})))
  }

  lemma StartsAlike(a: nat, x: seq<nat>, b: nat, y: seq<nat>)
    requires [a] + x == [b] + y
    ensures a == b && x == y
  {
    assert ([a] + x)[0] == a && ([b] + y)[0] == b;
    assert ([a] + x)[1..] == x && ([b] + y)[1..] == y;
  }

  lemma IntsTold(a: int, x: seq<nat>, b: int, y: seq<nat>)
    requires OfInt(a) + x == OfInt(b) + y
    ensures a == b && x == y
  {
    var sa, sb := if a < 0 then 1 else 0, if b < 0 then 1 else 0;
    assert OfInt(a) + x == [sa] + ([Abs(a)] + x) && OfInt(b) + y == [sb] + ([Abs(b)] + y);
    StartsAlike(sa, [Abs(a)] + x, sb, [Abs(b)] + y);
    StartsAlike(Abs(a), x, Abs(b), y);
  }

  lemma {:induction false} StringsTold(a: string, x: seq<nat>, b: string, y: seq<nat>)
    requires OfString(a) + x == OfString(b) + y
    ensures a == b && x == y
    decreases |a|
  {
    assert a != "" ==> OfString(a) + x == [1] + ([a[0] as int] + (OfString(a[1..]) + x));
    assert b != "" ==> OfString(b) + y == [1] + ([b[0] as int] + (OfString(b[1..]) + y));
    var ra := if a == "" then x else [a[0] as int] + (OfString(a[1..]) + x);
    var rb := if b == "" then y else [b[0] as int] + (OfString(b[1..]) + y);
    StartsAlike(if a == "" then 0 else 1, ra, if b == "" then 0 else 1, rb);
    if a != "" {
      StartsAlike(a[0] as int, OfString(a[1..]) + x, b[0] as int, OfString(b[1..]) + y);
      StringsTold(a[1..], x, b[1..], y);
      assert a == [a[0]] + a[1..] && b == [b[0]] + b[1..];
    }
  }

  /** Whatever follows, the numbers of a value tell the value and where it ends. */
  lemma {:induction false} ValuesTold(a: Json, x: seq<nat>, b: Json, y: seq<nat>)
    requires OfJson(a) + x == OfJson(b) + y
    ensures a == b && x == y
    decreases a, 1, 0
  {
    hide OfInt, OfString, OfElements, OfFields;
    var ra, rb := OfJson(a)[1..] + x, OfJson(b)[1..] + y;
    assert OfJson(a) + x == [OfJson(a)[0]] + ra && OfJson(b) + y == [OfJson(b)[0]] + rb;
    StartsAlike(OfJson(a)[0], ra, OfJson(b)[0], rb);
    match a
    case JNull => assert OfJson(a)[1..] + x == x && OfJson(b)[1..] + y == y;
    case JBool(p) => StartsAlike(if p then 1 else 0, x, if b.b then 1 else 0, y);
    case JNum(n) => NumbersTold(n, x, b.n, y);
    case JStr(s) => StringsTold(s, x, b.s, y);
    case JArr(_) => ElementsTold(a, 0, x, b, y);
    case JObj(_) => FieldsTold(a, a.fields.Keys, x, b, b.fields.Keys, y);
  }

  lemma NumbersTold(n: Number, x: seq<nat>, m: Number, y: seq<nat>)
    requires ([2] + OfInt(n.digits) + OfInt(n.exponent))[1..] + x == ([2] + OfInt(m.digits) + OfInt(m.exponent))[1..] + y
    ensures n == m && x == y
  {
    assert ([2] + OfInt(n.digits) + OfInt(n.exponent))[1..] + x == OfInt(n.digits) + (OfInt(n.exponent) + x);
    assert ([2] + OfInt(m.digits) + OfInt(m.exponent))[1..] + y == OfInt(m.digits) + (OfInt(m.exponent) + y);
    IntsTold(n.digits, OfInt(n.exponent) + x, m.digits, OfInt(m.exponent) + y);
    IntsTold(n.exponent, x, m.exponent, y);
  }

  lemma ElementsSplit(j: Json, from: nat, x: seq<nat>)
    requires j.JArr? && from < |j.elements|
    ensures OfElements(j, from) + x == [1] + (OfJson(j.elements[from]) + (OfElements(j, from + 1) + x))
  {
  }

  lemma {:induction false} ElementsTold(a: Json, from: nat, x: seq<nat>, b: Json, y: seq<nat>)
    requires a.JArr? && b.JArr? && from <= |a.elements| && from <= |b.elements|
    requires a.elements[..from] == b.elements[..from]
    requires OfElements(a, from) + x == OfElements(b, from) + y
    ensures a == b && x == y
    decreases a, 0, |a.elements| - from
  {
    if from < |a.elements| { ElementsSplit(a, from, x); }
    if from < |b.elements| { ElementsSplit(b, from, y); }
    assert (OfElements(a, from) + x)[0] == (OfElements(b, from) + y)[0];
    if from < |a.elements| {
      var ra := OfJson(a.elements[from]) + (OfElements(a, from + 1) + x);
      var rb := OfJson(b.elements[from]) + (OfElements(b, from + 1) + y);
      StartsAlike(1, ra, 1, rb);
      ValuesTold(a.elements[from], OfElements(a, from + 1) + x, b.elements[from], OfElements(b, from + 1) + y);
      ElementsTold(a, from + 1, x, b, y);
    } else {
      StartsAlike(0, x, 0, y);
      assert a.elements == a.elements[..from] && b.elements == b.elements[..from];
    }
  }

  lemma FieldsSplit(j: Json, names: set<string>, x: seq<nat>)
    requires j.JObj? && names <= j.fields.Keys && names != {}
    ensures var name := First(names);
            OfFields(j, names) + x
            == [1] + (OfString(name) + (OfJson(j.fields[name]) + (OfFields(j, names - {name}) + x)))
  {
  }

  /** The fields tell their names, their values and where they end. */
  lemma {:induction false} FieldsTold(a: Json, names: set<string>, x: seq<nat>, b: Json, names': set<string>, y: seq<nat>)
    requires a.JObj? && b.JObj? && names <= a.fields.Keys && names' <= b.fields.Keys
    requires OfFields(a, names) + x == OfFields(b, names') + y
    ensures names == names' && x == y && forall name | name in names :: a.fields[name] == b.fields[name]
    decreases a, 0, |names|
  {
    if names != {} { FieldsSplit(a, names, x); }
    if names' != {} { FieldsSplit(b, names', y); }
    assert (OfFields(a, names) + x)[0] == (OfFields(b, names') + y)[0];
    if names != {} {
      var name, name' := First(names), First(names');
      var ra, rb := OfFields(a, names - {name}) + x, OfFields(b, names' - {name'}) + y;
      StartsAlike(1, OfString(name) + (OfJson(a.fields[name]) + ra), 1, OfString(name') + (OfJson(b.fields[name']) + rb));
      StringsTold(name, OfJson(a.fields[name]) + ra, name', OfJson(b.fields[name']) + rb);
      ValuesTold(a.fields[name], ra, b.fields[name'], rb);
      FieldsTold(a, names - {name}, x, b, names' - {name'}, y);
      assert names == names - {name} + {name} && names' == names' - {name'} + {name'};
    } else {
      StartsAlike(0, x, 0, y);
    }
  }

  // ---------------------------------------------------------------- numbers as a line

  /** What is left to write after the first character. */
  function Shorter(code: seq<nat>): seq<nat>
    requires code != []
  {
    if code[0] == 0 then code[1..] else [code[0] - 1] + code[1..]
  }

  /** Each number in unary, ended by a zero. */
  function Line(code: seq<nat>): (line: string)
    ensures code != [] ==> line != ""
    ensures forall c | c in line :: c == '0' || c == '1'
    decreases |code|, if code == [] then 0 else code[0]
  {
    if code == [] then "" else [if code[0] == 0 then '0' else '1'] + Line(Shorter(code))
  }

  lemma ShorterTold(a: seq<nat>, b: seq<nat>)
    requires a != [] && b != [] && (a[0] == 0 <==> b[0] == 0) && Shorter(a) == Shorter(b)
    ensures a == b
  {
    var a', b' := Shorter(a), Shorter(b);
    assert a == (if a[0] == 0 then [0] + a' else [a'[0] + 1] + a'[1..]);
    assert b == (if b[0] == 0 then [0] + b' else [b'[0] + 1] + b'[1..]);
  }

  lemma LineStarts(code: seq<nat>)
    requires code != []
    ensures Line(code) != "" && (Line(code)[0] == '0' <==> code[0] == 0) && Line(code)[1..] == Line(Shorter(code))
  {
  }

  lemma {:induction false} LinesTold(a: seq<nat>, b: seq<nat>)
    requires Line(a) == Line(b)
    ensures a == b
    decreases |a|, if a == [] then 0 else a[0]
  {
    if a != [] {
      assert b != [];
      LineStarts(a);
      LineStarts(b);
      hide Line;
      LinesTold(Shorter(a), Shorter(b));
      ShorterTold(a, b);
    } else {
      assert b == [];
    }
  }

  // ---------------------------------------------------------------- the runtime

  ghost function Stringify(j: Json): string {
    Line(OfJson(j))
  }

  ghost function Parse(s: string): Option<Json> {
    if exists j :: Stringify(j) == s then
      var j :| Stringify(j) == s; Some(j)
    else None
  }

  ghost const SOME_RUNTIME := Runtime(s => Parse(s), j => Stringify(j), j => map[])

  lemma StringsAreInjective(a: Json, b: Json)
    requires Stringify(a) == Stringify(b)
    ensures a == b
  {
    LinesTold(OfJson(a), OfJson(b));
    assert OfJson(a) + [] == OfJson(a) && OfJson(b) + [] == OfJson(b);
    ValuesTold(a, [], b, []);
  }

  /** There is a runtime whose `stringify` and `parse` are inverse on every value. */
  lemma ARuntimeIsFaithful()
    ensures Faithful(SOME_RUNTIME)
  {
    var rt := SOME_RUNTIME;
    forall j: Json ensures
      && rt.parse(rt.stringify(j)) == Some(j) && rt.stringify(j) != "" && rt.stringify(j) != "[DONE]"
      && '\n' !in rt.stringify(j)
      && !IsSpace(rt.stringify(j)[0]) && !IsSpace(rt.stringify(j)[|rt.stringify(j)| - 1])
    {
      var line := Stringify(j);
      assert rt.stringify(j) == line && rt.parse(line) == Parse(line);
      assert line[0] in line && line[|line| - 1] in line && "[DONE]"[0] == '[';
      forall k | Stringify(k) == line ensures k == j { StringsAreInjective(k, j); }
    }
  }
}
