/** Splitting, joining and trimming strings the way the JavaScript built-ins do. */
module Text {
  import opened Wrappers

  /** `s.split("\n")`. */
  function SplitLines(s: string): (lines: seq<string>)
    ensures |lines| > 0
    ensures forall l | l in lines :: '\n' !in l
  {
    if s == "" then [""] else
    var rest := SplitLines(s[1..]);
    if s[0] == '\n' then [""] + rest else [[s[0]] + rest[0]] + rest[1..]
  }

  /** `parts.join(sep)`. */
  function Join(parts: seq<string>, sep: string): string {
    if parts == [] then "" else if |parts| == 1 then parts[0] else parts[0] + sep + Join(parts[1..], sep)
  }

  /** `s.indexOf("\n\n")`: the leftmost blank line. */
  function FindBlank(s: string): (r: Option<nat>)
    ensures r.Some? ==> r.value + 1 < |s| && s[r.value] == '\n' && s[r.value + 1] == '\n'
    ensures forall i | 0 <= i < (if r.Some? then r.value else |s| - 1) :: s[i] != '\n' || s[i + 1] != '\n'
  {
    if |s| < 2 then None
    else if s[0] == '\n' && s[1] == '\n' then Some(0)
    else
      var rest := FindBlank(s[1..]);
      assert forall i | 0 < i < |s| :: s[i] == s[1..][i - 1];
      if rest.Some? then Some(rest.value + 1) else None
  }

  /** `s.split("\n\n")`. */
  function SplitBlocks(s: string): (blocks: seq<string>)
    ensures |blocks| > 0
    decreases |s|
  {
    match FindBlank(s)
    case None => [s]
    case Some(i) => [s[..i]] + SplitBlocks(s[i + 2..])
  }

  predicate IsSpace(c: char) {
    || c == ' ' || '\t' <= c <= '\r' || c == '\U{00A0}' || c == '\U{1680}' || '\U{2000}' <= c <= '\U{200A}'
    || c == '\U{2028}' || c == '\U{2029}' || c == '\U{202F}' || c == '\U{205F}' || c == '\U{3000}' || c == '\U{FEFF}'
  }

  function TrimStart(s: string): string {
    if s != "" && IsSpace(s[0]) then TrimStart(s[1..]) else s
  }

  function TrimEnd(s: string): string {
    if s != "" && IsSpace(s[|s| - 1]) then TrimEnd(s[..|s| - 1]) else s
  }

  function Trim(s: string): string {
    TrimEnd(TrimStart(s))
  }

  function StartsWith(s: string, prefix: string): bool {
    prefix <= s
  }

  // ---------------------------------------------------------------- lemmas

  lemma {:induction false} SplitFirstLine(line: string, rest: string)
    requires '\n' !in line
    ensures SplitLines(line + "\n" + rest) == [line] + SplitLines(rest)
  {
    var s := line + "\n" + rest;
    if line == "" {
      assert s[1..] == rest;
    } else {
      assert s[1..] == line[1..] + "\n" + rest;
      SplitFirstLine(line[1..], rest);
      assert line == [line[0]] + line[1..];
    }
  }

  lemma {:induction false} SplitOneLine(line: string)
    requires '\n' !in line
    ensures SplitLines(line) == [line]
  {
    if line != "" {
      SplitOneLine(line[1..]);
      assert line == [line[0]] + line[1..];
    }
  }

  /** Splitting undoes joining. */
  lemma {:induction false} SplitJoined(lines: seq<string>)
    requires |lines| > 0 && forall l | l in lines :: '\n' !in l
    ensures SplitLines(Join(lines, "\n")) == lines
  {
    if |lines| == 1 {
      SplitOneLine(lines[0]);
      assert lines == [lines[0]];
    } else {
      SplitJoined(lines[1..]);
      SplitFirstLine(lines[0], Join(lines[1..], "\n"));
      assert lines == [lines[0]] + lines[1..];
    }
  }

  /** Joining undoes splitting at blank lines. */
  lemma {:induction false} JoinBlocks(s: string)
    ensures Join(SplitBlocks(s), "\n\n") == s
    decreases |s|
  {
    var at := FindBlank(s);
    if at.Some? {
      var i := at.value;
      JoinBlocks(s[i + 2..]);
      var rest := SplitBlocks(s[i + 2..]);
      assert SplitBlocks(s)[1..] == rest;
      assert s == s[..i] + "\n\n" + s[i + 2..];
    }
  }

  /** The leftmost blank line is the one at `i` when no earlier pair of characters is one. */
  lemma {:induction false} BlankAt(s: string, i: nat)
    requires i + 1 < |s| && s[i] == '\n' && s[i + 1] == '\n'
    requires forall k | 0 <= k < i :: s[k] != '\n' || s[k + 1] != '\n'
    ensures FindBlank(s) == Some(i)
  {
    if i > 0 {
      forall k | 0 <= k < i - 1 ensures s[1..][k] != '\n' || s[1..][k + 1] != '\n' {
        assert s[k + 1] != '\n' || s[k + 2] != '\n';
      }
      BlankAt(s[1..], i - 1);
    }
  }

  lemma {:induction false} NoBlank(s: string)
    requires forall k | 0 <= k < |s| - 1 :: s[k] != '\n' || s[k + 1] != '\n'
    ensures FindBlank(s).None?
  {
    if |s| >= 2 {
      forall k | 0 <= k < |s| - 2 ensures s[1..][k] != '\n' || s[1..][k + 1] != '\n' {
        assert s[k + 1] != '\n' || s[k + 2] != '\n';
      }
      NoBlank(s[1..]);
    }
  }

  /** Appending text does not move the leftmost blank line. */
  lemma FindBlankInPrefix(s: string, more: string)
    requires FindBlank(s).Some?
    ensures FindBlank(s + more) == FindBlank(s)
  {
    BlankAt(s + more, FindBlank(s).value);
  }

  predicate EndsLine(s: string) {
    s != "" && s[|s| - 1] == '\n'
  }

  /** Blocks that joining keeps apart. */
  ghost predicate Framed(blocks: seq<string>) {
    && (forall b | b in blocks :: FindBlank(b).None?)
    && (forall i | 0 <= i < |blocks| - 1 :: !EndsLine(blocks[i]))
  }

  lemma {:induction false} SplitIsFramed(s: string)
    ensures Framed(SplitBlocks(s))
    decreases |s|
  {
    var at := FindBlank(s);
    if at.Some? {
      var i := at.value;
      var b, rest := s[..i], SplitBlocks(s[i + 2..]);
      SplitIsFramed(s[i + 2..]);
      NoBlank(b);
      assert i > 0 ==> b[i - 1] == s[i - 1];
      assert SplitBlocks(s) == [b] + rest;
      forall k | 0 <= k < |rest| ensures SplitBlocks(s)[k + 1] == rest[k] {}
    }
  }

  lemma SplitFirstBlock(b: string, rest: string)
    requires FindBlank(b).None? && !EndsLine(b)
    ensures SplitBlocks(b + "\n\n" + rest) == [b] + SplitBlocks(rest)
  {
    var s := b + "\n\n" + rest;
    assert s[|b|] == '\n' && s[|b| + 1] == '\n';
    forall k | 0 <= k < |b| ensures s[k] != '\n' || s[k + 1] != '\n' {
      assert s[k] == b[k];
      if k + 1 < |b| { assert s[k + 1] == b[k + 1]; }
    }
    BlankAt(s, |b|);
    assert s[..|b|] == b && s[|b| + 2..] == rest;
  }

  /** Splitting at blank lines undoes joining blocks that are kept apart. */
  lemma {:induction false} SplitFramed(blocks: seq<string>)
    requires blocks != [] && Framed(blocks)
    ensures SplitBlocks(Join(blocks, "\n\n")) == blocks
  {
    var b := blocks[0];
    if |blocks| == 1 {
      assert blocks == [b];
    } else {
      var tail := blocks[1..];
      assert blocks == [b] + tail;
      FramedTail(blocks);
      SplitFramed(tail);
      assert !EndsLine(blocks[0]);
      SplitFirstBlock(b, Join(tail, "\n\n"));
    }
  }

  lemma FramedTail(blocks: seq<string>)
    requires blocks != [] && Framed(blocks)
    ensures Framed(blocks[1..])
  {
    forall i | 0 <= i < |blocks| - 2 ensures !EndsLine(blocks[1..][i]) { assert blocks[1..][i] == blocks[i + 1]; }
  }

  /** No line but the first is empty. */
  ghost predicate Solid(lines: seq<string>) {
    forall i | 1 <= i < |lines| :: lines[i] != ""
  }

  /** A block that holds no blank line and does not end a line, seen line by line. */
  lemma {:induction false} SolidLines(b: string)
    ensures FindBlank(b).None? && !EndsLine(b) <==> Solid(SplitLines(b))
  {
    if b != "" {
      var rest := b[1..];
      var lines, more := SplitLines(b), SplitLines(rest);
      SolidLines(rest);
      if b[0] == '\n' {
        assert lines == [""] + more;
        assert more[0] == "" <==> rest == "" || rest[0] == '\n';
        if Solid(lines) {
          assert lines[1] == more[0];
          forall i | 1 <= i < |more| ensures more[i] != "" { assert lines[i + 1] == more[i]; }
        }
      } else {
        forall i | 1 <= i < |more| ensures lines[i] == more[i] {}
      }
    }
  }
}
