/** Marked blocks in text files: what the hook injector inserts, strip_blocks takes out again.

    Bytes are characters below 256; lines are split as bytes.splitlines does it, at \n, \r and \r\n. */
module HookText {
  import opened Ports

  // ---------------------------------------------------------------- lines

  function LineLength(s: string): (n: nat)
    requires s != ""
    ensures 1 <= n <= |s|
  {
    if s[0] == '\n' then 1
    else if s[0] == '\r' then if |s| > 1 && s[1] == '\n' then 2 else 1
    else if |s| == 1 then 1
    else 1 + LineLength(s[1..])
  }

  function Lines(s: string): seq<string> {
    if s == "" then [] else [s[..LineLength(s)]] + Lines(s[LineLength(s)..])
  }

  function Join(lines: seq<string>): string {
    if lines == [] then "" else lines[0] + Join(lines[1..])
  }

  /** Empty, or ended by a newline: whatever follows starts a new line. */
  predicate Complete(s: string) {
    s == "" || s[|s| - 1] == '\n'
  }

  lemma {:induction false} JoinLines(s: string)
    ensures Join(Lines(s)) == s
    decreases |s|
  {
    if s != "" {
      var n := LineLength(s);
      JoinLines(s[n..]);
      assert Lines(s)[1..] == Lines(s[n..]);
      assert s[..n] + s[n..] == s;
    }
  }

  /** The first line of a complete text is its first line, whatever follows. */
  lemma {:induction false} LineLengthOfPrefix(a: string, b: string)
    requires a != "" && Complete(a)
    ensures LineLength(a + b) == LineLength(a) && Complete(a[LineLength(a)..])
    decreases |a|
  {
    assert (a + b)[0] == a[0];
    if a[0] == '\n' {
    } else if a[0] == '\r' {
      assert |a| > 1 && (a + b)[1] == a[1];
    } else {
      assert |a| > 1 && (a + b)[1..] == a[1..] + b;
      LineLengthOfPrefix(a[1..], b);
    }
  }

  lemma Reassociate(a: seq<string>, b: seq<string>, c: seq<string>)
    ensures a + (b + c) == (a + b) + c
  {
  }

  /** A complete text ends at a line boundary. */
  lemma {:induction false} LinesAppend(a: string, b: string)
    requires Complete(a)
    ensures Lines(a + b) == Lines(a) + Lines(b)
    decreases |a|
  {
    if a == "" {
      assert a + b == b && Lines(a) + Lines(b) == Lines(b);
    } else {
      LineLengthOfPrefix(a, b);
      var n := LineLength(a);
      assert (a + b)[..n] == a[..n] && (a + b)[n..] == a[n..] + b;
      LinesAppend(a[n..], b);
      Reassociate([a[..n]], Lines(a[n..]), Lines(b));
    }
  }

  // ---------------------------------------------------------------- markers

  const BEGIN := "# PVN-COMPUTE:BEGIN "
  const END := "# PVN-COMPUTE:END "

  predicate Blank(c: char) {
    c == ' ' || c == '\t'
  }

  function SkipBlanks(s: string): string {
    if s != "" && Blank(s[0]) then SkipBlanks(s[1..]) else s
  }

  predicate LabelChar(c: char) {
    'a' <= c <= 'z' || '0' <= c <= '9' || c == '-'
  }

  predicate IsLabel(s: string) {
    s != "" && forall i :: 0 <= i < |s| ==> LabelChar(s[i])
  }

  /** The text before its line end, if it has the line end of a marker. */
  function WithoutEol(s: string): Option<string> {
    if |s| >= 1 && s[|s| - 1] == '\n' then
      if |s| >= 2 && s[|s| - 2] == '\r' then Some(s[..|s| - 2]) else Some(s[..|s| - 1])
    else None
  }

  /** The label of a marker line: blanks, the marker word, a label, a line end. */
  function MarkerOf(line: string, word: string): Option<string> {
    var rest := SkipBlanks(line);
    if !(word <= rest) then None
    else
      var name := WithoutEol(rest[|word|..]);
      if name.Some? && IsLabel(name.value) then name else None
  }

  predicate IsMarker(line: string) {
    MarkerOf(line, BEGIN).Some? || MarkerOf(line, END).Some?
  }

  predicate MarkerFree(lines: seq<string>) {
    forall i :: 0 <= i < |lines| ==> !IsMarker(lines[i])
  }

  // ---------------------------------------------------------------- stripping

  /** What is left of the lines; None if the markers are malformed. */
  function StripLines(lines: seq<string>, active: Option<string>, seen: set<string>): Option<seq<string>>
    decreases |lines|
  {
    if lines == [] then if active.Some? then None else Some([])
    else
      var begin, end := MarkerOf(lines[0], BEGIN), MarkerOf(lines[0], END);
      if begin.Some? then
        if active.Some? || begin.value in seen then None
        else StripLines(lines[1..], begin, seen + {begin.value})
      else if end.Some? then
        if active != end then None else StripLines(lines[1..], None, seen)
      else
        var rest := StripLines(lines[1..], active, seen);
        if active.Some? then rest else After([lines[0]], rest)
  }

  function Stripped(data: string): Option<string> {
    var kept := StripLines(Lines(data), None, {});
    if kept.None? then None else Some(Join(kept.value))
  }

  /** Puts kept lines in front of a result. */
  function After(output: seq<string>, rest: Option<seq<string>>): Option<seq<string>> {
    if rest.None? then None else Some(output + rest.value)
  }

  lemma AfterFacts(output: seq<string>, line: string, rest: Option<seq<string>>)
    ensures After([], rest) == rest
    ensures After(output, After([line], rest)) == After(output + [line], rest)
    ensures After(output, Some([])) == Some(output)
  {
    assert output + [] == output;
    if rest.Some? {
      assert [] + rest.value == rest.value;
      assert output + ([line] + rest.value) == output + [line] + rest.value;
    }
  }

  /** strip_blocks. */
  method StripBlocks(data: string) returns (result: Option<string>)
    ensures result == Stripped(data)
  {
    var lines := Lines(data);
    var output: seq<string> := [];
    var active: Option<string> := None;
    var seen: set<string> := {};
    assert lines[0..] == lines;
    AfterFacts([], "", StripLines(lines, None, {}));
    for n := 0 to |lines|
      invariant StripLines(lines, None, {}) == After(output, StripLines(lines[n..], active, seen))
    {
      var line := lines[n];
      assert lines[n..][0] == line && lines[n..][1..] == lines[n + 1..];
      AfterFacts(output, line, StripLines(lines[n + 1..], active, seen));
      var begin, end := MarkerOf(line, BEGIN), MarkerOf(line, END);
      if begin.Some? {
        if active.Some? || begin.value in seen {
          return None;
        }
        active, seen := begin, seen + {begin.value};
      } else if end.Some? {
        if active != end {
          return None;
        }
        active := None;
      } else if active.None? {
        output := output + [line];
      }
    }
    assert lines[|lines|..] == [];
    AfterFacts(output, "", None);
    return if active.Some? then None else Some(Join(output));
  }

  // ---------------------------------------------------------------- inserted blocks

  datatype Piece = Plain(text: string) | Block(tag: string, content: string, indent: string)

  function BeginLine(b: Piece): string
    requires b.Block?
  {
    b.indent + BEGIN + b.tag + "\n"
  }
  function EndLine(b: Piece): string
    requires b.Block?
  {
    b.indent + END + b.tag + "\n"
  }

  /** block(). */
  function Render(p: Piece): string {
    match p
    case Plain(text) => text
    case Block(_, content, _) => BeginLine(p) + content + EndLine(p)
  }

  function RenderAll(ps: seq<Piece>): string {
    if ps == [] then "" else Render(ps[0]) + RenderAll(ps[1..])
  }

  /** The text the blocks were inserted into. */
  function PlainText(ps: seq<Piece>): string {
    if ps == [] then "" else (if ps[0].Plain? then ps[0].text else "") + PlainText(ps[1..])
  }

  predicate Blanks(s: string) {
    forall i :: 0 <= i < |s| ==> Blank(s[i])
  }

  predicate BlockOk(p: Piece) {
    p.Block? && IsLabel(p.tag) && Blanks(p.indent) && Complete(p.content) && MarkerFree(Lines(p.content))
  }

  /** Blocks are well formed and stand at line boundaries. */
  predicate PiecesOk(ps: seq<Piece>) {
    && (forall i :: 0 <= i < |ps| && ps[i].Block? ==> BlockOk(ps[i]))
    && forall i :: 0 <= i < |ps| - 1 && ps[i].Plain? ==> Complete(ps[i].text)
  }

  predicate DistinctTags(ps: seq<Piece>) {
    forall i, j :: 0 <= i < j < |ps| && ps[i].Block? && ps[j].Block? ==> ps[i].tag != ps[j].tag
  }

  // ---------------------------------------------------------------- marker lines

  lemma {:induction false} SkipIndent(indent: string, s: string)
    requires Blanks(indent) && s != "" && !Blank(s[0])
    ensures SkipBlanks(indent + s) == s
  {
    if indent == "" {
      assert indent + s == s;
    } else {
      assert (indent + s)[1..] == indent[1..] + s;
      SkipIndent(indent[1..], s);
    }
  }

  lemma MarkerLineOf(indent: string, word: string, tag: string)
    requires Blanks(indent) && IsLabel(tag) && (word == BEGIN || word == END)
    ensures MarkerOf(indent + word + tag + "\n", word) == Some(tag)
  {
    var rest := word + tag + "\n";
    assert indent + word + tag + "\n" == indent + rest;
    SkipIndent(indent, rest);
    assert rest[|word|..] == tag + "\n";
    var line := tag + "\n";
    assert line[|line| - 2] == tag[|tag| - 1];
    assert line[..|line| - 1] == tag;
  }

  /** A begin marker is no end marker and the other way round: they differ right after the colon. */
  lemma MarkersDiffer(indent: string, tag: string)
    requires Blanks(indent)
    ensures MarkerOf(indent + BEGIN + tag + "\n", END).None? && MarkerOf(indent + END + tag + "\n", BEGIN).None?
  {
    var a, b := BEGIN + tag + "\n", END + tag + "\n";
    assert indent + BEGIN + tag + "\n" == indent + a && indent + END + tag + "\n" == indent + b;
    SkipIndent(indent, a);
    SkipIndent(indent, b);
    assert a[14] == 'B' && b[14] == 'E' && END[14] == 'E' && BEGIN[14] == 'B';
  }

  predicate OneLine(s: string) {
    forall i :: 0 <= i < |s| ==> s[i] != '\n' && s[i] != '\r'
  }

  lemma {:induction false} SingleLineLength(s: string)
    requires OneLine(s)
    ensures LineLength(s + "\n") == |s| + 1
  {
    if s != "" {
      assert (s + "\n")[1..] == s[1..] + "\n";
      SingleLineLength(s[1..]);
    }
  }

  lemma SingleLine(s: string)
    requires OneLine(s)
    ensures Lines(s + "\n") == [s + "\n"]
  {
    SingleLineLength(s);
    var line := s + "\n";
    assert line[..|line|] == line && line[|line|..] == "";
  }

  lemma MarkerLineIsOneLine(indent: string, word: string, tag: string)
    requires Blanks(indent) && IsLabel(tag) && (word == BEGIN || word == END)
    ensures Lines(indent + word + tag + "\n") == [indent + word + tag + "\n"]
  {
    SingleLine(indent + word + tag);
  }

  lemma LinesOfBlock(b: Piece)
    requires BlockOk(b)
    ensures Lines(Render(b)) == [BeginLine(b)] + Lines(b.content) + [EndLine(b)]
  {
    MarkerLineIsOneLine(b.indent, BEGIN, b.tag);
    MarkerLineIsOneLine(b.indent, END, b.tag);
    assert Render(b) == BeginLine(b) + (b.content + EndLine(b));
    LinesAppend(BeginLine(b), b.content + EndLine(b));
    LinesAppend(b.content, EndLine(b));
  }

  // ---------------------------------------------------------------- stripping what was inserted

  lemma {:induction false} StripOutside(lines: seq<string>, rest: seq<string>, seen: set<string>)
    requires MarkerFree(lines)
    ensures StripLines(lines + rest, None, seen) == After(lines, StripLines(rest, None, seen))
    decreases |lines|
  {
    var tail := StripLines(rest, None, seen);
    if lines == [] {
      assert lines + rest == rest;
      AfterFacts([], "", tail);
    } else {
      assert !IsMarker(lines[0]);
      assert (lines + rest)[0] == lines[0] && (lines + rest)[1..] == lines[1..] + rest;
      StripOutside(lines[1..], rest, seen);
      if tail.Some? {
        assert [lines[0]] + (lines[1..] + tail.value) == lines + tail.value;
      }
    }
  }

  lemma {:induction false} StripInside(lines: seq<string>, tag: string, end: string, rest: seq<string>,
                                       seen: set<string>)
    requires MarkerFree(lines) && MarkerOf(end, BEGIN).None? && MarkerOf(end, END) == Some(tag)
    ensures StripLines(lines + [end] + rest, Some(tag), seen) == StripLines(rest, None, seen)
    decreases |lines|
  {
    var all := lines + [end] + rest;
    if lines == [] {
      assert all[0] == end && all[1..] == rest;
    } else {
      assert !IsMarker(lines[0]);
      assert all[0] == lines[0] && all[1..] == lines[1..] + [end] + rest;
      StripInside(lines[1..], tag, end, rest, seen);
    }
  }

  lemma StripMarked(begin: string, lines: seq<string>, end: string, tag: string, rest: seq<string>, seen: set<string>)
    requires MarkerFree(lines) && MarkerOf(begin, BEGIN) == Some(tag) && tag !in seen
    requires MarkerOf(end, BEGIN).None? && MarkerOf(end, END) == Some(tag)
    ensures StripLines([begin] + lines + [end] + rest, None, seen) == StripLines(rest, None, seen + {tag})
  {
    var all := [begin] + lines + [end] + rest;
    assert all[0] == begin && all[1..] == lines + [end] + rest;
    StripInside(lines, tag, end, rest, seen + {tag});
  }

  lemma StripBlock(b: Piece, rest: seq<string>, seen: set<string>)
    requires BlockOk(b) && b.tag !in seen
    ensures StripLines(Lines(Render(b)) + rest, None, seen) == StripLines(rest, None, seen + {b.tag})
  {
    LinesOfBlock(b);
    MarkerLineOf(b.indent, BEGIN, b.tag);
    MarkerLineOf(b.indent, END, b.tag);
    MarkersDiffer(b.indent, b.tag);
    StripMarked(BeginLine(b), Lines(b.content), EndLine(b), b.tag, rest, seen);
  }

  /** Stripping keeps complete marker-free text in front. */
  lemma StripText(text: string, more: string, plain: string, seen: set<string>)
    requires Complete(text) && MarkerFree(Lines(text + plain))
    requires MarkerFree(Lines(plain)) ==> StripLines(Lines(more), None, seen) == Some(Lines(plain))
    ensures MarkerFree(Lines(plain)) && StripLines(Lines(text + more), None, seen) == Some(Lines(text + plain))
  {
    LinesAppend(text, more);
    LinesAppend(text, plain);
    MarkerFreeParts(Lines(text), Lines(plain));
    StripOutside(Lines(text), Lines(more), seen);
  }

  lemma MarkerFreeParts(a: seq<string>, b: seq<string>)
    requires MarkerFree(a + b)
    ensures MarkerFree(a) && MarkerFree(b)
  {
    assert forall i :: 0 <= i < |a| ==> (a + b)[i] == a[i];
    assert forall i :: 0 <= i < |b| ==> (a + b)[|a| + i] == b[i];
  }

  lemma StripLastText(text: string, seen: set<string>)
    requires MarkerFree(Lines(text))
    ensures StripLines(Lines(text), None, seen) == Some(Lines(text))
  {
    StripOutside(Lines(text), [], seen);
    assert Lines(text) + [] == Lines(text);
  }

  lemma TailOk(ps: seq<Piece>, seen: set<string>)
    requires ps != [] && PiecesOk(ps) && DistinctTags(ps)
    requires forall i :: 0 <= i < |ps| && ps[i].Block? ==> ps[i].tag !in seen
    ensures PiecesOk(ps[1..]) && DistinctTags(ps[1..])
    ensures forall i :: 0 <= i < |ps[1..]| && ps[1..][i].Block? ==> ps[1..][i].tag !in seen
    ensures ps[0].Block? ==> forall i :: 0 <= i < |ps[1..]| && ps[1..][i].Block? ==>
        ps[1..][i].tag !in seen + {ps[0].tag}
  {
  }

  lemma {:induction false} StripPieces(ps: seq<Piece>, seen: set<string>)
    requires PiecesOk(ps) && DistinctTags(ps) && MarkerFree(Lines(PlainText(ps)))
    requires forall i :: 0 <= i < |ps| && ps[i].Block? ==> ps[i].tag !in seen
    ensures StripLines(Lines(RenderAll(ps)), None, seen) == Some(Lines(PlainText(ps)))
    decreases |ps|
  {
    if ps != [] {
      var first, rest := ps[0], ps[1..];
      TailOk(ps, seen);
      if first.Block? {
        BlockIsComplete(first);
        LinesAppend(Render(first), RenderAll(rest));
        StripBlock(first, Lines(RenderAll(rest)), seen);
        assert PlainText(ps) == PlainText(rest);
        StripPieces(rest, seen + {first.tag});
      } else if rest == [] {
        assert RenderAll(ps) == first.text && PlainText(ps) == first.text;
        StripLastText(first.text, seen);
      } else {
        assert PlainText(ps) == first.text + PlainText(rest) && RenderAll(ps) == first.text + RenderAll(rest);
        if MarkerFree(Lines(PlainText(rest))) {
          StripPieces(rest, seen);
        }
        StripText(first.text, RenderAll(rest), PlainText(rest), seen);
      }
    }
  }

  lemma BlockIsComplete(b: Piece)
    requires b.Block?
    ensures Complete(Render(b))
  {
    assert Render(b) == (BeginLine(b) + b.content + b.indent + END + b.tag) + "\n";
  }

  /** Main result: stripping well-formed, distinctly labelled blocks that stand at line boundaries of
      marker-free text returns the text. */
  lemma StripUndoesInsertion(ps: seq<Piece>)
    requires PiecesOk(ps) && DistinctTags(ps) && MarkerFree(Lines(PlainText(ps)))
    ensures Stripped(RenderAll(ps)) == Some(PlainText(ps))
  {
    StripPieces(ps, {});
    JoinLines(PlainText(ps));
  }

  // ---------------------------------------------------------------- injecting at an anchor

  /** Occurrences that do not overlap, from the left. */
  function Count(data: string, anchor: string): nat
    requires anchor != ""
    decreases |data|
  {
    if data == "" then 0
    else if anchor <= data then 1 + Count(data[|anchor|..], anchor)
    else Count(data[1..], anchor)
  }

  /** The text before the first occurrence. */
  function Before(data: string, anchor: string): string
    requires anchor != ""
  {
    if data == "" || anchor <= data then "" else [data[0]] + Before(data[1..], anchor)
  }

  /** replace_once: None unless the anchor occurs exactly once. */
  function ReplaceOnce(data: string, anchor: string, replacement: string): Option<string>
    requires anchor != ""
  {
    if Count(data, anchor) != 1 then None
    else
      AnchorFound(data, anchor);
      var before := Before(data, anchor);
      Some(before + replacement + data[|before| + |anchor|..])
  }

  lemma {:induction false} AnchorFound(data: string, anchor: string)
    requires anchor != "" && Count(data, anchor) >= 1
    ensures Before(data, anchor) + anchor <= data
    decreases |data|
  {
    if !(anchor <= data) {
      AnchorFound(data[1..], anchor);
      assert Before(data, anchor) + anchor == [data[0]] + (Before(data[1..], anchor) + anchor);
      assert data == [data[0]] + data[1..];
    }
  }

  lemma TwoPieces(b: Piece, tail: string)
    requires b.Block?
    ensures RenderAll([b, Plain(tail)]) == Render(b) + tail && PlainText([b, Plain(tail)]) == tail
  {
    var ps := [b, Plain(tail)];
    assert ps[1..] == [Plain(tail)] && [Plain(tail)][1..] == [];
    assert RenderAll([Plain(tail)]) == tail && PlainText([Plain(tail)]) == tail;
  }

  lemma ThreePieces(head: string, b: Piece, tail: string)
    requires b.Block?
    ensures RenderAll([Plain(head), b, Plain(tail)]) == head + Render(b) + tail
    ensures PlainText([Plain(head), b, Plain(tail)]) == head + tail
  {
    var ps := [Plain(head), b, Plain(tail)];
    assert ps[1..] == [b, Plain(tail)];
    TwoPieces(b, tail);
    assert head + (Render(b) + tail) == head + Render(b) + tail;
  }

  lemma StripAround(head: string, b: Piece, tail: string)
    requires Complete(head) && BlockOk(b) && MarkerFree(Lines(head + tail))
    ensures Stripped(head + Render(b) + tail) == Some(head + tail)
  {
    ThreePieces(head, b, tail);
    StripUndoesInsertion([Plain(head), b, Plain(tail)]);
  }

  /** Main result on one hook: inserting a block after an anchor that ends its line, and stripping, is the
      identity on marker-free text. */
  lemma StripUndoesInjection(data: string, anchor: string, b: Piece)
    requires anchor != "" && Complete(anchor) && BlockOk(b) && MarkerFree(Lines(data))
    requires ReplaceOnce(data, anchor, anchor + Render(b)).Some?
    ensures Stripped(ReplaceOnce(data, anchor, anchor + Render(b)).value) == Some(data)
  {
    AnchorFound(data, anchor);
    var before := Before(data, anchor);
    var tail := data[|before| + |anchor|..];
    AnchorSplits(data, before, anchor);
    EndsLike(before, anchor);
    StripAround(before + anchor, b, tail);
    Regroup(before, anchor, Render(b), tail);
  }

  lemma AnchorSplits(data: string, before: string, anchor: string)
    requires before + anchor <= data
    ensures data == before + anchor + data[|before| + |anchor|..]
  {
  }

  lemma EndsLike(before: string, anchor: string)
    requires anchor != "" && Complete(anchor)
    ensures Complete(before + anchor)
  {
  }

  lemma Regroup(a: string, b: string, c: string, d: string)
    ensures a + (b + c) + d == a + b + c + d
  {
  }
}
