/** The hook text from the other side: exactly which texts can be stripped, and exactly where a block is injected. */
module HookBlocks {
  import opened Ports
  import opened HookText

  // ---------------------------------------------------------------- marker lines

  lemma {:induction false} SkippedIndent(s: string) returns (indent: string)
    ensures Blanks(indent) && s == indent + SkipBlanks(s)
  {
    if s != "" && Blank(s[0]) {
      var more := SkippedIndent(s[1..]);
      indent := [s[0]] + more;
    } else {
      indent := "";
    }
  }

  predicate IsLineEnd(s: string) {
    s == "\n" || s == "\r\n"
  }

  lemma LineEndIff(s: string, name: string)
    requires IsLabel(name)
    ensures WithoutEol(s) == Some(name) <==> s == name + "\n" || s == name + "\r\n"
  {
    assert LabelChar(name[|name| - 1]);
    if WithoutEol(s) == Some(name) {
      assert s == s[..|s| - 1] + "\n";
      assert |s| >= 2 && s[|s| - 2] == '\r' ==> s == s[..|s| - 2] + "\r\n";
    }
    if s == name + "\n" {
      assert s[|s| - 2] == name[|name| - 1] && s[..|s| - 1] == name;
    }
    if s == name + "\r\n" {
      assert s[..|s| - 2] == name;
    }
  }

  /** A marker line is, exactly, blanks, the word, a label and a line end. */
  lemma MarkerIff(line: string, word: string, name: string)
    requires word != "" && !Blank(word[0])
    ensures MarkerOf(line, word) == Some(name) <==>
              && IsLabel(name)
              && exists indent, end ::
                   Blanks(indent) && IsLineEnd(end) && line == indent + (word + (name + end))
  {
    if MarkerOf(line, word) == Some(name) {
      var indent := SkippedIndent(line);
      var rest := SkipBlanks(line);
      LineEndIff(rest[|word|..], name);
      assert rest == word + rest[|word|..];
      var end := rest[|word|..][|name|..];
      assert IsLineEnd(end) && line == indent + (word + (name + end));
    }
    if IsLabel(name) {
      forall indent, end | Blanks(indent) && IsLineEnd(end) && line == indent + (word + (name + end))
        ensures MarkerOf(line, word) == Some(name)
      {
        SkipIndent(indent, word + (name + end));
        LineEndIff(name + end, name);
        assert (word + (name + end))[|word|..] == name + end;
      }
    }
  }

  // ---------------------------------------------------------------- what can be stripped

  /** A line outside any block, or a whole block. */
  datatype Part =
    | Line(text: string)
    | Section(begin: string, inner: seq<string>, end: string, tag: string)

  predicate PartOk(p: Part) {
    match p
    case Line(text) => !IsMarker(text)
    case Section(begin, inner, end, tag) =>
      && MarkerOf(begin, BEGIN) == Some(tag) && MarkerFree(inner)
      && MarkerOf(end, BEGIN).None? && MarkerOf(end, END) == Some(tag)
  }

  function LinesOf(p: Part): seq<string> {
    match p
    case Line(text) => [text]
    case Section(begin, inner, end, _) => [begin] + inner + [end]
  }

  function Flatten(ps: seq<Part>): seq<string> {
    if ps == [] then [] else LinesOf(ps[0]) + Flatten(ps[1..])
  }

  /** The lines outside the blocks. */
  function Outside(ps: seq<Part>): seq<string> {
    if ps == [] then [] else (if ps[0].Line? then [ps[0].text] else []) + Outside(ps[1..])
  }

  /** The parts are well formed and no label is used twice, or is one of those seen. */
  ghost predicate PartsOk(ps: seq<Part>, seen: set<string>) {
    && (forall i :: 0 <= i < |ps| ==> PartOk(ps[i]))
    && (forall i :: 0 <= i < |ps| && ps[i].Section? ==> ps[i].tag !in seen)
    && forall i, j :: 0 <= i < j < |ps| && ps[i].Section? && ps[j].Section? ==> ps[i].tag != ps[j].tag
  }

  lemma PartsTail(ps: seq<Part>, seen: set<string>)
    requires ps != [] && PartsOk(ps, seen)
    ensures PartsOk(ps[1..], if ps[0].Section? then seen + {ps[0].tag} else seen)
  {
  }

  /** The lines left once the first part is dealt with. */
  function AfterPart(p: Part, rest: seq<string>, seen: set<string>): Option<seq<string>> {
    match p
    case Line(text) => After([text], StripLines(rest, None, seen))
    case Section(_, _, _, tag) => StripLines(rest, None, seen + {tag})
  }

  lemma PartIsStripped(p: Part, rest: seq<string>, seen: set<string>)
    requires PartOk(p) && (p.Section? ==> p.tag !in seen)
    ensures StripLines(LinesOf(p) + rest, None, seen) == AfterPart(p, rest, seen)
  {
    match p
    case Line(text) => assert ([text] + rest)[1..] == rest;
    case Section(begin, inner, end, tag) => StripMarked(begin, inner, end, tag, rest, seen);
  }

  /** Well-formed parts are stripped to the lines outside their blocks. */
  lemma {:induction false} PartsAreStripped(ps: seq<Part>, seen: set<string>)
    requires PartsOk(ps, seen)
    ensures StripLines(Flatten(ps), None, seen) == Some(Outside(ps))
    decreases |ps|
  {
    if ps != [] {
      PartsTail(ps, seen);
      PartIsStripped(ps[0], Flatten(ps[1..]), seen);
      PartsAreStripped(ps[1..], if ps[0].Section? then seen + {ps[0].tag} else seen);
      assert ps[0].Section? ==> [] + Outside(ps[1..]) == Outside(ps[1..]);
    }
  }

  /** Inside a block, stripping succeeds only if the next marker ends this very block. */
  lemma {:induction false} BlockMustEnd(lines: seq<string>, tag: string, seen: set<string>)
    requires StripLines(lines, Some(tag), seen).Some?
    ensures exists j :: 0 <= j < |lines| && MarkerFree(lines[..j]) && MarkerOf(lines[j], BEGIN).None?
              && MarkerOf(lines[j], END) == Some(tag)
    decreases |lines|
  {
    if lines != [] {
      if IsMarker(lines[0]) {
        assert lines[..0] == [];
      } else {
        BlockMustEnd(lines[1..], tag, seen);
        var j :| 0 <= j < |lines[1..]| && MarkerFree(lines[1..][..j]) && MarkerOf(lines[1..][j], BEGIN).None?
              && MarkerOf(lines[1..][j], END) == Some(tag);
        assert lines[..j + 1] == [lines[0]] + lines[1..][..j] && lines[j + 1] == lines[1..][j];
      }
    }
  }

  ghost predicate Parses(ps: seq<Part>, lines: seq<string>, seen: set<string>) {
    PartsOk(ps, seen) && Flatten(ps) == lines
  }

  lemma Prepended(p: Part, ps: seq<Part>, lines: seq<string>, seen: set<string>)
    requires PartOk(p) && (p.Section? ==> p.tag !in seen)
    requires Parses(ps, lines, if p.Section? then seen + {p.tag} else seen)
    ensures Parses([p] + ps, LinesOf(p) + lines, seen)
  {
    assert ([p] + ps)[1..] == ps;
  }

  /** A block that can be stripped, and the lines behind it. */
  lemma FirstSection(lines: seq<string>, seen: set<string>) returns (p: Part, rest: seq<string>)
    requires lines != [] && MarkerOf(lines[0], BEGIN).Some? && StripLines(lines, None, seen).Some?
    ensures p.Section? && PartOk(p) && p.tag !in seen && lines == LinesOf(p) + rest
    ensures StripLines(rest, None, seen + {p.tag}).Some?
  {
    var tag := MarkerOf(lines[0], BEGIN).value;
    BlockMustEnd(lines[1..], tag, seen + {tag});
    var j :| 0 <= j < |lines[1..]| && MarkerFree(lines[1..][..j]) && MarkerOf(lines[1..][j], BEGIN).None?
          && MarkerOf(lines[1..][j], END) == Some(tag);
    p, rest := SectionAt(lines, j, tag), lines[j + 2..];
    SectionSplits(lines, j, tag);
    PartIsStripped(p, rest, seen);
  }

  function SectionAt(lines: seq<string>, j: nat, tag: string): Part
    requires j + 1 < |lines|
  {
    Section(lines[0], lines[1..][..j], lines[j + 1], tag)
  }

  lemma SectionSplits(lines: seq<string>, j: nat, tag: string)
    requires j + 1 < |lines|
    ensures lines == LinesOf(SectionAt(lines, j, tag)) + lines[j + 2..]
  {
    assert lines == [lines[0]] + lines[1..][..j] + [lines[j + 1]] + lines[j + 2..];
  }

  /** A first line that can be stripped is no marker. */
  lemma FirstLine(lines: seq<string>, seen: set<string>)
    requires lines != [] && MarkerOf(lines[0], BEGIN).None? && StripLines(lines, None, seen).Some?
    ensures !IsMarker(lines[0]) && StripLines(lines[1..], None, seen).Some?
  {
  }

  /** What can be stripped consists of well-formed parts. */
  lemma {:induction false} StrippedParses(lines: seq<string>, seen: set<string>)
    requires StripLines(lines, None, seen).Some?
    ensures exists ps :: Parses(ps, lines, seen)
    decreases |lines|
  {
    if lines == [] {
      assert Parses([], lines, seen);
    } else {
      var p, rest, now := Line(lines[0]), lines[1..], seen;
      if MarkerOf(lines[0], BEGIN).Some? {
        p, rest := FirstSection(lines, seen);
        now := seen + {p.tag};
      } else {
        FirstLine(lines, seen);
      }
      assert LinesOf(p) + rest == lines;
      StrippedParses(rest, now);
      var ps :| Parses(ps, rest, now);
      Prepended(p, ps, rest, seen);
      assert Parses([p] + ps, lines, seen);
    }
  }

  /** Main result on stripping: a text can be stripped exactly when its lines are plain lines and whole blocks, each
      ended by its own marker, not nested, with distinct labels; and what is left are exactly the lines outside. */
  lemma StripIff(data: string, result: string)
    ensures Stripped(data) == Some(result) <==>
              exists ps :: Parses(ps, Lines(data), {}) && Join(Outside(ps)) == result
  {
    if ps :| Parses(ps, Lines(data), {}) && Join(Outside(ps)) == result {
      PartsAreStripped(ps, {});
    }
    if Stripped(data) == Some(result) {
      StrippedParses(Lines(data), {});
      var ps :| Parses(ps, Lines(data), {});
      PartsAreStripped(ps, {});
    }
  }

  // ---------------------------------------------------------------- where a block goes

  predicate OccursAt(data: string, anchor: string, i: nat) {
    i <= |data| && anchor <= data[i..]
  }

  lemma OccursBehind(data: string, anchor: string, i: nat, j: nat)
    requires i <= |data| && j >= i
    ensures OccursAt(data, anchor, j) <==> OccursAt(data[i..], anchor, j - i)
  {
    if j <= |data| {
      assert data[i..][j - i..] == data[j..];
    }
  }

  /** An anchor that does not start the text occurs in it where it occurs in its tail. */
  lemma OccursLater(data: string, anchor: string, j: nat)
    requires data != "" && !(anchor <= data)
    ensures OccursAt(data, anchor, j) <==> j > 0 && OccursAt(data[1..], anchor, j - 1)
  {
    assert data[0..] == data;
    if j > 0 {
      OccursBehind(data, anchor, 1, j);
    }
  }

  lemma {:induction false} NoOccurrence(data: string, anchor: string, j: nat)
    requires anchor != "" && Count(data, anchor) == 0
    ensures !OccursAt(data, anchor, j)
    decreases |data|
  {
    if data != "" {
      OccursLater(data, anchor, j);
      if j > 0 {
        NoOccurrence(data[1..], anchor, j - 1);
      }
    }
  }

  /** A positive count finds the first occurrence, and goes on behind it. */
  lemma {:induction false} FirstOccurrence(data: string, anchor: string)
    requires anchor != "" && Count(data, anchor) >= 1
    ensures var i := |Before(data, anchor)|;
            && OccursAt(data, anchor, i) && Before(data, anchor) == data[..i]
            && (forall j: nat :: j < i ==> !OccursAt(data, anchor, j))
            && Count(data, anchor) == 1 + Count(data[i + |anchor|..], anchor)
    decreases |data|
  {
    if anchor <= data {
      assert data[0..] == data && data[..0] == "";
    } else {
      FirstOccurrence(data[1..], anchor);
      var i := |Before(data[1..], anchor)|;
      assert data[1..][i + |anchor|..] == data[i + 1 + |anchor|..];
      assert data[..i + 1] == [data[0]] + data[1..][..i];
      forall j: nat | j <= i + 1 ensures OccursAt(data, anchor, j) <==> j == i + 1 {
        OccursLater(data, anchor, j);
      }
    }
  }

  /** The anchor occurs there first, and not again behind that occurrence. */
  ghost predicate OccursOnce(data: string, anchor: string, i: nat) {
    && OccursAt(data, anchor, i) && (forall j: nat :: j < i ==> !OccursAt(data, anchor, j))
    && forall j: nat :: j >= i + |anchor| ==> !OccursAt(data, anchor, j)
  }

  /** What occurs behind the first occurrence occurs in the rest. */
  lemma RestIsBehind(data: string, anchor: string, i: nat)
    requires anchor != "" && OccursAt(data, anchor, i)
    ensures Count(data[i + |anchor|..], anchor) == 0 <==>
              forall j: nat :: j >= i + |anchor| ==> !OccursAt(data, anchor, j)
  {
    var n := i + |anchor|;
    var rest := data[n..];
    if Count(rest, anchor) == 0 {
      forall j: nat | j >= n ensures !OccursAt(data, anchor, j) {
        OccursBehind(data, anchor, n, j);
        NoOccurrence(rest, anchor, j - n);
      }
    } else {
      FirstOccurrence(rest, anchor);
      OccursBehind(data, anchor, n, n + |Before(rest, anchor)|);
      assert OccursAt(data, anchor, n + |Before(rest, anchor)|);
    }
  }

  lemma CountedOnceIff(data: string, anchor: string)
    requires anchor != "" && Count(data, anchor) >= 1
    ensures Count(data, anchor) == 1 <==> OccursOnce(data, anchor, |Before(data, anchor)|)
  {
    FirstOccurrence(data, anchor);
    RestIsBehind(data, anchor, |Before(data, anchor)|);
  }

  lemma OnceIsFirst(data: string, anchor: string, k: nat)
    requires anchor != "" && OccursOnce(data, anchor, k)
    ensures Count(data, anchor) >= 1 && k == |Before(data, anchor)|
  {
    if Count(data, anchor) == 0 {
      NoOccurrence(data, anchor, k);
    } else {
      FirstOccurrence(data, anchor);
    }
  }

  /** Main result on injection: the replacement takes the place of an anchor that occurs once, and nothing else of the
      text changes; any other text is refused. */
  lemma ReplaceOnceIff(data: string, anchor: string, replacement: string, result: string)
    requires anchor != ""
    ensures ReplaceOnce(data, anchor, replacement) == Some(result) <==>
              exists i: nat :: OccursOnce(data, anchor, i) && result == data[..i] + replacement + data[i + |anchor|..]
  {
    if Count(data, anchor) >= 1 {
      CountedOnceIff(data, anchor);
      FirstOccurrence(data, anchor);
    }
    if i: nat :| OccursOnce(data, anchor, i) && result == data[..i] + replacement + data[i + |anchor|..] {
      OnceIsFirst(data, anchor, i);
    }
    if ReplaceOnce(data, anchor, replacement) == Some(result) {
      var i := |Before(data, anchor)|;
      assert OccursOnce(data, anchor, i) && result == data[..i] + replacement + data[i + |anchor|..];
    }
  }
}
