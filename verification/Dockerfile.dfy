/**
 What a Dockerfile means to the rewriting passes: a preamble, then stages, each opened by a
 FROM line. Build arguments are scoped to one stage, so every stage declares them again.
 */
module Dockerfile {
  datatype Stage = Stage(from: string, body: seq<string>)
  datatype Document = Document(preamble: seq<string>, stages: seq<Stage>)

  type LineTest = string -> bool

  /** Reads lines as a document, under a given test for FROM lines. */
  function Parse(isFrom: LineTest, lines: seq<string>): Document {
    if lines == [] then Document([], [])
    else
      var rest := Parse(isFrom, lines[1..]);
      if isFrom(lines[0]) then Document([], [Stage(lines[0], rest.preamble)] + rest.stages)
      else Document([lines[0]] + rest.preamble, rest.stages)
  }

  function Render(d: Document): seq<string> {
    d.preamble + RenderStages(d.stages)
  }

  function RenderStages(stages: seq<Stage>): seq<string> {
    if stages == [] then [] else [stages[0].from] + stages[0].body + RenderStages(stages[1..])
  }

  predicate NoFrom(isFrom: LineTest, lines: seq<string>) {
    forall line | line in lines :: !isFrom(line)
  }

  /** The documents that are the reading of some file. */
  predicate WellFormed(isFrom: LineTest, d: Document) {
    NoFrom(isFrom, d.preamble) && forall s | s in d.stages :: isFrom(s.from) && NoFrom(isFrom, s.body)
  }

  lemma {:induction false} ParseIsWellFormed(isFrom: LineTest, lines: seq<string>)
    ensures WellFormed(isFrom, Parse(isFrom, lines))
  {
    if lines != [] {
      ParseIsWellFormed(isFrom, lines[1..]);
    }
  }

  lemma {:induction false} RenderParse(isFrom: LineTest, lines: seq<string>)
    ensures Render(Parse(isFrom, lines)) == lines
  {
    if lines != [] {
      var rest := Parse(isFrom, lines[1..]);
      RenderParse(isFrom, lines[1..]);
      if isFrom(lines[0]) {
        assert ([Stage(lines[0], rest.preamble)] + rest.stages)[1..] == rest.stages;
      }
      assert lines == [lines[0]] + lines[1..];
    }
  }

  lemma {:induction false} ParseRender(isFrom: LineTest, d: Document)
    requires WellFormed(isFrom, d)
    ensures Parse(isFrom, Render(d)) == d
    decreases |d.stages|
  {
    if d.stages == [] {
      assert Render(d) == d.preamble;
      ParsePrefix(isFrom, d.preamble, []);
      assert d.preamble + [] == d.preamble;
    } else {
      var s, rest := d.stages[0], d.stages[1..];
      ParseRender(isFrom, Document(s.body, rest));
      var tail := RenderStages(d.stages);
      assert tail[1..] == s.body + RenderStages(rest);
      assert [s] + rest == d.stages;
      ParsePrefix(isFrom, d.preamble, tail);
    }
  }

  /** Lines before the first FROM only lengthen the preamble. */
  lemma {:induction false} ParsePrefix(isFrom: LineTest, head: seq<string>, tail: seq<string>)
    requires NoFrom(isFrom, head)
    ensures var d := Parse(isFrom, tail);
            Parse(isFrom, head + tail) == Document(head + d.preamble, d.stages)
  {
    if head == [] {
      assert head + tail == tail;
    } else {
      assert (head + tail)[1..] == head[1..] + tail;
      ParsePrefix(isFrom, head[1..], tail);
      assert head == [head[0]] + head[1..];
    }
  }

  /** A FROM line and the lines up to the next FROM line are one stage. */
  lemma {:induction false} ParseStage(isFrom: LineTest, from: string, body: seq<string>, tail: seq<string>)
    requires isFrom(from) && NoFrom(isFrom, body)
    requires tail == [] || isFrom(tail[0])
    ensures Parse(isFrom, [from] + body + tail)
         == Document([], [Stage(from, body)] + Parse(isFrom, tail).stages)
  {
    var lines := [from] + body + tail;
    assert lines[1..] == body + tail;
    ParsePrefix(isFrom, body, tail);
    assert Parse(isFrom, tail).preamble == [];
    assert body + [] == body;
    assert lines[0] == from;
  }

  /** Opens every stage with extra lines that depend on the stage's body. */
  function Insert(d: Document, extra: seq<string> -> seq<string>): Document {
    Document(d.preamble, InsertStages(d.stages, extra))
  }

  function InsertStages(stages: seq<Stage>, extra: seq<string> -> seq<string>): (r: seq<Stage>)
    ensures |r| == |stages|
    ensures forall i | 0 <= i < |r| ::
              r[i] == Stage(stages[i].from, extra(stages[i].body) + stages[i].body)
  {
    if stages == [] then []
    else [Stage(stages[0].from, extra(stages[0].body) + stages[0].body)] + InsertStages(stages[1..], extra)
  }

  /** Reading a rewritten document finds the same preamble and FROM lines. */
  lemma ParseInsert(isFrom: LineTest, lines: seq<string>, extra: seq<string> -> seq<string>)
    requires forall body :: NoFrom(isFrom, extra(body))
    ensures var d := Insert(Parse(isFrom, lines), extra);
            WellFormed(isFrom, d) && Parse(isFrom, Render(d)) == d
  {
    ParseIsWellFormed(isFrom, lines);
    ParseRender(isFrom, Insert(Parse(isFrom, lines), extra));
  }

  /** Changes every line of a document. */
  function MapLines(g: string -> string, lines: seq<string>): (r: seq<string>)
    ensures |r| == |lines|
    ensures forall i | 0 <= i < |r| :: r[i] == g(lines[i])
  {
    if lines == [] then [] else [g(lines[0])] + MapLines(g, lines[1..])
  }

  function MapStages(g: string -> string, stages: seq<Stage>): (r: seq<Stage>)
    ensures |r| == |stages|
    ensures forall i | 0 <= i < |r| :: r[i] == Stage(g(stages[i].from), MapLines(g, stages[i].body))
  {
    if stages == [] then []
    else [Stage(g(stages[0].from), MapLines(g, stages[0].body))] + MapStages(g, stages[1..])
  }

  function MapDocument(g: string -> string, d: Document): Document {
    Document(MapLines(g, d.preamble), MapStages(g, d.stages))
  }

  lemma MapConcat(g: string -> string, a: seq<string>, b: seq<string>)
    ensures MapLines(g, a + b) == MapLines(g, a) + MapLines(g, b)
  {
  }

  lemma RenderMap(g: string -> string, d: Document)
    ensures Render(MapDocument(g, d)) == MapLines(g, Render(d))
  {
    RenderMapStages(g, d.stages);
    MapConcat(g, d.preamble, RenderStages(d.stages));
  }

  lemma {:induction false} RenderMapStages(g: string -> string, stages: seq<Stage>)
    ensures RenderStages(MapStages(g, stages)) == MapLines(g, RenderStages(stages))
  {
    if stages != [] {
      var s, rest := stages[0], stages[1..];
      RenderMapStages(g, rest);
      assert MapStages(g, stages)[1..] == MapStages(g, rest);
      MapConcat(g, [s.from] + s.body, RenderStages(rest));
      MapConcat(g, [s.from], s.body);
      assert MapLines(g, [s.from]) == [g(s.from)];
    }
  }

  /** A line change that keeps FROM lines apart from the others commutes with reading. */
  lemma {:induction false} ParseMap(isFrom: LineTest, g: string -> string, lines: seq<string>)
    requires forall line :: isFrom(g(line)) == isFrom(line)
    ensures Parse(isFrom, MapLines(g, lines)) == MapDocument(g, Parse(isFrom, lines))
  {
    if lines != [] {
      ParseMap(isFrom, g, lines[1..]);
      assert MapLines(g, lines)[1..] == MapLines(g, lines[1..]);
    }
  }

  lemma InsertCons(s: Stage, rest: seq<Stage>, extra: seq<string> -> seq<string>)
    ensures RenderStages(InsertStages([s] + rest, extra))
         == [s.from] + extra(s.body) + s.body + RenderStages(InsertStages(rest, extra))
  {
  }

  /** The file obtained by opening every stage with extra lines. */
  function Rewritten(isFrom: LineTest, extra: seq<string> -> seq<string>, lines: seq<string>): seq<string> {
    Render(Insert(Parse(isFrom, lines), extra))
  }

  lemma RewrittenStage(isFrom: LineTest, extra: seq<string> -> seq<string>, from: string, body: seq<string>,
      tail: seq<string>)
    requires isFrom(from) && NoFrom(isFrom, body)
    requires tail == [] || isFrom(tail[0])
    ensures Rewritten(isFrom, extra, [from] + body + tail) ==
              [from] + extra(body) + body + Rewritten(isFrom, extra, tail)
  {
    ParseStage(isFrom, from, body, tail);
    var rest := Parse(isFrom, tail);
    assert rest.preamble == [];
    InsertCons(Stage(from, body), rest.stages, extra);
    assert Rewritten(isFrom, extra, tail) == RenderStages(InsertStages(rest.stages, extra));
  }

  /** Lines that stand before the first FROM are outside every stage. */
  lemma RewrittenPrefix(isFrom: LineTest, extra: seq<string> -> seq<string>, head: seq<string>, lines: seq<string>)
    requires NoFrom(isFrom, head)
    ensures Rewritten(isFrom, extra, head + lines) == head + Rewritten(isFrom, extra, lines)
  {
    ParsePrefix(isFrom, head, lines);
  }

  /** Where the stage ends that is opened by line i: at the next FROM line, or at the end of the file. */
  function StageEnd(isFrom: LineTest, lines: seq<string>, i: nat): (end: nat)
    requires i < |lines|
    ensures i < end <= |lines| && forall j | i < j < end :: !isFrom(lines[j])
    ensures end < |lines| ==> isFrom(lines[end])
    decreases |lines| - i
  {
    if i + 1 == |lines| || isFrom(lines[i + 1]) then i + 1 else StageEnd(isFrom, lines, i + 1)
  }

  /** A FROM line starts afresh: what stands before it is read without it. */
  lemma {:induction false} ParseConcat(isFrom: LineTest, a: seq<string>, b: seq<string>)
    requires b == [] || isFrom(b[0])
    ensures var d := Parse(isFrom, a);
            Parse(isFrom, a + b) == Document(d.preamble, d.stages + Parse(isFrom, b).stages)
  {
    if a == [] {
      assert a + b == b;
    } else {
      assert (a + b)[1..] == a[1..] + b;
      ParseConcat(isFrom, a[1..], b);
    }
  }

  lemma {:induction false} InsertConcat(a: seq<Stage>, b: seq<Stage>, extra: seq<string> -> seq<string>)
    ensures RenderStages(InsertStages(a + b, extra))
         == RenderStages(InsertStages(a, extra)) + RenderStages(InsertStages(b, extra))
  {
    if a == [] {
      assert a + b == b;
    } else {
      assert a + b == [a[0]] + (a[1..] + b) && a == [a[0]] + a[1..];
      InsertCons(a[0], a[1..] + b, extra);
      InsertCons(a[0], a[1..], extra);
      InsertConcat(a[1..], b, extra);
    }
  }

  lemma RewrittenConcat(isFrom: LineTest, extra: seq<string> -> seq<string>, a: seq<string>, b: seq<string>)
    requires b == [] || isFrom(b[0])
    ensures Rewritten(isFrom, extra, a + b) == Rewritten(isFrom, extra, a) + Rewritten(isFrom, extra, b)
  {
    ParseConcat(isFrom, a, b);
    InsertConcat(Parse(isFrom, a).stages, Parse(isFrom, b).stages, extra);
  }

  /** What becomes of the stage that line i opens: the extra lines come right after that line, the rest stays. */
  lemma RewrittenAt(isFrom: LineTest, extra: seq<string> -> seq<string>, lines: seq<string>, i: nat)
    requires i < |lines| && isFrom(lines[i])
    ensures var end := StageEnd(isFrom, lines, i);
            var body := lines[i + 1..end];
            Rewritten(isFrom, extra, lines) ==
              Rewritten(isFrom, extra, lines[..i])
              + ([lines[i]] + extra(body) + body + Rewritten(isFrom, extra, lines[end..]))
  {
    hide Rewritten;
    hide StageEnd;
    var end := StageEnd(isFrom, lines, i);
    var body, rest := lines[i + 1..end], lines[end..];
    StageParts(lines, i, end);
    NoFromInside(isFrom, lines, i, end);
    RewrittenConcat(isFrom, extra, lines[..i], [lines[i]] + body + rest);
    RewrittenStage(isFrom, extra, lines[i], body, rest);
  }

  lemma StageParts(lines: seq<string>, i: nat, end: nat)
    requires i < end <= |lines|
    ensures lines == lines[..i] + ([lines[i]] + lines[i + 1..end] + lines[end..])
    ensures end < |lines| ==> lines[end..][0] == lines[end]
    ensures ([lines[i]] + lines[i + 1..end] + lines[end..])[0] == lines[i]
  {
  }

  lemma NoFromInside(isFrom: LineTest, lines: seq<string>, i: nat, end: nat)
    requires i < end <= |lines| && forall j | i < j < end :: !isFrom(lines[j])
    ensures NoFrom(isFrom, lines[i + 1..end])
  {
  }

  /** The positions of the FROM lines, in order and complete. */
  ghost predicate FromPositions(isFrom: LineTest, lines: seq<string>, fromIndices: seq<nat>) {
    && (forall j | 0 <= j < |fromIndices| :: fromIndices[j] < |lines| && isFrom(lines[fromIndices[j]]))
    && (forall j, k | 0 <= j < k < |fromIndices| :: fromIndices[j] < fromIndices[k])
    && (forall i | 0 <= i < |lines| && isFrom(lines[i]) :: i in fromIndices)
  }

  method FindFromLines(isFrom: LineTest, lines: seq<string>) returns (fromIndices: seq<nat>)
    ensures FromPositions(isFrom, lines, fromIndices)
  {
    fromIndices := [];
    for index := 0 to |lines|
      invariant forall j | 0 <= j < |fromIndices| :: fromIndices[j] < index && isFrom(lines[fromIndices[j]])
      invariant forall j, k | 0 <= j < k < |fromIndices| :: fromIndices[j] < fromIndices[k]
      invariant forall i | 0 <= i < index && isFrom(lines[i]) :: i in fromIndices
    {
      if isFrom(lines[index]) {
        fromIndices := fromIndices + [index];
      }
    }
  }

  /** Where stage j starts; past the last stage, the end of the file. */
  ghost function StageAt(fromIndices: seq<nat>, j: nat, length: nat): nat {
    if j < |fromIndices| then fromIndices[j] else length
  }

  lemma NoFromBefore(isFrom: LineTest, lines: seq<string>, fromIndices: seq<nat>)
    requires fromIndices != []
    requires FromPositions(isFrom, lines, fromIndices)
    ensures NoFrom(isFrom, lines[..fromIndices[0]])
  {
  }

  /** No FROM line lies strictly between two neighbouring stage starts. */
  lemma NoFromBetween(isFrom: LineTest, lines: seq<string>, fromIndices: seq<nat>, j: nat)
    requires j < |fromIndices|
    requires FromPositions(isFrom, lines, fromIndices)
    ensures fromIndices[j] < StageAt(fromIndices, j + 1, |lines|) <= |lines|
    ensures NoFrom(isFrom, lines[fromIndices[j] + 1..StageAt(fromIndices, j + 1, |lines|)])
  {
  }
}
