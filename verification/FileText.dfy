/**
 The passes work on lines, but files are read and written as text: read, trimmed and split at
 line ends, written by joining. Reading back what the compose pass wrote gives the same lines,
 so the guarantees about repeated passes hold for files.
 */
module FileText {
  import opened Text
  import opened Dockerfile
  import opened DockerLines
  import ArgPass
  import ArgLaws
  import ComposePass

  function ReadLines(content: string): seq<string> {
    Split(Trim(StrBlank, content), '\n')
  }

  function WriteLines(lines: seq<string>): string {
    Join(lines, "\n")
  }

  function ComposeFile(keys: seq<string>, content: string): string {
    WriteLines(ComposePass.WithArgs(keys, ReadLines(content)))
  }

  /** The lines of a file that survive being written and read again. */
  predicate Stable(lines: seq<string>) {
    && lines != []
    && (forall line | line in lines :: '\n' !in line)
    && (lines == [""] || (
          && lines[0] != "" && !StrBlank(lines[0][0])
          && lines[|lines| - 1] != "" && !StrBlank(lines[|lines| - 1][|lines[|lines| - 1]| - 1])))
  }

  lemma StableReadsBack(lines: seq<string>)
    requires Stable(lines)
    ensures ReadLines(WriteLines(lines)) == lines
  {
    hide StrBlank;
    hide TrimStart;
    hide TrimEnd;
    hide Trim;
    if lines != [""] {
      JoinEnds(lines, "\n");
    }
    TrimIdentity(StrBlank, WriteLines(lines));
    SplitJoin(lines, '\n');
  }

  function Last(pieces: seq<string>): string
    requires pieces != []
  {
    pieces[|pieces| - 1]
  }

  lemma SplitLastStep(s: string, sep: char)
    ensures AfterChar(s, sep).None? ==> Last(Split(s, sep)) == s
    ensures AfterChar(s, sep).Some? ==> Last(Split(s, sep)) == Last(Split(AfterChar(s, sep).value, sep))
  {
  }

  lemma {:induction false} SplitLast(s: string, sep: char)
    requires s != "" && s[|s| - 1] != sep
    ensures var last := Last(Split(s, sep));
            last != "" && last[|last| - 1] == s[|s| - 1]
    decreases |s|
  {
    SplitLastStep(s, sep);
    hide *;
    match AfterChar(s, sep) {
      case None =>
      case Some(rest) =>
        assert rest != "" && rest[|rest| - 1] == s[|s| - 1];
        SplitLast(rest, sep);
    }
  }

  lemma FirstPiece(t: string)
    ensures Split(t, '\n')[0] == Before(t, '\n') || Split(t, '\n') == [t]
  {
    hide Before;
    hide AfterChar;
  }

  lemma FirstOfText(t: string)
    requires t != "" && t[0] != '\n'
    ensures Split(t, '\n')[0] != "" && Split(t, '\n')[0][0] == t[0]
  {
    hide Split;
    FirstPiece(t);
  }

  /** The lines of a text whose ends are neither blank nor line breaks. */
  lemma SplitStable(t: string)
    requires StrBlank('\n')
    requires t != "" ==> !StrBlank(t[0]) && !StrBlank(t[|t| - 1])
    ensures Stable(Split(t, '\n'))
  {
    hide StrBlank;
    hide Split;
    if t == "" {
      NoLineBreak(t);
    } else {
      SplitLast(t, '\n');
      FirstOfText(t);
    }
  }

  lemma ReadLinesStable(content: string)
    ensures Stable(ReadLines(content))
  {
    assert StrBlank('\n');
    hide StrBlank;
    hide Trim;
    hide Split;
    hide Stable;
    TrimEnds(StrBlank, content);
    SplitStable(Trim(StrBlank, content));
  }

  /** The last line of a rewritten file: the original last line, or an inserted one. */
  lemma {:induction false} LastLine(stages: seq<Stage>, extra: seq<string> -> seq<string>, pool: seq<string>)
    requires forall body, line :: line in extra(body) ==> line in pool
    requires stages != []
    ensures var before, after := RenderStages(stages), RenderStages(InsertStages(stages, extra));
            before != [] && after != []
            && (after[|after| - 1] == before[|before| - 1] || after[|after| - 1] in pool)
    decreases |stages|
  {
    InsertCons(stages[0], stages[1..], extra);
    assert stages == [stages[0]] + stages[1..];
    if |stages| > 1 {
      LastLine(stages[1..], extra, pool);
    } else {
      assert stages[1..] == [];
    }
  }

  lemma LastLineOfFile(keys: seq<string>, lines: seq<string>)
    requires lines != []
    ensures var out := ComposePass.WithArgs(keys, lines);
            out != [] && (out[|out| - 1] == lines[|lines| - 1] || out[|out| - 1] in ComposePass.ArgLines(keys))
  {
    hide ComposeFrom;
    var extra := ArgPass.MissingFrom(ComposePass.COMPOSE, ComposePass.ArgLines(keys));
    var d := Parse(ComposeFrom, lines);
    RenderParse(ComposeFrom, lines);
    if d.stages != [] {
      LastLine(d.stages, extra, ComposePass.ArgLines(keys));
    }
  }

  /** Keys that are written on one line. */
  predicate OneLineKeys(keys: seq<string>) {
    ComposePass.AreKeys(keys) && forall key | key in keys :: '\n' !in key
  }

  lemma ArgLinesStable(keys: seq<string>)
    requires OneLineKeys(keys)
    ensures forall arg | arg in ComposePass.ArgLines(keys) :: '\n' !in arg && arg != "" && !StrBlank(arg[|arg| - 1])
  {
    hide StrBlank;
    hide IsKey;
    hide ArgLine;
    var args := ComposePass.ArgLines(keys);
    forall arg | arg in args
      ensures '\n' !in arg && arg != "" && !StrBlank(arg[|arg| - 1])
    {
      var i :| 0 <= i < |args| && args[i] == arg;
      KeyLine(keys[i]);
    }
  }

  lemma RewrittenLinesOf(keys: seq<string>, lines: seq<string>)
    requires lines != []
    ensures var out := ComposePass.WithArgs(keys, lines);
            && out != [] && out[0] == lines[0]
            && forall line | line in out :: line in lines || line in ComposePass.ArgLines(keys)
  {
    hide ComposeFrom;
    var args := ComposePass.ArgLines(keys);
    ArgLaws.RewrittenFile(ComposeFrom, ArgPass.MissingFrom(ComposePass.COMPOSE, args), args, lines);
  }

  lemma StaysStable(keys: seq<string>, lines: seq<string>)
    requires OneLineKeys(keys)
    requires Stable(lines)
    ensures Stable(ComposePass.WithArgs(keys, lines))
  {
    hide StrBlank;
    hide IsKey;
    hide ComposePass.WithArgs;
    hide ComposePass.ArgLines;
    ArgLinesStable(keys);
    RewrittenLinesOf(keys, lines);
    LastLineOfFile(keys, lines);
    if lines == [""] {
      EmptyFileStays(keys);
    }
  }

  /** What the compose pass makes of a file survives being written and read again. */
  lemma WrittenFileReadsBack(keys: seq<string>, content: string)
    requires OneLineKeys(keys)
    ensures ReadLines(ComposeFile(keys, content)) == ComposePass.WithArgs(keys, ReadLines(content))
  {
    hide ReadLines;
    hide WriteLines;
    hide Stable;
    hide ComposePass.WithArgs;
    ReadLinesStable(content);
    StaysStable(keys, ReadLines(content));
    StableReadsBack(ComposePass.WithArgs(keys, ReadLines(content)));
  }

  lemma FromFile()
    ensures ReadLines("FROM x") == ["FROM x"]
  {
    hide StrBlank;
    hide PhpBlank;
    hide Trim;
    hide Split;
    VisibleIsNotBlank('F');
    VisibleIsNotBlank('x');
    SolidEnds("FROM x");
    NoLineBreak("FROM x");
  }

  lemma NoLineBreak(s: string)
    requires '\n' !in s
    ensures Split(s, '\n') == [s]
  {
  }

  /** A key with a line break is written as two lines. */
  lemma BrokenKey(keys: seq<string>, key: string)
    requires ComposePass.AreKeys(keys) && key in keys && '\n' in key
    ensures ReadLines(ComposeFile(keys, "FROM x")) != ComposePass.WithArgs(keys, ReadLines("FROM x"))
  {
    hide IsKey;
    hide ComposeFrom;
    hide ComposePass.StageKeys;
    hide ArgPass.Known;
    FromFile();
    ComposePass.OneStage([]);
    assert ["FROM x"] + [] == ["FROM x"];
    hide Split;
    ComposePass.StageByStage(keys, ["FROM x"], 0);
    NothingDeclared();
    ComposePass.UnknownKeys(keys, []);
    var out := ComposePass.WithArgs(keys, ["FROM x"]);
    var added := ComposePass.Unknown(keys, []);
    var i :| 0 <= i < |added| && added[i] == key;
    hide ComposePass.WithArgs;
    InFirstStage(out, ArgLine(key));
    LineWithBreak(key);
  }

  lemma NothingDeclared()
    ensures ComposePass.StageKeys([]) == []
    ensures forall key :: !ArgPass.Known(ComposePass.COMPOSE, [], key)
  {
  }

  lemma LineWithBreak(key: string)
    requires '\n' in key
    ensures '\n' in ArgLine(key)
  {
  }

  lemma InFirstStage(lines: seq<string>, line: string)
    requires ComposePass.Stages(lines) != [] && line in ComposePass.Stages(lines)[0].body
    ensures line in lines
  {
    hide ComposeFrom;
    RenderParse(ComposeFrom, lines);
  }

  /** Every written file reads back as it was made if and only if no key has a line break. */
  lemma ReadsBackExactly(keys: seq<string>)
    requires ComposePass.AreKeys(keys)
    ensures (forall content :: ReadLines(ComposeFile(keys, content)) == ComposePass.WithArgs(keys, ReadLines(content)))
       <==> forall key | key in keys :: '\n' !in key
  {
    hide IsKey;
    hide ReadLines;
    hide ComposeFile;
    hide ComposePass.WithArgs;
    if OneLineKeys(keys) {
      forall content
        ensures ReadLines(ComposeFile(keys, content)) == ComposePass.WithArgs(keys, ReadLines(content))
      {
        WrittenFileReadsBack(keys, content);
      }
    } else {
      var key :| key in keys && '\n' in key;
      BrokenKey(keys, key);
    }
  }

  lemma KeyLine(key: string)
    requires IsKey(key) && '\n' !in key
    ensures var line := ArgLine(key); '\n' !in line && line != "" && !StrBlank(line[|line| - 1])
  {
    hide StrBlank;
  }

  lemma EmptyLine()
    ensures !ComposeFrom("")
  {
    hide StrBlank;
    hide PhpBlank;
    hide Trim;
    SolidEnds("");
  }

  lemma EmptyFileStays(keys: seq<string>)
    ensures ComposePass.WithArgs(keys, [""]) == [""]
  {
    hide ComposeFrom;
    EmptyLine();
    ArgPass.WithArgsNoStages(ComposePass.COMPOSE, ComposePass.ArgLines(keys), [""]);
  }

  /**
   Running the compose pass again on the file it wrote changes no character of it if and only if the
   file has no stage or no key has an equals sign.
   */
  lemma SecondPassSameFile(keys: seq<string>, content: string)
    requires OneLineKeys(keys)
    ensures ComposeFile(keys, ComposeFile(keys, content)) == ComposeFile(keys, content)
       <==> ComposePass.Stages(ReadLines(content)) == [] || ComposePass.NoEquals(keys)
  {
    hide ComposePass.WithArgs;
    hide ComposePass.Stages;
    hide ReadLines;
    hide WriteLines;
    hide IsKey;
    WrittenFileReadsBack(keys, content);
    WrittenFileReadsBack(keys, ComposeFile(keys, content));
    ComposePass.SecondPassExactly(keys, ReadLines(content));
  }
}
