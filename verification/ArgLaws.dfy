/**
 What the ARG pass guarantees, for any line grammar in which an added line reads back as a
 declaration of its own key: every stage declares every key, nothing already declared is added
 again, and a second pass changes nothing. Then how the pass relates to the plain insertion of
 all ARG lines, and to changes of single lines.
 */
module ArgLaws {
  import opened Text
  import opened Dockerfile
  import opened ArgPass

  /** Added lines are ARG lines that read back as the key they stand for. */
  ghost predicate ReadsBack(g: Grammar, args: seq<string>) {
    forall arg | arg in args ::
      && !g.isFrom(arg) && g.isArg(arg) && g.declared(arg) == Some(g.added(arg))
      && g.same(g.added(arg), g.added(arg))
  }

  function AddedKeys(g: Grammar, args: seq<string>): (r: seq<string>)
    ensures |r| == |args|
    ensures forall i | 0 <= i < |r| :: r[i] == g.added(args[i])
  {
    if args == [] then [] else [g.added(args[0])] + AddedKeys(g, args[1..])
  }

  /** A stage after the pass. */
  function Patched(g: Grammar, args: seq<string>, s: Stage): Stage {
    Stage(s.from, Missing(g, args, LeadingKeys(g, s.body)) + s.body)
  }

  /** Reading the rewritten file gives the stages of the original, each patched. */
  lemma ParseWithArgs(g: Grammar, args: seq<string>, lines: seq<string>)
    requires NoFrom(g.isFrom, args)
    ensures var before, after := Parse(g.isFrom, lines), Parse(g.isFrom, WithArgs(g, args, lines));
            && after == Insert(before, MissingFrom(g, args))
            && after.preamble == before.preamble
            && |after.stages| == |before.stages|
            && forall i | 0 <= i < |after.stages| :: after.stages[i] == Patched(g, args, before.stages[i])
  {
    ParseInsert(g.isFrom, lines, MissingFrom(g, args));
  }

  /** The leading run of a patched stage: the added keys, then the keys that were there. */
  lemma {:induction false} LeadingKeysAfter(g: Grammar, extra: seq<string>, body: seq<string>)
    requires ReadsBack(g, extra)
    ensures LeadingKeys(g, extra + body) == AddedKeys(g, extra) + LeadingKeys(g, body)
  {
    if extra == [] {
      assert extra + body == body;
    } else {
      assert (extra + body)[1..] == extra[1..] + body;
      LeadingKeysAfter(g, extra[1..], body);
    }
  }

  lemma PatchedKnowsEveryKey(g: Grammar, args: seq<string>, body: seq<string>, arg: string)
    requires ReadsBack(g, args) && arg in args
    ensures Known(g, LeadingKeys(g, Missing(g, args, LeadingKeys(g, body)) + body), g.added(arg))
  {
    var declared := LeadingKeys(g, body);
    var missing := Missing(g, args, declared);
    LeadingKeysAfter(g, missing, body);
    hide LeadingKeys;
    if arg in missing {
      var j :| 0 <= j < |missing| && missing[j] == arg;
      assert AddedKeys(g, missing)[j] == g.added(arg);
    } else {
      var d :| d in declared && g.same(d, g.added(arg));
      assert d in AddedKeys(g, missing) + declared;
    }
  }

  /** Every stage of the rewritten file knows every key by its leading ARG run. */
  lemma EveryStageKnowsEveryKey(g: Grammar, args: seq<string>, lines: seq<string>, i: nat, arg: string)
    requires ReadsBack(g, args) && arg in args
    requires i < |Parse(g.isFrom, WithArgs(g, args, lines)).stages|
    ensures Known(g, LeadingKeys(g, Parse(g.isFrom, WithArgs(g, args, lines)).stages[i].body), g.added(arg))
  {
    hide LeadingKeys;
    hide Known;
    hide Missing;
    hide WithArgs;
    ParseWithArgs(g, args, lines);
    PatchedKnowsEveryKey(g, args, Parse(g.isFrom, lines).stages[i].body, arg);
  }

  /**
   How often a stage declares a key after the pass: as often as before if the key was known, and
   once if it was not.
   */
  lemma DeclarationCount(g: Grammar, args: seq<string>, lines: seq<string>, i: nat, j: nat)
    requires ReadsBack(g, args)
    requires j < |args| && forall a, b | 0 <= a < b < |args| :: g.added(args[a]) != g.added(args[b])
    requires i < |Parse(g.isFrom, lines).stages|
    ensures var before := LeadingKeys(g, Parse(g.isFrom, lines).stages[i].body);
            && i < |Parse(g.isFrom, WithArgs(g, args, lines)).stages|
            && var after := LeadingKeys(g, Parse(g.isFrom, WithArgs(g, args, lines)).stages[i].body);
            var key := g.added(args[j]);
            multiset(after)[key] == if Known(g, before, key) then multiset(before)[key] else 1
  {
    ParseWithArgs(g, args, lines);
    var body := Parse(g.isFrom, lines).stages[i].body;
    var before := LeadingKeys(g, body);
    var missing := Missing(g, args, before);
    LeadingKeysAfter(g, missing, body);
    AddedOfMissing(g, args, before);
    CountNotDeclared(g, AddedKeys(g, args), before, g.added(args[j]));
    assert AddedKeys(g, args)[j] == g.added(args[j]);
    assert args[j] in args;
  }

  function NotDeclared(g: Grammar, keys: seq<string>, declared: seq<string>): seq<string> {
    if keys == [] then []
    else (if Known(g, declared, keys[0]) then [] else [keys[0]]) + NotDeclared(g, keys[1..], declared)
  }

  lemma {:induction false} AddedOfMissing(g: Grammar, args: seq<string>, declared: seq<string>)
    ensures AddedKeys(g, Missing(g, args, declared)) == NotDeclared(g, AddedKeys(g, args), declared)
  {
    if args != [] {
      AddedOfMissing(g, args[1..], declared);
      var rest := Missing(g, args[1..], declared);
      assert ([args[0]] + rest)[1..] == rest;
      assert AddedKeys(g, args)[1..] == AddedKeys(g, args[1..]);
    }
  }

  lemma {:induction false} CountNotDeclared(g: Grammar, keys: seq<string>, declared: seq<string>, key: string)
    requires forall a, b | 0 <= a < b < |keys| :: keys[a] != keys[b]
    ensures multiset(NotDeclared(g, keys, declared))[key] == if !Known(g, declared, key) && key in keys then 1 else 0
  {
    if keys != [] {
      CountNotDeclared(g, keys[1..], declared, key);
      assert keys == [keys[0]] + keys[1..];
    }
  }

  lemma {:induction false} NoneMissing(g: Grammar, args: seq<string>, declared: seq<string>)
    requires forall arg | arg in args :: Known(g, declared, g.added(arg))
    ensures Missing(g, args, declared) == []
  {
    hide Known;
    if args != [] {
      NoneMissing(g, args[1..], declared);
    }
  }

  /** A stage that knows every key is left as it is. */
  lemma StageThatKnows(g: Grammar, args: seq<string>, body: seq<string>)
    requires forall arg | arg in args :: Known(g, LeadingKeys(g, body), g.added(arg))
    ensures MissingFrom(g, args)(body) + body == body
  {
    hide Known;
    hide LeadingKeys;
    NoneMissing(g, args, LeadingKeys(g, body));
    assert [] + body == body;
  }

  lemma StageOfOutput(g: Grammar, args: seq<string>, lines: seq<string>, i: nat)
    requires ReadsBack(g, args)
    requires i < |Parse(g.isFrom, WithArgs(g, args, lines)).stages|
    ensures var body := Parse(g.isFrom, WithArgs(g, args, lines)).stages[i].body;
            MissingFrom(g, args)(body) + body == body
  {
    hide Known;
    hide LeadingKeys;
    hide WithArgs;
    var body := Parse(g.isFrom, WithArgs(g, args, lines)).stages[i].body;
    forall arg | arg in args
      ensures Known(g, LeadingKeys(g, body), g.added(arg))
    {
      EveryStageKnowsEveryKey(g, args, lines, i, arg);
    }
    StageThatKnows(g, args, body);
  }

  /** A second pass adds nothing. */
  lemma SecondPassAddsNothing(g: Grammar, args: seq<string>, lines: seq<string>)
    requires ReadsBack(g, args)
    ensures WithArgs(g, args, WithArgs(g, args, lines)) == WithArgs(g, args, lines)
  {
    hide Missing;
    hide ReadsBack;
    hide Parse;
    hide Render;
    var out := WithArgs(g, args, lines);
    var d := Parse(g.isFrom, out);
    var e := Insert(d, MissingFrom(g, args));
    forall i | 0 <= i < |d.stages|
      ensures e.stages[i] == d.stages[i]
    {
      StageOfOutput(g, args, lines, i);
    }
    assert e.stages == d.stages;
    RenderParse(g.isFrom, out);
  }

  /** If the pass added no line, it left the file as it was. */
  lemma NothingAddedSameFile(g: Grammar, args: seq<string>, lines: seq<string>)
    requires |WithArgs(g, args, lines)| <= |lines|
    ensures WithArgs(g, args, lines) == lines
  {
    var d := Parse(g.isFrom, lines);
    RenderParse(g.isFrom, lines);
    NothingAddedSameStages(d.stages, MissingFrom(g, args));
  }

  lemma {:induction false} NothingAddedSameStages(stages: seq<Stage>, extra: seq<string> -> seq<string>)
    ensures |RenderStages(InsertStages(stages, extra))| >= |RenderStages(stages)|
    ensures |RenderStages(InsertStages(stages, extra))| == |RenderStages(stages)| ==>
              InsertStages(stages, extra) == stages
  {
    if stages != [] {
      NothingAddedSameStages(stages[1..], extra);
      InsertCons(stages[0], stages[1..], extra);
      assert stages == [stages[0]] + stages[1..];
      assert [] + stages[0].body == stages[0].body;
    }
  }

  // ------------------------------------------------- plain insertion of all ARG lines

  /** Every FROM line followed by all the ARG lines, in order. */
  function WithAll(isFrom: LineTest, args: seq<string>, lines: seq<string>): seq<string> {
    Rewritten(isFrom, All(args), lines)
  }

  function All(args: seq<string>): seq<string> -> seq<string> {
    (body: seq<string>) => args
  }

  /** Drops the first n lines of every stage. */
  function Erased(n: nat, d: Document): Document {
    Document(d.preamble, ErasedStages(n, d.stages))
  }

  function ErasedStages(n: nat, stages: seq<Stage>): (r: seq<Stage>)
    ensures |r| == |stages|
    ensures forall i | 0 <= i < |r| ::
              r[i] == Stage(stages[i].from, if n <= |stages[i].body| then stages[i].body[n..] else [])
  {
    if stages == [] then []
    else
      var s := stages[0];
      [Stage(s.from, if n <= |s.body| then s.body[n..] else [])] + ErasedStages(n, stages[1..])
  }

  /** Erasing the inserted lines gives back the original file. */
  lemma EraseInserted(isFrom: LineTest, args: seq<string>, lines: seq<string>)
    requires NoFrom(isFrom, args)
    ensures Render(Erased(|args|, Parse(isFrom, WithAll(isFrom, args, lines)))) == lines
  {
    ParseInsert(isFrom, lines, All(args));
    var d := Parse(isFrom, lines);
    var back := Erased(|args|, Insert(d, All(args)));
    forall i | 0 <= i < |d.stages|
      ensures back.stages[i] == d.stages[i]
    {
      assert (args + d.stages[i].body)[|args|..] == d.stages[i].body;
    }
    assert back.stages == d.stages;
    RenderParse(isFrom, lines);
  }

  /** Two FROM tests that agree on the lines of a file read it alike. */
  lemma {:induction false} SameReading(isFrom: LineTest, isFrom': LineTest, lines: seq<string>)
    requires forall line | line in lines :: isFrom(line) == isFrom'(line)
    ensures Parse(isFrom, lines) == Parse(isFrom', lines)
  {
    if lines != [] {
      SameReading(isFrom, isFrom', lines[1..]);
    }
  }

  /** No stage knows, by its leading run, a key that is about to be added. */
  ghost predicate NothingDeclared(g: Grammar, args: seq<string>, d: Document) {
    forall s | s in d.stages :: DeclaresNone(g, args, s.body)
  }

  ghost predicate DeclaresNone(g: Grammar, args: seq<string>, body: seq<string>) {
    forall arg | arg in args :: !Known(g, LeadingKeys(g, body), g.added(arg))
  }

  /**
   On the same FROM lines, the offset pass and the insertion of all lines give the same file
   exactly when no stage already knows one of the keys.
   */
  lemma PassesAgree(g: Grammar, isFrom: LineTest, args: seq<string>, lines: seq<string>)
    requires forall line | line in lines :: isFrom(line) == g.isFrom(line)
    ensures WithArgs(g, args, lines) == WithAll(isFrom, args, lines)
       <==> NothingDeclared(g, args, Parse(g.isFrom, lines))
  {
    SameReading(isFrom, g.isFrom, lines);
    var d := Parse(g.isFrom, lines);
    Sizes(g, args, d.stages);
    LineCountIsLength(d.stages, MissingFrom(g, args));
    LineCountIsLength(d.stages, All(args));
    if NothingDeclared(g, args, d) {
      SameStages(g, args, d.stages);
    }
  }

  lemma SameStages(g: Grammar, args: seq<string>, stages: seq<Stage>)
    requires forall s | s in stages :: DeclaresNone(g, args, s.body)
    ensures InsertStages(stages, MissingFrom(g, args)) == InsertStages(stages, All(args))
  {
    forall s | s in stages
      ensures Missing(g, args, LeadingKeys(g, s.body)) == args
    {
      MissingAll(g, args, LeadingKeys(g, s.body));
    }
  }

  lemma {:induction false} MissingAll(g: Grammar, args: seq<string>, declared: seq<string>)
    ensures |Missing(g, args, declared)| <= |args|
    ensures Missing(g, args, declared) == args <==> forall arg | arg in args :: !Known(g, declared, g.added(arg))
    ensures |Missing(g, args, declared)| == |args| <==> Missing(g, args, declared) == args
  {
    if args != [] {
      MissingAll(g, args[1..], declared);
      assert args == [args[0]] + args[1..];
    }
  }

  /** How many lines the rewritten stages have. */
  function LineCount(stages: seq<Stage>, extra: seq<string> -> seq<string>): nat {
    if stages == [] then 0
    else 1 + |extra(stages[0].body)| + |stages[0].body| + LineCount(stages[1..], extra)
  }

  lemma {:induction false} LineCountIsLength(stages: seq<Stage>, extra: seq<string> -> seq<string>)
    ensures |RenderStages(InsertStages(stages, extra))| == LineCount(stages, extra)
  {
    if stages != [] {
      LineCountIsLength(stages[1..], extra);
      assert stages == [stages[0]] + stages[1..];
      InsertCons(stages[0], stages[1..], extra);
    }
  }

  /** The offset pass never writes more lines, and as many only if it adds every line to every stage. */
  lemma {:induction false} Sizes(g: Grammar, args: seq<string>, stages: seq<Stage>)
    ensures LineCount(stages, MissingFrom(g, args)) <= LineCount(stages, All(args))
    ensures LineCount(stages, MissingFrom(g, args)) == LineCount(stages, All(args)) ==>
              forall s | s in stages :: DeclaresNone(g, args, s.body)
  {
    hide LeadingKeys;
    hide Missing;
    if stages != [] {
      Sizes(g, args, stages[1..]);
      MissingAll(g, args, LeadingKeys(g, stages[0].body));
      assert |Missing(g, args, LeadingKeys(g, stages[0].body))| == |args| ==> DeclaresNone(g, args, stages[0].body);
      hide DeclaresNone;
      assert stages == [stages[0]] + stages[1..];
    }
  }

  // ------------------------------------------------- insertion and changes of single lines

  /** Stage-opening lines commute with a line change that does not touch what they depend on. */
  lemma InsertMapCommute(isFrom: LineTest, extra: seq<string> -> seq<string>, h: string -> string, lines: seq<string>)
    requires forall line :: isFrom(h(line)) == isFrom(line)
    requires forall body :: extra(MapLines(h, body)) == MapLines(h, extra(body))
    ensures Rewritten(isFrom, extra, MapLines(h, lines)) == MapLines(h, Rewritten(isFrom, extra, lines))
  {
    var d := Parse(isFrom, lines);
    ParseMap(isFrom, h, lines);
    var one, two := Insert(MapDocument(h, d), extra), MapDocument(h, Insert(d, extra));
    forall i | 0 <= i < |d.stages|
      ensures one.stages[i] == two.stages[i]
    {
      MapConcat(h, extra(d.stages[i].body), d.stages[i].body);
    }
    assert one.stages == two.stages;
    RenderMap(h, Insert(d, extra));
  }

  /** A line change that leaves ARG lines alone does not change what a stage declares. */
  lemma {:induction false} LeadingKeysMap(g: Grammar, h: string -> string, body: seq<string>)
    requires forall line :: g.isArg(h(line)) == g.isArg(line)
    requires forall line :: g.isArg(line) ==> h(line) == line
    ensures LeadingKeys(g, MapLines(h, body)) == LeadingKeys(g, body)
  {
    if body != [] {
      LeadingKeysMap(g, h, body[1..]);
      assert MapLines(h, body)[1..] == MapLines(h, body[1..]);
    }
  }

  /** The lines of a rewritten file: the original ones and the inserted ones. */
  lemma {:induction false} RewrittenLines(stages: seq<Stage>, extra: seq<string> -> seq<string>, pool: seq<string>)
    requires forall body, line :: line in extra(body) ==> line in pool
    ensures forall line | line in RenderStages(stages) :: line in RenderStages(InsertStages(stages, extra))
    ensures forall line | line in RenderStages(InsertStages(stages, extra)) ::
              line in RenderStages(stages) || line in pool
  {
    if stages != [] {
      RewrittenLines(stages[1..], extra, pool);
      InsertCons(stages[0], stages[1..], extra);
      assert stages == [stages[0]] + stages[1..];
    }
  }

  lemma RewrittenFile(isFrom: LineTest, extra: seq<string> -> seq<string>, pool: seq<string>, lines: seq<string>)
    requires forall body, line :: line in extra(body) ==> line in pool
    requires lines != []
    ensures var out := Rewritten(isFrom, extra, lines);
            && out != [] && out[0] == lines[0]
            && (forall line | line in lines :: line in out)
            && (forall line | line in out :: line in lines || line in pool)
  {
    RenderParse(isFrom, lines);
    RewrittenLines(Parse(isFrom, lines).stages, extra, pool);
  }
}
