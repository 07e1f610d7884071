/**
 Adding the missing ARG lines to every stage, for any line grammar: the specification, stage by
 stage, and the in-place pass that walks the FROM lines forward with a running offset.
 */
module ArgPass {
  import opened Text
  import opened Dockerfile

  /**
   How lines are recognised: FROM lines, the ARG lines that continue a stage's leading run, the
   key such a line declares, the key a line about to be added stands for, and when a declared key
   counts as the same as a key to be added.
   */
  datatype Grammar = Grammar(
    isFrom: string -> bool,
    isArg: string -> bool,
    declared: string -> Option<string>,
    added: string -> string,
    same: (string, string) -> bool)

  /** A key is known when a declared key counts as the same. */
  predicate Known(g: Grammar, declared: seq<string>, key: string) {
    exists d | d in declared :: g.same(d, key)
  }

  function KeyOf(g: Grammar, line: string): seq<string> {
    match g.declared(line)
    case None => []
    case Some(key) => [key]
  }

  /** The keys declared by the run of ARG lines at the head of a stage. */
  function LeadingKeys(g: Grammar, body: seq<string>): seq<string> {
    if body == [] || !g.isArg(body[0]) then [] else KeyOf(g, body[0]) + LeadingKeys(g, body[1..])
  }

  function Missing(g: Grammar, args: seq<string>, declared: seq<string>): (r: seq<string>)
    ensures forall arg | arg in r :: arg in args && !Known(g, declared, g.added(arg))
    ensures forall arg | arg in args && !Known(g, declared, g.added(arg)) :: arg in r
  {
    if args == [] then []
    else (if Known(g, declared, g.added(args[0])) then [] else [args[0]]) + Missing(g, args[1..], declared)
  }

  /** The lines a stage is missing, as a function of its body. */
  function MissingFrom(g: Grammar, args: seq<string>): seq<string> -> seq<string> {
    (body: seq<string>) => Missing(g, args, LeadingKeys(g, body))
  }

  /** The result of the pass, stage by stage. */
  function WithArgs(g: Grammar, args: seq<string>, lines: seq<string>): seq<string> {
    Rewritten(g.isFrom, MissingFrom(g, args), lines)
  }

  // ------------------------------------------------------------------ the in-place pass

  lemma LeadingKeysStep(g: Grammar, body: seq<string>, k: nat, existing: seq<string>)
    requires k < |body|
    ensures !g.isArg(body[k]) ==> LeadingKeys(g, body[k..]) == []
    ensures g.isArg(body[k]) ==>
              existing + LeadingKeys(g, body[k..]) == (existing + KeyOf(g, body[k])) + LeadingKeys(g, body[k + 1..])
  {
  }

  /** Collects the keys of the ARG run that starts at stageStart, looking no further than stageEnd. */
  method ExistingStageArgs(g: Grammar, lines: seq<string>, stageStart: nat, stageEnd: nat)
    returns (existing: seq<string>)
    requires stageStart <= stageEnd <= |lines|
    ensures existing == LeadingKeys(g, lines[stageStart..stageEnd])
  {
    ghost var body := lines[stageStart..stageEnd];
    existing := [];
    assert body[0..] == body;
    var i := stageStart;
    while i < stageEnd
      invariant stageStart <= i <= stageEnd
      invariant existing + LeadingKeys(g, body[i - stageStart..]) == LeadingKeys(g, body)
    {
      var line := lines[i];
      assert line == body[i - stageStart];
      LeadingKeysStep(g, body, i - stageStart, existing);
      if !g.isArg(line) {
        return;
      }
      match g.declared(line) {
        case None => assert existing + [] == existing;
        case Some(key) => existing := existing + [key];
      }
      i := i + 1;
    }
  }

  /** One stage of the specification, split off the front. */
  lemma WithArgsOfStage(g: Grammar, args: seq<string>, from: string, body: seq<string>, tail: seq<string>)
    requires g.isFrom(from) && NoFrom(g.isFrom, body)
    requires tail == [] || g.isFrom(tail[0])
    ensures WithArgs(g, args, [from] + body + tail) ==
              [from] + MissingFrom(g, args)(body) + body + WithArgs(g, args, tail)
  {
    RewrittenStage(g.isFrom, MissingFrom(g, args), from, body, tail);
  }

  lemma WithArgsOfPreamble(g: Grammar, args: seq<string>, preamble: seq<string>, tail: seq<string>)
    requires NoFrom(g.isFrom, preamble)
    ensures WithArgs(g, args, preamble + tail) == preamble + WithArgs(g, args, tail)
  {
    RewrittenPrefix(g.isFrom, MissingFrom(g, args), preamble, tail);
  }

  /** A Dockerfile without FROM lines is left alone. */
  lemma WithArgsNoStages(g: Grammar, args: seq<string>, lines: seq<string>)
    requires NoFrom(g.isFrom, lines)
    ensures WithArgs(g, args, lines) == lines
  {
    assert lines + [] == lines;
    WithArgsOfPreamble(g, args, lines, []);
  }

  /** With nothing to declare, nothing changes. */
  lemma WithArgsNoKeys(g: Grammar, lines: seq<string>)
    ensures WithArgs(g, [], lines) == lines
  {
    var d := Parse(g.isFrom, lines);
    var e := Insert(d, MissingFrom(g, []));
    forall i | 0 <= i < |d.stages|
      ensures e.stages[i] == d.stages[i]
    {
      assert e.stages[i].body == [] + d.stages[i].body;
    }
    assert e.stages == d.stages;
    RenderParse(g.isFrom, lines);
  }

  lemma MissingStep(g: Grammar, args: seq<string>, i: nat, existing: seq<string>, kept: seq<string>)
    requires i < |args|
    ensures kept + Missing(g, args[i..], existing)
         == (if Known(g, existing, g.added(args[i])) then kept else kept + [args[i]])
            + Missing(g, args[i + 1..], existing)
  {
  }

  method FilterMissing(g: Grammar, args: seq<string>, existing: seq<string>) returns (kept: seq<string>)
    ensures kept == Missing(g, args, existing)
  {
    kept := [];
    assert args[0..] == args;
    for i := 0 to |args|
      invariant kept + Missing(g, args[i..], existing) == Missing(g, args, existing)
    {
      MissingStep(g, args, i, existing, kept);
      if !Known(g, existing, g.added(args[i])) {
        kept := kept + [args[i]];
      }
    }
  }

  /** Splicing lines in after a FROM line, seen on the pieces of the file. */
  lemma Splice(done: seq<string>, from: string, body: seq<string>, tail: seq<string>, extra: seq<string>)
    ensures var file := done + ([from] + body + tail);
            var at := |done| + 1;
            && file[at..at + |body|] == body
            && file[..at] + extra + file[at..] == (done + [from] + extra + body) + tail
  {
  }

  /** What one round of the loop achieves: the patched stage joins the finished part. */
  lemma StageDone(g: Grammar, args: seq<string>, done: seq<string>, from: string, body: seq<string>, tail: seq<string>)
    requires g.isFrom(from) && NoFrom(g.isFrom, body)
    requires tail == [] || g.isFrom(tail[0])
    ensures done + WithArgs(g, args, [from] + body + tail)
         == (done + [from] + Missing(g, args, LeadingKeys(g, body)) + body) + WithArgs(g, args, tail)
  {
    hide WithArgs;
    hide Missing;
    hide LeadingKeys;
    WithArgsOfStage(g, args, from, body, tail);
  }

  /** Splices the missing ARG lines in after the FROM line at adjustedIndex. */
  method PatchStage(g: Grammar, file: seq<string>, argsToAdd: seq<string>, adjustedIndex: nat, stageEnd: nat)
    returns (patched: seq<string>, added: nat)
    requires adjustedIndex < stageEnd <= |file|
    ensures var missing := Missing(g, argsToAdd, LeadingKeys(g, file[adjustedIndex + 1..stageEnd]));
            added == |missing| && patched == file[..adjustedIndex + 1] + missing + file[adjustedIndex + 1..]
  {
    var existing := ExistingStageArgs(g, file, adjustedIndex + 1, stageEnd);
    var stageArgsToAdd := FilterMissing(g, argsToAdd, existing);
    patched, added := file, |stageArgsToAdd|;
    if stageArgsToAdd != [] {
      patched := file[..adjustedIndex + 1] + stageArgsToAdd + file[adjustedIndex + 1..];
    }
  }

  /** What is known when the walk reaches stage j: the finished part, then the untouched rest of the file. */
  ghost predicate Reached(g: Grammar, args: seq<string>, lines: seq<string>, at: nat, done: seq<string>,
      file: seq<string>)
  {
    && at <= |lines|
    && file == done + lines[at..]
    && done + WithArgs(g, args, lines[at..]) == WithArgs(g, args, lines)
  }

  lemma StartReached(g: Grammar, args: seq<string>, lines: seq<string>, fromIndices: seq<nat>)
    requires fromIndices != [] && FromPositions(g.isFrom, lines, fromIndices)
    ensures Reached(g, args, lines, fromIndices[0], lines[..fromIndices[0]], lines)
  {
    NoFromBefore(g.isFrom, lines, fromIndices);
    var at := fromIndices[0];
    assert lines == lines[..at] + lines[at..];
    WithArgsOfPreamble(g, args, lines[..at], lines[at..]);
  }

  lemma EndReached(g: Grammar, args: seq<string>, lines: seq<string>, done: seq<string>, file: seq<string>)
    requires Reached(g, args, lines, |lines|, done, file)
    ensures file == WithArgs(g, args, lines)
  {
  }

  /** One round of the loop: the stage at `at` is patched and joins the finished part. */
  lemma NextReached(g: Grammar, args: seq<string>, lines: seq<string>, fromIndices: seq<nat>, j: nat,
                    done: seq<string>, file: seq<string>)
    requires j < |fromIndices| && FromPositions(g.isFrom, lines, fromIndices)
    requires Reached(g, args, lines, fromIndices[j], done, file)
    ensures var at, next := fromIndices[j], StageAt(fromIndices, j + 1, |lines|);
            var adjusted := |done|;
            && at < next <= |lines| && adjusted + (next - at) <= |file|
            && (j + 1 == |fromIndices| ==> adjusted + (next - at) == |file|)
            && var missing := Missing(g, args, LeadingKeys(g, file[adjusted + 1..adjusted + (next - at)]));
            && var body := lines[at + 1..next];
               Reached(g, args, lines, next, done + [lines[at]] + missing + body,
                       file[..adjusted + 1] + missing + file[adjusted + 1..])
  {
    hide WithArgs;
    hide Missing;
    hide LeadingKeys;
    NoFromBetween(g.isFrom, lines, fromIndices, j);
    var at, next := fromIndices[j], StageAt(fromIndices, j + 1, |lines|);
    var from, body, tail := lines[at], lines[at + 1..next], lines[next..];
    var missing := Missing(g, args, LeadingKeys(g, body));
    assert lines[at..] == [from] + body + tail;
    Splice(done, from, body, tail, missing);
    StageDone(g, args, done, from, body, tail);
  }

  /**
   The pass as it runs: FROM lines are visited in order, the missing ARG lines are spliced in
   after each, and `offset` moves the later positions along.
   */
  method AddMissingArgs(g: Grammar, lines: seq<string>, argsToAdd: seq<string>)
    returns (dockerfileLines: seq<string>, totalAdded: nat)
    ensures dockerfileLines == WithArgs(g, argsToAdd, lines)
    ensures totalAdded == |dockerfileLines| - |lines|
  {
    hide WithArgs;
    hide Missing;
    hide LeadingKeys;
    hide FromPositions;
    hide Reached;
    dockerfileLines, totalAdded := lines, 0;
    var fromIndices := FindFromLines(g.isFrom, lines);
    if fromIndices == [] {
      WithArgsNoStages(g, argsToAdd, lines);
      return;
    }
    if argsToAdd == [] {
      WithArgsNoKeys(g, lines);
      return;
    }
    var offset := 0;
    ghost var done := lines[..fromIndices[0]];
    StartReached(g, argsToAdd, lines, fromIndices);
    for stageIndex := 0 to |fromIndices|
      invariant |done| == StageAt(fromIndices, stageIndex, |lines|) + offset
      invariant Reached(g, argsToAdd, lines, StageAt(fromIndices, stageIndex, |lines|), done, dockerfileLines)
      invariant totalAdded == offset == |dockerfileLines| - |lines|
    {
      NextReached(g, argsToAdd, lines, fromIndices, stageIndex, done, dockerfileLines);
      var adjustedIndex := fromIndices[stageIndex] + offset;
      var stageEnd :=
        if stageIndex + 1 < |fromIndices| then fromIndices[stageIndex + 1] + offset else |dockerfileLines|;
      ghost var missing := Missing(g, argsToAdd, LeadingKeys(g, dockerfileLines[adjustedIndex + 1..stageEnd]));
      var added;
      dockerfileLines, added := PatchStage(g, dockerfileLines, argsToAdd, adjustedIndex, stageEnd);
      totalAdded, offset := totalAdded + added, offset + added;
      done := done + [lines[fromIndices[stageIndex]]] + missing
            + lines[fromIndices[stageIndex] + 1..StageAt(fromIndices, stageIndex + 1, |lines|)];
    }
    EndReached(g, argsToAdd, lines, done, dockerfileLines);
  }
}
