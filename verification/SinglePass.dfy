/**
 The single-Dockerfile pass: all ARG lines go after every FROM line. It splices one line at a
 time, from the last FROM backward, so that earlier positions stay valid.
 */
module SinglePass {
  import opened Text
  import opened Dockerfile
  import opened DockerLines
  import ArgPass
  import ArgLaws
  import ComposePass

  datatype EnvVar = EnvVar(key: string, realValue: string, isMultiline: bool)

  /** The ARG line of an environment variable: a multi-line value is not written out. */
  function EnvArg(env: EnvVar): string {
    if env.isMultiline then "ARG " + env.key else "ARG " + env.key + "=" + env.realValue
  }

  function EnvArgs(envs: seq<EnvVar>): (r: seq<string>)
    ensures |r| == |envs|
  {
    if envs == [] then [] else [EnvArg(envs[0])] + EnvArgs(envs[1..])
  }

  /** The ARG lines of the generated variables, which come as one blank-separated string. */
  function CoolifyArgs(words: seq<string>): seq<string> {
    if words == [] then []
    else (if words[0] == "" || words[0] == "0" then [] else ["ARG " + words[0]]) + CoolifyArgs(words[1..])
  }

  function ArgsToInsert(envs: seq<EnvVar>, coolifyVariables: string): seq<string> {
    EnvArgs(envs) + CoolifyArgs(Split(Trim(PhpBlank, coolifyVariables), ' '))
  }

  function WithAllArgs(args: seq<string>, lines: seq<string>): seq<string> {
    ArgLaws.WithAll(SingleFrom, args, lines)
  }

  /** No line to insert can be taken for a FROM or RUN line, whatever the values hold. */
  lemma ArgsAreArgLines(envs: seq<EnvVar>, coolifyVariables: string)
    ensures forall arg | arg in ArgsToInsert(envs, coolifyVariables) ::
              !SingleFrom(arg) && !ComposeFrom(arg) && !IsRun(arg)
  {
    EnvArgsPrefix(envs);
    CoolifyArgsPrefix(Split(Trim(PhpBlank, coolifyVariables), ' '));
    forall arg | arg in ArgsToInsert(envs, coolifyVariables)
      ensures !SingleFrom(arg) && !ComposeFrom(arg) && !IsRun(arg)
    {
      ArgPrefix(arg);
    }
  }

  lemma {:induction false} EnvArgsPrefix(envs: seq<EnvVar>)
    ensures forall arg | arg in EnvArgs(envs) :: "ARG " <= arg
  {
    if envs != [] {
      EnvArgsPrefix(envs[1..]);
    }
  }

  lemma {:induction false} CoolifyArgsPrefix(words: seq<string>)
    ensures forall arg | arg in CoolifyArgs(words) :: "ARG " <= arg
  {
    if words != [] {
      CoolifyArgsPrefix(words[1..]);
    }
  }

  // ------------------------------------------------------------------ the in-place pass

  /** Splices all args in after position `at`, one by one and last first. */
  method SpliceAfter(file: seq<string>, at: nat, args: seq<string>) returns (patched: seq<string>)
    requires at < |file|
    ensures patched == file[..at + 1] + args + file[at + 1..]
  {
    patched := file;
    var a := |args|;
    assert args[a..] == [];
    assert file == file[..at + 1] + [] + file[at + 1..];
    while a > 0
      invariant 0 <= a <= |args|
      invariant patched == file[..at + 1] + args[a..] + file[at + 1..]
    {
      a := a - 1;
      OneMore(file[..at + 1], args[a], args[a + 1..], file[at + 1..]);
      assert args[a..] == [args[a]] + args[a + 1..];
      patched := patched[..at + 1] + [args[a]] + patched[at + 1..];
    }
    assert args[0..] == args;
  }

  lemma OneMore(head: seq<string>, arg: string, args: seq<string>, tail: seq<string>)
    ensures var file := head + args + tail;
            file[..|head|] + [arg] + file[|head|..] == head + ([arg] + args) + tail
  {
  }

  /** What is known when the walk has come back to position `at`: everything from there on is rewritten. */
  ghost predicate BackAt(isFrom: LineTest, args: seq<string>, lines: seq<string>, at: nat, file: seq<string>) {
    at <= |lines| && file == lines[..at] + ArgLaws.WithAll(isFrom, args, lines[at..])
  }

  lemma StartBack(isFrom: LineTest, args: seq<string>, lines: seq<string>)
    ensures BackAt(isFrom, args, lines, |lines|, lines)
  {
  }

  lemma EndBack(isFrom: LineTest, args: seq<string>, lines: seq<string>, fromIndices: seq<nat>, file: seq<string>)
    requires fromIndices != [] && FromPositions(isFrom, lines, fromIndices)
    requires BackAt(isFrom, args, lines, fromIndices[0], file)
    ensures file == ArgLaws.WithAll(isFrom, args, lines)
    ensures !NoFrom(isFrom, lines)
  {
    hide Rewritten;
    NoFromBefore(isFrom, lines, fromIndices);
    RewrittenPrefix(isFrom, ArgLaws.All(args), lines[..fromIndices[0]], lines[fromIndices[0]..]);
    assert lines == lines[..fromIndices[0]] + lines[fromIndices[0]..];
    assert lines[fromIndices[0]] in lines;
  }

  lemma StepBack(isFrom: LineTest, args: seq<string>, lines: seq<string>, fromIndices: seq<nat>, j: nat,
      file: seq<string>)
    requires FromPositions(isFrom, lines, fromIndices) && j < |fromIndices|
    requires BackAt(isFrom, args, lines, StageAt(fromIndices, j + 1, |lines|), file)
    ensures var at := fromIndices[j];
            && at < |file|
            && BackAt(isFrom, args, lines, at, file[..at + 1] + args + file[at + 1..])
  {
    hide Rewritten;
    NoFromBetween(isFrom, lines, fromIndices, j);
    var at, next := fromIndices[j], StageAt(fromIndices, j + 1, |lines|);
    var from, body, tail := lines[at], lines[at + 1..next], lines[next..];
    assert lines[at..] == [from] + body + tail;
    RewrittenStage(isFrom, ArgLaws.All(args), from, body, tail);
    assert lines[..next] == lines[..at] + [from] + body;
    Pieces(lines[..at], from, body, args, Rewritten(isFrom, ArgLaws.All(args), tail));
  }

  lemma Pieces(head: seq<string>, from: string, body: seq<string>, args: seq<string>, tail: seq<string>)
    ensures var file := (head + [from] + body) + tail;
            file[..|head| + 1] + args + file[|head| + 1..] == head + ([from] + args + body + tail)
  {
  }

  /**
   The pass as it runs. The hash line is added to the list of ARG lines only after the splicing,
   so it is not in the file that is written.
   */
  method AddBuildArgs(isFrom: LineTest, lines: seq<string>, args: seq<string>, hashArg: string)
    returns (file: seq<string>, argsToInsert: seq<string>)
    ensures file == ArgLaws.WithAll(isFrom, args, lines)
    ensures argsToInsert == if NoFrom(isFrom, lines) || args == [] then args else args + [hashArg]
  {
    hide ArgLaws.WithAll;
    file, argsToInsert := lines, args;
    var fromIndices := FindFromLines(isFrom, lines);
    if fromIndices == [] {
      NoStages(isFrom, args, lines);
      return;
    }
    if args == [] {
      NoArgs(isFrom, lines);
      return;
    }
    var j := |fromIndices|;
    StartBack(isFrom, args, lines);
    while j > 0
      invariant 0 <= j <= |fromIndices|
      invariant BackAt(isFrom, args, lines, StageAt(fromIndices, j, |lines|), file)
    {
      j := j - 1;
      StepBack(isFrom, args, lines, fromIndices, j, file);
      file := SpliceAfter(file, fromIndices[j], args);
    }
    EndBack(isFrom, args, lines, fromIndices, file);
    argsToInsert := args + [hashArg];
  }

  lemma NoStages(isFrom: LineTest, args: seq<string>, lines: seq<string>)
    requires NoFrom(isFrom, lines)
    ensures ArgLaws.WithAll(isFrom, args, lines) == lines
  {
    assert lines + [] == lines;
    RewrittenPrefix(isFrom, ArgLaws.All(args), lines, []);
  }

  lemma NoArgs(isFrom: LineTest, lines: seq<string>)
    ensures ArgLaws.WithAll(isFrom, [], lines) == lines
  {
    var d := Parse(isFrom, lines);
    var e := Insert(d, ArgLaws.All([]));
    forall i | 0 <= i < |d.stages|
      ensures e.stages[i] == d.stages[i]
    {
      assert [] + d.stages[i].body == d.stages[i].body;
    }
    assert e.stages == d.stages;
    RenderParse(isFrom, lines);
  }

  method CollectEnvArgs(envs: seq<EnvVar>) returns (args: seq<string>)
    ensures args == EnvArgs(envs)
  {
    args := [];
    for e := 0 to |envs|
      invariant args + EnvArgs(envs[e..]) == EnvArgs(envs)
    {
      EnvArgsStep(envs, e, args);
      if envs[e].isMultiline {
        args := args + ["ARG " + envs[e].key];
      } else {
        args := args + ["ARG " + envs[e].key + "=" + envs[e].realValue];
      }
    }
  }

  method CollectCoolifyArgs(words: seq<string>) returns (args: seq<string>)
    ensures args == CoolifyArgs(words)
  {
    args := [];
    for w := 0 to |words|
      invariant args + CoolifyArgs(words[w..]) == CoolifyArgs(words)
    {
      CoolifyArgsStep(words, w, args);
      if words[w] != "" && words[w] != "0" {
        args := args + ["ARG " + words[w]];
      }
    }
  }

  /** The pass with its settings: nothing happens under build secrets or when injection is off. */
  method AddBuildEnvVariablesToDockerfile(secretsSupported: bool, injectBuildArgs: bool, lines: seq<string>,
                                          envs: seq<EnvVar>, coolifyVariables: string, hashArg: string)
    returns (file: seq<string>)
    ensures file == if secretsSupported || !injectBuildArgs then lines
                    else WithAllArgs(ArgsToInsert(envs, coolifyVariables), lines)
    ensures lines != [] && hashArg !in lines && hashArg !in ArgsToInsert(envs, coolifyVariables) ==> hashArg !in file
  {
    hide ArgLaws.WithAll;
    hide SingleFrom;
    hide Split;
    hide Trim;
    hide EnvArgs;
    hide CoolifyArgs;
    if secretsSupported || !injectBuildArgs {
      return lines;
    }
    var envArgs := CollectEnvArgs(envs);
    var coolifyArgs := CollectCoolifyArgs(Split(Trim(PhpBlank, coolifyVariables), ' '));
    var args := envArgs + coolifyArgs;
    var argsToInsert;
    file, argsToInsert := AddBuildArgs(SingleFrom, lines, args, hashArg);
    if lines != [] {
      OnlyArgsInserted(args, lines);
    }
  }

  lemma EnvArgsStep(envs: seq<EnvVar>, e: nat, args: seq<string>)
    requires e < |envs|
    ensures args + EnvArgs(envs[e..]) == (args + [EnvArg(envs[e])]) + EnvArgs(envs[e + 1..])
  {
  }

  lemma CoolifyArgsStep(words: seq<string>, w: nat, args: seq<string>)
    requires w < |words|
    ensures args + CoolifyArgs(words[w..])
         == (if words[w] == "" || words[w] == "0" then args else args + ["ARG " + words[w]])
            + CoolifyArgs(words[w + 1..])
  {
  }

  lemma OnlyArgsInserted(args: seq<string>, lines: seq<string>)
    requires lines != []
    ensures forall line | line in WithAllArgs(args, lines) :: line in lines || line in args
  {
    hide SingleFrom;
    ArgLaws.RewrittenFile(SingleFrom, ArgLaws.All(args), args, lines);
  }

  /** Erasing the inserted lines, which are the first of every stage, gives back the original file. */
  lemma EraseInserted(envs: seq<EnvVar>, coolifyVariables: string, lines: seq<string>)
    ensures var args := ArgsToInsert(envs, coolifyVariables);
            Render(ArgLaws.Erased(|args|, Parse(SingleFrom, WithAllArgs(args, lines)))) == lines
  {
    hide SingleFrom;
    ArgsAreArgLines(envs, coolifyVariables);
    ArgLaws.EraseInserted(SingleFrom, ArgsToInsert(envs, coolifyVariables), lines);
  }

  /**
   On a file whose FROM lines both passes recognise, and for the same ARG lines, the backward
   pass and the forward offset pass agree exactly when no stage already knows one of the keys.
   */
  lemma AgreesWithComposePass(keys: seq<string>, lines: seq<string>)
    requires ComposePass.AreKeys(keys)
    requires forall line | line in lines :: SingleFrom(line) == ComposeFrom(line)
    ensures WithAllArgs(ComposePass.ArgLines(keys), lines) == ComposePass.WithArgs(keys, lines)
       <==> forall s | s in ComposePass.Stages(lines) :: KnowsNone(keys, s.body)
  {
    hide SingleFrom;
    hide ComposeFrom;
    hide IsKey;
    hide KnowsNone;
    hide ArgLaws.DeclaresNone;
    hide ArgPass.LeadingKeys;
    ArgLaws.PassesAgree(ComposePass.COMPOSE, SingleFrom, ComposePass.ArgLines(keys), lines);
    forall s | s in ComposePass.Stages(lines)
      ensures ArgLaws.DeclaresNone(ComposePass.COMPOSE, ComposePass.ArgLines(keys), s.body) <==> KnowsNone(keys, s.body)
    {
      DeclaresNoneByKey(keys, s.body);
    }
  }

  /** The stage knows none of the keys by its leading run of ARG lines. */
  predicate KnowsNone(keys: seq<string>, body: seq<string>) {
    forall key | key in keys :: !ArgPass.Known(ComposePass.COMPOSE, ComposePass.StageKeys(body), key)
  }

  lemma DeclaresNoneByKey(keys: seq<string>, body: seq<string>)
    requires ComposePass.AreKeys(keys)
    ensures ArgLaws.DeclaresNone(ComposePass.COMPOSE, ComposePass.ArgLines(keys), body) <==> KnowsNone(keys, body)
  {
    hide AddedKey;
    hide ArgLine;
    hide IsKey;
    hide ArgPass.Known;
    hide ArgPass.LeadingKeys;
    ComposePass.ArgLinesAdded(keys);
    var args := ComposePass.ArgLines(keys);
    forall i | 0 <= i < |keys|
      ensures args[i] in args && keys[i] in keys
    {
    }
  }
}
