/**
 The compose pass on real Dockerfile lines. For every service that is built, the build-time keys
 are declared in each stage of its Dockerfile.
 */
module ComposePass {
  import opened Text
  import opened Dockerfile
  import opened DockerLines
  import opened PhpCompare
  import ArgPass
  import ArgLaws

  const COMPOSE := ArgPass.Grammar(ComposeFrom, IsArg, DeclaredKey, AddedKey, LooselyEqual)

  function ArgLines(keys: seq<string>): (r: seq<string>)
    ensures |r| == |keys|
    ensures forall i | 0 <= i < |r| :: r[i] == ArgLine(keys[i])
  {
    if keys == [] then [] else [ArgLine(keys[0])] + ArgLines(keys[1..])
  }

  function StageKeys(body: seq<string>): seq<string> {
    ArgPass.LeadingKeys(COMPOSE, body)
  }

  function Stages(lines: seq<string>): seq<Stage> {
    Parse(ComposeFrom, lines).stages
  }

  function WithArgs(keys: seq<string>, lines: seq<string>): seq<string> {
    ArgPass.WithArgs(COMPOSE, ArgLines(keys), lines)
  }

  /** The settings that decide whether the pass runs at all. */
  datatype Settings = Settings(isCompose: bool, injectBuildArgs: bool)

  /** One service's Dockerfile through the pass; the file is written back only if something was added. */
  method ModifyDockerfileForCompose(settings: Settings, lines: seq<string>, variables: seq<string>)
    returns (dockerfileLines: seq<string>, written: bool)
    ensures dockerfileLines
         == if settings.isCompose && settings.injectBuildArgs then WithArgs(variables, lines) else lines
    ensures written <==> dockerfileLines != lines
  {
    hide ArgPass.WithArgs;
    dockerfileLines, written := lines, false;
    if !settings.isCompose || !settings.injectBuildArgs {
      return;
    }
    if variables == [] {
      ArgPass.WithArgsNoKeys(COMPOSE, lines);
      return;
    }
    var argsToAdd := [];
    for v := 0 to |variables|
      invariant argsToAdd == ArgLines(variables)[..v]
    {
      argsToAdd := argsToAdd + ["ARG " + variables[v]];
    }
    assert argsToAdd == ArgLines(variables);
    var totalAdded;
    dockerfileLines, totalAdded := ArgPass.AddMissingArgs(COMPOSE, lines, argsToAdd);
    written := totalAdded > 0;
    if !written {
      ArgLaws.NothingAddedSameFile(COMPOSE, argsToAdd, lines);
    }
  }

  predicate AreKeys(keys: seq<string>) {
    forall key | key in keys :: IsKey(key)
  }

  predicate NoEquals(keys: seq<string>) {
    forall key | key in keys :: '=' !in key
  }

  predicate NotNumeric(keys: seq<string>) {
    forall key | key in keys :: !Numeric(key)
  }

  predicate Distinct(keys: seq<string>) {
    forall i, j | 0 <= i < j < |keys| :: keys[i] != keys[j]
  }

  /** No added line can be taken for a FROM or RUN line, whatever the keys. */
  lemma ArgLinesStart(keys: seq<string>)
    ensures forall arg | arg in ArgLines(keys) :: !ComposeFrom(arg) && !SingleFrom(arg) && !IsRun(arg)
  {
    hide ComposeFrom;
    hide SingleFrom;
    hide IsRun;
    hide ArgLine;
    forall arg | arg in ArgLines(keys)
      ensures !ComposeFrom(arg) && !SingleFrom(arg) && !IsRun(arg)
    {
      var i :| 0 <= i < |keys| && arg == ArgLine(keys[i]);
      ArgLineStart(keys[i]);
      ArgPrefix(arg);
    }
  }

  lemma ArgLinesAdded(keys: seq<string>)
    requires AreKeys(keys)
    ensures forall i | 0 <= i < |keys| :: COMPOSE.added(ArgLines(keys)[i]) == keys[i]
  {
    hide ArgLine;
    hide AddedKey;
    hide IsKey;
    forall i | 0 <= i < |keys|
      ensures COMPOSE.added(ArgLines(keys)[i]) == keys[i]
    {
      ArgLineReadsBack(keys[i]);
    }
  }

  lemma ArgLinesReadBack(keys: seq<string>)
    requires AreKeys(keys) && NoEquals(keys)
    ensures ArgLaws.ReadsBack(COMPOSE, ArgLines(keys))
  {
    hide ArgLine;
    hide AddedKey;
    hide ComposeFrom;
    hide IsArg;
    hide DeclaredKey;
    hide IsKey;
    hide Numeric;
    forall arg | arg in ArgLines(keys)
      ensures !COMPOSE.isFrom(arg) && COMPOSE.isArg(arg) && COMPOSE.declared(arg) == Some(COMPOSE.added(arg))
    {
      var i :| 0 <= i < |keys| && arg == ArgLine(keys[i]);
      ArgLineReadsBack(keys[i]);
    }
  }

  /** The keys that a stage does not know, in their order. */
  function Unknown(keys: seq<string>, declared: seq<string>): seq<string> {
    ArgLaws.NotDeclared(COMPOSE, keys, declared)
  }

  /**
   What the pass does to a file, stage by stage: the text before the first FROM stays, and each
   stage becomes its FROM line, the ARG lines of the keys it does not know by its leading run, in
   key order, and the rest of the stage unchanged.
   */
  lemma StageByStage(keys: seq<string>, lines: seq<string>, i: nat)
    requires AreKeys(keys)
    requires i < |Stages(lines)|
    ensures Parse(ComposeFrom, WithArgs(keys, lines)).preamble == Parse(ComposeFrom, lines).preamble
    ensures |Stages(WithArgs(keys, lines))| == |Stages(lines)|
    ensures var before, after := Stages(lines)[i], Stages(WithArgs(keys, lines))[i];
            && after.from == before.from
            && after.body == ArgLines(Unknown(keys, StageKeys(before.body))) + before.body
  {
    hide ComposeFrom;
    hide IsKey;
    ArgLinesStart(keys);
    ArgLaws.ParseWithArgs(COMPOSE, ArgLines(keys), lines);
    MissingIsUnknown(keys, StageKeys(Stages(lines)[i].body));
  }

  lemma {:induction false} MissingIsUnknown(keys: seq<string>, declared: seq<string>)
    requires AreKeys(keys)
    ensures ArgPass.Missing(COMPOSE, ArgLines(keys), declared) == ArgLines(Unknown(keys, declared))
  {
    hide IsKey;
    hide ArgPass.Known;
    hide ArgLine;
    hide AddedKey;
    if keys != [] {
      ArgLineReadsBack(keys[0]);
      MissingIsUnknown(keys[1..], declared);
      MissingStep(keys, declared);
    }
  }

  lemma MissingStep(keys: seq<string>, declared: seq<string>)
    requires keys != [] && AddedKey(ArgLine(keys[0])) == keys[0]
    requires ArgPass.Missing(COMPOSE, ArgLines(keys[1..]), declared) == ArgLines(Unknown(keys[1..], declared))
    ensures ArgPass.Missing(COMPOSE, ArgLines(keys), declared) == ArgLines(Unknown(keys, declared))
  {
    hide AddedKey;
    hide ComposeFrom;
    hide DeclaredKey;
    hide IsArg;
    hide ArgLine;
    hide ArgPass.Known;
    var rest := Unknown(keys[1..], declared);
    assert ([keys[0]] + rest)[1..] == rest;
    assert [] + rest == rest;
  }

  // ------------------------------------------------------------------ which keys a stage declares

  /** A stage that knows a key declares it, unless the key is a number that is there in another spelling. */
  lemma KnownIsDeclared(declared: seq<string>, key: string)
    ensures !Numeric(key) ==> (ArgPass.Known(COMPOSE, declared, key) <==> key in declared)
    ensures key in declared ==> ArgPass.Known(COMPOSE, declared, key)
  {
    hide NumberOf;
    hide SameNumber;
  }

  /** After one pass every stage declares every key, and exactly once if it did not declare it before. */
  lemma EveryStageDeclaresEveryKey(keys: seq<string>, lines: seq<string>, i: nat, j: nat)
    requires AreKeys(keys) && NoEquals(keys) && NotNumeric(keys) && Distinct(keys)
    requires i < |Stages(lines)| && j < |keys|
    ensures |Stages(WithArgs(keys, lines))| == |Stages(lines)|
    ensures var before, after := StageKeys(Stages(lines)[i].body), StageKeys(Stages(WithArgs(keys, lines))[i].body);
            && keys[j] in after
            && multiset(after)[keys[j]] == if keys[j] in before then multiset(before)[keys[j]] else 1
  {
    hide IsKey;
    hide AddedKey;
    hide ComposeFrom;
    hide Numeric;
    hide ArgPass.Known;
    ArgLinesStart(keys);
    ArgLinesAdded(keys);
    ArgLinesReadBack(keys);
    ArgLaws.ParseWithArgs(COMPOSE, ArgLines(keys), lines);
    ArgLaws.DeclarationCount(COMPOSE, ArgLines(keys), lines, i, j);
    KnownIsDeclared(StageKeys(Stages(lines)[i].body), keys[j]);
  }

  /** Every stage declares every key in its leading run of ARG lines. */
  predicate DeclaresAll(keys: seq<string>, lines: seq<string>) {
    forall s, key | s in Stages(lines) && key in keys :: key in StageKeys(s.body)
  }

  lemma NonNumericDeclared(keys: seq<string>, lines: seq<string>)
    requires AreKeys(keys) && NoEquals(keys) && NotNumeric(keys)
    ensures DeclaresAll(keys, WithArgs(keys, lines))
  {
    hide IsKey;
    hide Numeric;
    hide WithArgs;
    hide StageKeys;
    hide Stages;
    var out := WithArgs(keys, lines);
    forall s, key | s in Stages(out) && key in keys
      ensures key in StageKeys(s.body)
    {
      var i :| 0 <= i < |Stages(out)| && Stages(out)[i] == s;
      var j :| 0 <= j < |keys| && keys[j] == key;
      KnowsKey(keys, lines, i, j);
      hide ArgPass.Known;
      KnownIsDeclared(StageKeys(s.body), key);
    }
  }

  lemma KnowsKey(keys: seq<string>, lines: seq<string>, i: nat, j: nat)
    requires AreKeys(keys) && NoEquals(keys)
    requires i < |Stages(WithArgs(keys, lines))| && j < |keys|
    ensures ArgPass.Known(COMPOSE, StageKeys(Stages(WithArgs(keys, lines))[i].body), keys[j])
  {
    hide IsKey;
    hide AddedKey;
    hide ComposeFrom;
    hide ArgPass.Known;
    ArgLinesAdded(keys);
    ArgLinesReadBack(keys);
    ArgLaws.EveryStageKnowsEveryKey(COMPOSE, ArgLines(keys), lines, i, ArgLines(keys)[j]);
  }

  lemma {:induction false} StageKeysHaveNoEquals(body: seq<string>)
    ensures NoEquals(StageKeys(body))
  {
    hide DeclaredKey;
    hide IsArg;
    if body != [] && IsArg(body[0]) {
      StageKeysHaveNoEquals(body[1..]);
      if DeclaredKey(body[0]).Some? {
        DeclaredHasNoEquals(body[0]);
      }
    }
  }

  /** The file of one stage. */
  lemma OneStage(body: seq<string>)
    requires forall line | line in body :: !ComposeFrom(line)
    ensures Stages(["FROM x"] + body) == [Stage("FROM x", body)]
  {
    FromLine();
    hide ComposeFrom;
    ParseStage(ComposeFrom, "FROM x", body, []);
    assert ["FROM x"] + body + [] == ["FROM x"] + body;
  }

  lemma FromLine()
    ensures ComposeFrom("FROM x")
  {
    hide StrBlank;
    hide Trim;
    VisibleIsNotBlank('F');
    VisibleIsNotBlank('x');
    SolidEnds("FROM x");
    assert "FROM x"[..4] == "FROM";
  }

  lemma EqualsNeverDeclared(keys: seq<string>, key: string)
    requires AreKeys(keys) && key in keys && '=' in key
    ensures !DeclaresAll(keys, WithArgs(keys, ["FROM x"]))
  {
    hide IsKey;
    hide WithArgs;
    hide StageKeys;
    OneStage([]);
    assert ["FROM x"] + [] == ["FROM x"];
    StageByStage(keys, ["FROM x"], 0);
    var s := Stages(WithArgs(keys, ["FROM x"]))[0];
    StageKeysHaveNoEquals(s.body);
    assert s in Stages(WithArgs(keys, ["FROM x"]));
  }

  lemma WithZeroIsKey(key: string)
    requires IsKey(key) && '=' !in key
    ensures IsKey(WithZero(key)) && '=' !in WithZero(key)
  {
    VisibleIsNotBlank('0');
    hide StrBlank;
    hide NumericBlank;
    WithZeroParts(key);
  }

  lemma NumericSpelling(key: string)
    requires IsKey(key) && Numeric(key)
    ensures WithZero(key) != key && LooselyEqual(WithZero(key), key)
  {
    assert forall c :: NumericBlank(c) ==> StrBlank(c);
    hide StrBlank;
    hide NumericBlank;
    hide NumberOf;
    hide WithZero;
    AnotherSpelling(key);
  }

  lemma OneDeclaration(key: string)
    requires IsKey(key) && '=' !in key
    ensures StageKeys([ArgLine(key)]) == [key]
    ensures !ComposeFrom(ArgLine(key))
  {
    hide IsKey;
    hide ArgLine;
    hide DeclaredKey;
    hide AddedKey;
    hide IsArg;
    hide ComposeFrom;
    ArgLineReadsBack(key);
    var line := ArgLine(key);
    assert [line][1..] == [];
    assert ArgPass.LeadingKeys(COMPOSE, [line]) == ArgPass.KeyOf(COMPOSE, line) + ArgPass.LeadingKeys(COMPOSE, []);
  }

  /** What a stage declares after the pass. */
  lemma StageKeysAfter(keys: seq<string>, lines: seq<string>, i: nat)
    requires AreKeys(keys) && NoEquals(keys) && i < |Stages(lines)|
    ensures |Stages(WithArgs(keys, lines))| == |Stages(lines)|
    ensures var before := StageKeys(Stages(lines)[i].body);
            StageKeys(Stages(WithArgs(keys, lines))[i].body) == Unknown(keys, before) + before
  {
    hide IsKey;
    hide WithArgs;
    hide StageKeys;
    hide Stages;
    var body := Stages(lines)[i].body;
    StageByStage(keys, lines, i);
    UnknownKeys(keys, StageKeys(body));
    hide Unknown;
    StageKeysOfAdded(Unknown(keys, StageKeys(body)), body);
  }

  /** A stage that declares a number in another spelling is left as it is. */
  lemma NumberNotDeclared(keys: seq<string>, key: string)
    requires AreKeys(keys) && NoEquals(keys) && key in keys && Numeric(key)
    ensures !DeclaresAll(keys, WithArgs(keys, ["FROM x"] + [ArgLine(WithZero(key))]))
  {
    WithZeroIsKey(key);
    NumericSpelling(key);
    hide *;
    var other := WithZero(key);
    OneDeclaration(other);
    OneStage([ArgLine(other)]);
    KnownInOtherSpelling(keys, key, other, ["FROM x"] + [ArgLine(other)]);
  }

  lemma KnownInOtherSpelling(keys: seq<string>, key: string, other: string, lines: seq<string>)
    requires AreKeys(keys) && NoEquals(keys) && key in keys && LooselyEqual(other, key) && other != key
    requires |Stages(lines)| == 1 && StageKeys(Stages(lines)[0].body) == [other]
    ensures !DeclaresAll(keys, WithArgs(keys, lines))
  {
    hide IsKey;
    hide WithArgs;
    hide StageKeys;
    hide Stages;
    hide LooselyEqual;
    StageKeysAfter(keys, lines, 0);
    UnknownKeys(keys, [other]);
    hide Unknown;
    assert ArgPass.Known(COMPOSE, [other], key);
    var s := Stages(WithArgs(keys, lines))[0];
    assert key !in StageKeys(s.body);
    assert s in Stages(WithArgs(keys, lines));
  }

  lemma {:induction false} UnknownKeys(keys: seq<string>, declared: seq<string>)
    ensures forall key :: key in Unknown(keys, declared) <==> key in keys && !ArgPass.Known(COMPOSE, declared, key)
  {
    hide ArgPass.Known;
    if keys != [] {
      UnknownKeys(keys[1..], declared);
      assert keys == [keys[0]] + keys[1..];
    }
  }

  lemma StageKeysOfAdded(added: seq<string>, body: seq<string>)
    requires AreKeys(added) && NoEquals(added)
    ensures StageKeys(ArgLines(added) + body) == added + StageKeys(body)
  {
    hide IsKey;
    hide AddedKey;
    ArgLinesAdded(added);
    ArgLinesReadBack(added);
    ArgLaws.LeadingKeysAfter(COMPOSE, ArgLines(added), body);
    assert ArgLaws.AddedKeys(COMPOSE, ArgLines(added)) == added;
  }

  /**
   The pass declares its keys in every stage of every file if and only if no key has an equals sign
   and none is a number, which a stage may already declare in another spelling.
   */
  lemma DeclaredEverywhereExactly(keys: seq<string>)
    requires AreKeys(keys)
    ensures (forall lines :: DeclaresAll(keys, WithArgs(keys, lines))) <==> NoEquals(keys) && NotNumeric(keys)
  {
    hide IsKey;
    hide WithArgs;
    hide DeclaresAll;
    hide Numeric;
    if NoEquals(keys) && NotNumeric(keys) {
      forall lines
        ensures DeclaresAll(keys, WithArgs(keys, lines))
      {
        NonNumericDeclared(keys, lines);
      }
    } else if !NoEquals(keys) {
      var key :| key in keys && '=' in key;
      EqualsNeverDeclared(keys, key);
    } else {
      var key :| key in keys && Numeric(key);
      NumberNotDeclared(keys, key);
    }
  }

  // ------------------------------------------------------------------ the second pass

  lemma EqualsIsNoNumber(key: string)
    requires '=' in key
    ensures !Numeric(key)
  {
    assert !NumberChar('=');
    hide Numeric;
    hide NumberChar;
    if Numeric(key) {
      NumericChars(key);
    }
  }

  /** A key with an equals sign is known to no stage. */
  lemma EqualsNeverKnown(body: seq<string>, key: string)
    requires '=' in key
    ensures !ArgPass.Known(COMPOSE, StageKeys(body), key)
  {
    hide StageKeys;
    hide NumberOf;
    hide SameNumber;
    StageKeysHaveNoEquals(body);
    EqualsIsNoNumber(key);
  }

  lemma ArgLineAmong(keys: seq<string>, key: string)
    requires key in keys
    ensures multiset(ArgLines(keys))[ArgLine(key)] > 0
  {
    hide ArgLine;
    var j :| 0 <= j < |keys| && keys[j] == key;
    assert ArgLines(keys)[j] == ArgLine(key);
  }

  /** Every pass adds a key with an equals sign to every stage, however often it was added before. */
  lemma AddedAgain(keys: seq<string>, lines: seq<string>, key: string, i: nat)
    requires AreKeys(keys) && key in keys && '=' in key && i < |Stages(lines)|
    ensures |Stages(WithArgs(keys, lines))| == |Stages(lines)|
    ensures var before, after := Stages(lines)[i].body, Stages(WithArgs(keys, lines))[i].body;
            var extra := ArgLines(Unknown(keys, StageKeys(before)));
            after == extra + before && multiset(after)[ArgLine(key)] > multiset(before)[ArgLine(key)]
  {
    hide IsKey;
    hide WithArgs;
    hide StageKeys;
    hide ArgPass.Known;
    hide ArgLine;
    hide Stages;
    var body := Stages(lines)[i].body;
    EqualsNeverKnown(body, key);
    UnknownKeys(keys, StageKeys(body));
    StageByStage(keys, lines, i);
    ArgLineAmong(Unknown(keys, StageKeys(body)), key);
  }

  /**
   A second pass leaves the file as the first one wrote it if and only if the file has no stage or
   no key has an equals sign.
   */
  lemma SecondPassExactly(keys: seq<string>, lines: seq<string>)
    requires AreKeys(keys)
    ensures WithArgs(keys, WithArgs(keys, lines)) == WithArgs(keys, lines) <==> Stages(lines) == [] || NoEquals(keys)
  {
    hide IsKey;
    hide WithArgs;
    hide Stages;
    if NoEquals(keys) {
      SecondPassAddsNothing(keys, lines);
    } else if Stages(lines) == [] {
      NoStagesNoChange(keys, lines);
    } else {
      var key :| key in keys && '=' in key;
      StageByStage(keys, lines, 0);
      AddedAgain(keys, WithArgs(keys, lines), key, 0);
    }
  }

  lemma SecondPassAddsNothing(keys: seq<string>, lines: seq<string>)
    requires AreKeys(keys) && NoEquals(keys)
    ensures WithArgs(keys, WithArgs(keys, lines)) == WithArgs(keys, lines)
  {
    hide IsKey;
    ArgLinesReadBack(keys);
    ArgLaws.SecondPassAddsNothing(COMPOSE, ArgLines(keys), lines);
  }

  lemma NoStagesNoChange(keys: seq<string>, lines: seq<string>)
    requires Stages(lines) == []
    ensures WithArgs(keys, lines) == lines
  {
    hide ComposeFrom;
    ParseIsWellFormed(ComposeFrom, lines);
    RenderParse(ComposeFrom, lines);
  }
}
