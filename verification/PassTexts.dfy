/**
 What the passes write, line by line: the ARG lines after a FROM line, with keys and values, and the
 mounts and the command of a RUN line.
 */
module PassTexts {
  import opened Text
  import opened Dockerfile
  import opened DockerLines
  import opened LineShapes
  import ArgPass
  import ArgLaws
  import ComposePass
  import SinglePass
  import SecretsPass

  /** The pieces of a file can be read off by position. */
  lemma Pieces(out: seq<string>, head: seq<string>, line: string, extra: seq<string>, rest: seq<string>)
    requires out == head + ([line] + extra + rest)
    ensures |head| + 1 + |extra| <= |out|
    ensures out[..|head|] == head && out[|head|] == line && out[|head| + 1 + |extra|..] == rest
    ensures forall k | 0 <= k < |extra| :: out[|head| + 1 + k] == extra[k]
  {
  }

  // ------------------------------------------------------------------ the compose pass

  /**
   Every line that is blanks, the word FROM and anything opens a stage, and the ARG lines of the keys this
   stage does not know come right after it, in key order.
   */
  lemma ArgsFollowFrom(keys: seq<string>, lines: seq<string>, i: nat, blanks: string, rest: string)
    requires ComposePass.AreKeys(keys)
    requires i < |lines| && lines[i] == blanks + "FROM" + rest && forall c | c in blanks :: StrBlank(c)
    ensures var end := StageEnd(ComposeFrom, lines, i);
            var body := lines[i + 1..end];
            var unknown := ComposePass.Unknown(keys, ComposePass.StageKeys(body));
            var before, out := ComposePass.WithArgs(keys, lines[..i]), ComposePass.WithArgs(keys, lines);
            var at := |before|;
            && at + 1 + |unknown| <= |out|
            && out[..at] == before && out[at] == lines[i]
            && (forall k | 0 <= k < |unknown| :: out[at + 1 + k] == "ARG " + unknown[k])
            && out[at + 1 + |unknown|..] == body + ComposePass.WithArgs(keys, lines[end..])
  {
    hide *;
    ShapeOpensStage(lines[i], blanks, rest);
    var end := StageEnd(ComposeFrom, lines, i);
    var body := lines[i + 1..end];
    StageOfComposePass(keys, lines, i);
    ArgText();
    Pieces(ComposePass.WithArgs(keys, lines), ComposePass.WithArgs(keys, lines[..i]), lines[i],
           ComposePass.ArgLines(ComposePass.Unknown(keys, ComposePass.StageKeys(body))),
           body + ComposePass.WithArgs(keys, lines[end..]));
  }

  lemma ArgText()
    ensures forall key :: ArgLine(key) == "ARG " + key
  {
  }

  lemma ShapeOpensStage(line: string, blanks: string, rest: string)
    requires line == blanks + "FROM" + rest && forall c | c in blanks :: StrBlank(c)
    ensures ComposeFrom(line)
  {
    hide StrBlank;
    hide ComposeFrom;
    ComposeFromExactly(line);
    assert line == blanks + ("FROM" + rest);
    assert Indented(StrBlank, line, blanks, "FROM" + rest);
  }

  lemma StageOfComposePass(keys: seq<string>, lines: seq<string>, i: nat)
    requires ComposePass.AreKeys(keys) && i < |lines| && ComposeFrom(lines[i])
    ensures var end := StageEnd(ComposeFrom, lines, i);
            var body := lines[i + 1..end];
            ComposePass.WithArgs(keys, lines) ==
              ComposePass.WithArgs(keys, lines[..i])
              + ([lines[i]] + ComposePass.ArgLines(ComposePass.Unknown(keys, ComposePass.StageKeys(body)))
                 + (body + ComposePass.WithArgs(keys, lines[end..])))
  {
    hide ComposeFrom;
    hide ComposePass.AreKeys;
    hide ComposePass.Unknown;
    hide ArgPass.LeadingKeys;
    hide ArgPass.Missing;
    hide Rewritten;
    hide ComposePass.ArgLines;
    var args := ComposePass.ArgLines(keys);
    var extra := ArgPass.MissingFrom(ComposePass.COMPOSE, args);
    var end := StageEnd(ComposeFrom, lines, i);
    var body := lines[i + 1..end];
    RewrittenAt(ComposeFrom, extra, lines, i);
    ComposePass.MissingIsUnknown(keys, ComposePass.StageKeys(body));
    Regrouped(lines[i], extra(body), body, ComposePass.WithArgs(keys, lines[end..]));
  }

  lemma Regrouped(line: string, extra: seq<string>, body: seq<string>, rest: seq<string>)
    ensures [line] + extra + body + rest == [line] + extra + (body + rest)
  {
  }

  // ------------------------------------------------------------------ the single pass

  /** The words that are neither empty nor "0", in their order. */
  function Filled(words: seq<string>): seq<string> {
    if words == [] then []
    else if words[0] == "" || words[0] == "0" then Filled(words[1..])
    else [words[0]] + Filled(words[1..])
  }

  lemma {:induction false} FilledAll(words: seq<string>)
    requires forall word | word in words :: word != "" && word != "0"
    ensures Filled(words) == words
  {
    if words != [] {
      assert forall word | word in words[1..] :: word in words;
      assert words[0] in words;
      FilledAll(words[1..]);
      assert words == [words[0]] + words[1..];
    }
  }

  lemma {:induction false} WordLines(words: seq<string>)
    ensures |SinglePass.CoolifyArgs(words)| == |Filled(words)|
    ensures forall k | 0 <= k < |Filled(words)| :: SinglePass.CoolifyArgs(words)[k] == "ARG " + Filled(words)[k]
  {
    if words != [] {
      WordLines(words[1..]);
    }
  }

  /** The line of a variable: the key, and the value after an equals sign unless it has several lines. */
  function VariableLine(env: SinglePass.EnvVar): (line: string)
    ensures env.isMultiline ==> line == "ARG " + env.key
    ensures !env.isMultiline ==> line == "ARG " + env.key + "=" + env.realValue
  {
    if !env.isMultiline then "ARG " + env.key + "=" + env.realValue else "ARG " + env.key
  }

  lemma {:induction false} VariableLines(envs: seq<SinglePass.EnvVar>)
    ensures |SinglePass.EnvArgs(envs)| == |envs|
    ensures forall k | 0 <= k < |envs| :: SinglePass.EnvArgs(envs)[k] == VariableLine(envs[k])
  {
    if envs != [] {
      VariableLines(envs[1..]);
      assert envs == [envs[0]] + envs[1..];
    }
  }

  /**
   Right after every FROM line the written file has one line per variable, with its value unless that has
   several lines, and then one per generated word.
   */
  lemma VariablesFollowFrom(envs: seq<SinglePass.EnvVar>, coolifyVariables: string, lines: seq<string>, i: nat)
    requires i < |lines| && SingleFrom(lines[i])
    ensures var args := SinglePass.ArgsToInsert(envs, coolifyVariables);
            var words := Filled(Split(Trim(PhpBlank, coolifyVariables), ' '));
            var end := StageEnd(SingleFrom, lines, i);
            var before, out := SinglePass.WithAllArgs(args, lines[..i]), SinglePass.WithAllArgs(args, lines);
            var at := |before|;
            && at + 1 + |envs| + |words| <= |out|
            && out[..at] == before && out[at] == lines[i]
            && (forall k | 0 <= k < |envs| && !envs[k].isMultiline ::
                  out[at + 1 + k] == "ARG " + envs[k].key + "=" + envs[k].realValue)
            && (forall k | 0 <= k < |envs| && envs[k].isMultiline :: out[at + 1 + k] == "ARG " + envs[k].key)
            && (forall k | 0 <= k < |words| :: out[at + 1 + |envs| + k] == "ARG " + words[k])
            && out[at + 1 + |envs| + |words|..] == lines[i + 1..end] + SinglePass.WithAllArgs(args, lines[end..])
  {
    hide *;
    ArgsByPosition(envs, coolifyVariables);
    StageOfSinglePass(SinglePass.ArgsToInsert(envs, coolifyVariables), lines, i);
    Pieces(SinglePass.WithAllArgs(SinglePass.ArgsToInsert(envs, coolifyVariables), lines),
           SinglePass.WithAllArgs(SinglePass.ArgsToInsert(envs, coolifyVariables), lines[..i]),
           lines[i], SinglePass.ArgsToInsert(envs, coolifyVariables),
           lines[i + 1..StageEnd(SingleFrom, lines, i)]
           + SinglePass.WithAllArgs(
               SinglePass.ArgsToInsert(envs, coolifyVariables), lines[StageEnd(SingleFrom, lines, i)..]));
  }

  lemma ArgsByPosition(envs: seq<SinglePass.EnvVar>, coolifyVariables: string)
    ensures var args := SinglePass.ArgsToInsert(envs, coolifyVariables);
            var words := Filled(Split(Trim(PhpBlank, coolifyVariables), ' '));
            && |args| == |envs| + |words|
            && (forall k | 0 <= k < |envs| :: args[k] == VariableLine(envs[k]))
            && (forall k | 0 <= k < |words| :: args[|envs| + k] == "ARG " + words[k])
  {
    hide Split;
    hide Trim;
    hide Filled;
    hide VariableLine;
    hide SinglePass.EnvArgs;
    hide SinglePass.CoolifyArgs;
    VariableLines(envs);
    WordLines(Split(Trim(PhpBlank, coolifyVariables), ' '));
  }

  lemma StageOfSinglePass(args: seq<string>, lines: seq<string>, i: nat)
    requires i < |lines| && SingleFrom(lines[i])
    ensures var end := StageEnd(SingleFrom, lines, i);
            SinglePass.WithAllArgs(args, lines) ==
              SinglePass.WithAllArgs(args, lines[..i])
              + ([lines[i]] + args + (lines[i + 1..end] + SinglePass.WithAllArgs(args, lines[end..])))
  {
    hide SingleFrom;
    hide Rewritten;
    var end := StageEnd(SingleFrom, lines, i);
    RewrittenAt(SingleFrom, ArgLaws.All(args), lines, i);
    Regrouped(lines[i], args, lines[i + 1..end], SinglePass.WithAllArgs(args, lines[end..]));
  }

  /** What such a line declares and what it assigns. */
  lemma VariableReadsBack(env: SinglePass.EnvVar)
    requires IsKey(env.key) && '=' !in env.key
    ensures DeclaredKey(VariableLine(env)) == Some(env.key)
    ensures AfterChar(VariableLine(env), '=') == if env.isMultiline then None else Some(env.realValue)
  {
    WiderTrim();
    hide StrBlank;
    hide PhpBlank;
    hide DeclaredKey;
    var key := env.key;
    assert "" + "ARG " + key == "ARG " + key && '=' !in "ARG " + key;
    if env.isMultiline {
      DeclaredAlone("", key);
    } else {
      DeclaredWithValue("", key, env.realValue);
      SplitAtFirst("ARG " + key, '=', env.realValue);
      assert VariableLine(env) == "ARG " + key + ['='] + env.realValue;
    }
  }

  lemma WiderTrim()
    ensures forall c :: PhpBlank(c) ==> StrBlank(c)
  {
  }

  /**
   In the written file: the k-th line after every FROM line declares the k-th variable's key, and assigns
   exactly its value unless that has several lines.
   */
  lemma VariablesReadBack(envs: seq<SinglePass.EnvVar>, coolifyVariables: string, lines: seq<string>, i: nat, k: nat)
    requires i < |lines| && SingleFrom(lines[i]) && k < |envs| && IsKey(envs[k].key) && '=' !in envs[k].key
    ensures var args := SinglePass.ArgsToInsert(envs, coolifyVariables);
            var at, out := |SinglePass.WithAllArgs(args, lines[..i])|, SinglePass.WithAllArgs(args, lines);
            && at + 1 + k < |out| && out[at] == lines[i]
            && DeclaredKey(out[at + 1 + k]) == Some(envs[k].key)
            && AfterChar(out[at + 1 + k], '=') == if envs[k].isMultiline then None else Some(envs[k].realValue)
  {
    hide *;
    VariablesFollowFrom(envs, coolifyVariables, lines, i);
    VariableReadsBack(envs[k]);
  }

  /** Generated variables that come separated by single blanks are written one by one. */
  lemma GeneratedWords(words: seq<string>)
    requires words != [] && forall word | word in words :: word != "" && word != "0" && ' ' !in word
    requires words[0] != "" && words[|words| - 1] != ""
    requires !PhpBlank(words[0][0]) && !PhpBlank(words[|words| - 1][|words[|words| - 1]| - 1])
    ensures Filled(Split(Trim(PhpBlank, Join(words, " ")), ' ')) == words
  {
    hide PhpBlank;
    hide Trim;
    JoinEnds(words, " ");
    TrimIdentity(PhpBlank, Join(words, " "));
    SplitJoin(words, ' ');
    FilledAll(words);
  }

  // ------------------------------------------------------------------ the secrets pass

  /** The mount of one secret. */
  function MountOf(key: string): string {
    "--mount=type=secret,id=" + key + ",env=" + key
  }

  function Mounts(keys: seq<string>): (r: seq<string>)
    ensures |r| == |keys|
    ensures forall i | 0 <= i < |r| :: r[i] == "--mount=type=secret,id=" + keys[i] + ",env=" + keys[i]
  {
    seq(|keys|, i requires 0 <= i < |keys| => MountOf(keys[i]))
  }

  lemma {:induction false} JoinOneMore(pieces: seq<string>, piece: string, sep: string)
    requires pieces != []
    ensures Join(pieces + [piece], sep) == Join(pieces, sep) + sep + piece
  {
    assert (pieces + [piece])[1..] == pieces[1..] + [piece];
    if |pieces| > 1 {
      JoinOneMore(pieces[1..], piece, sep);
    }
  }

  lemma {:induction false} KeyMountsAre(keys: seq<string>)
    ensures SecretsPass.KeyMounts(keys) == Mounts(keys)
  {
    if keys != [] {
      KeyMountsAre(keys[1..]);
      assert Mounts(keys) == [MountOf(keys[0])] + Mounts(keys[1..]);
    }
  }

  /** The mounts of a pass are one per secret and one for the hash, separated by blanks. */
  lemma MountsOfAllSecrets(keys: seq<string>)
    requires keys != []
    ensures SecretsPass.MountStrings(keys) == Join(Mounts(keys + [SecretsPass.HASH_KEY]), " ")
  {
    hide Join;
    var hash := SecretsPass.HASH_KEY;
    KeyMountsAre(keys);
    assert Mounts(keys + [hash]) == Mounts(keys) + [MountOf(hash)];
    JoinOneMore(Mounts(keys), MountOf(hash), " ");
    HashMount();
  }

  lemma HashMount()
    ensures SecretsPass.HASH_MOUNT == " " + MountOf(SecretsPass.HASH_KEY)
  {
    assert SecretsPass.MOUNT + ",id=" == "--mount=type=secret,id=";
  }

  lemma {:induction false} PieceInJoin(pieces: seq<string>, sep: string, i: nat) returns (left: string, right: string)
    requires i < |pieces|
    ensures Join(pieces, sep) == left + pieces[i] + right
  {
    if i == 0 {
      left, right := "", Join(pieces, sep)[|pieces[0]|..];
    } else {
      left, right := PieceInJoin(pieces[1..], sep, i - 1);
      left := pieces[0] + sep + left;
    }
  }

  /**
   A RUN line without a secret mount keeps its command behind the mounts, trimmed at both ends: what the
   line said can be read off the written one.
   */
  lemma CommandSurvives(keys: seq<string>, lines: seq<string>, i: nat, blanks: string, rest: string)
    returns (left: string, command: string, right: string)
    requires i < |lines| && lines[i] == blanks + "RUN" + rest && forall c | c in blanks :: PhpBlank(c)
    requires !Contains(lines[i], "--mount=type=secret")
    ensures rest == left + command + right && AllBlank(PhpBlank, left) && AllBlank(PhpBlank, right)
    ensures command != "" ==> !PhpBlank(command[0]) && !PhpBlank(command[|command| - 1])
    ensures var out := SecretsPass.WithSecrets(SecretsPass.MountStrings(keys), lines);
            var shift := |out| - |lines|;
            && 0 <= shift <= 1
            && out[i + shift] == "RUN " + SecretsPass.MountStrings(keys) + " " + command
  {
    hide *;
    command := Trim(PhpBlank, rest);
    left, right := TrimmedAway(PhpBlank, rest);
    TrimEnds(PhpBlank, rest);
    RunIsMounted(SecretsPass.MountStrings(keys), lines[i], blanks, rest);
    MountedInFile(SecretsPass.MountStrings(keys), lines, i);
  }

  lemma TrimmedAway(blank: char -> bool, s: string) returns (left: string, right: string)
    ensures s == left + Trim(blank, s) + right && AllBlank(blank, left) && AllBlank(blank, right)
  {
    hide TrimStart;
    hide TrimEnd;
    left := TrimStartLeavesBody(blank, s);
    right := TrimEndLeavesBody(blank, TrimStart(blank, s));
  }

  lemma RunIsMounted(mounts: string, line: string, blanks: string, rest: string)
    requires line == blanks + "RUN" + rest && forall c | c in blanks :: PhpBlank(c)
    requires !Contains(line, "--mount=type=secret")
    ensures SecretsPass.CanMount(line)
    ensures SecretsPass.MountLine(mounts, line) == "RUN " + mounts + " " + Trim(PhpBlank, rest)
  {
    UpperLetters();
    hide PhpBlank;
    hide TrimStart;
    hide Trim;
    hide Contains;
    assert line == blanks + ("RUN" + rest);
    TrimStartDropsBlanks(PhpBlank, blanks, "RUN" + rest);
  }

  lemma MountedInFile(mounts: string, lines: seq<string>, i: nat)
    requires i < |lines| && SecretsPass.CanMount(lines[i])
    ensures var out := SecretsPass.WithSecrets(mounts, lines);
            var shift := |out| - |lines|;
            0 <= shift <= 1 && out[i + shift] == SecretsPass.MountLine(mounts, lines[i])
  {
    hide SecretsPass.CanMount;
    hide SecretsPass.MountLine;
  }

  /** Every secret is mounted in that line, and so is the hash. */
  lemma EverySecretIsMounted(keys: seq<string>, lines: seq<string>, i: nat, blanks: string, rest: string, k: nat)
    requires i < |lines| && lines[i] == blanks + "RUN" + rest && forall c | c in blanks :: PhpBlank(c)
    requires !Contains(lines[i], "--mount=type=secret") && k < |keys|
    ensures var out := SecretsPass.WithSecrets(SecretsPass.MountStrings(keys), lines);
            var shift := |out| - |lines|;
            && 0 <= shift <= 1
            && Contains(out[i + shift], "--mount=type=secret,id=" + keys[k] + ",env=" + keys[k])
            && Contains(out[i + shift],
                        "--mount=type=secret,id=" + SecretsPass.HASH_KEY + ",env=" + SecretsPass.HASH_KEY)
  {
    hide *;
    var left, command, right := CommandSurvives(keys, lines, i, blanks, rest);
    MountsOfAllSecrets(keys);
    var secrets := keys + [SecretsPass.HASH_KEY];
    MountInText(secrets, k, command);
    MountInText(secrets, |keys|, command);
  }

  lemma MountInText(secrets: seq<string>, k: nat, command: string)
    requires k < |secrets|
    ensures Contains("RUN " + Join(Mounts(secrets), " ") + " " + command,
                     "--mount=type=secret,id=" + secrets[k] + ",env=" + secrets[k])
  {
    hide *;
    var pieces := Mounts(secrets);
    var left, right := PieceInJoin(pieces, " ", k);
    ContainsInside("RUN " + left, pieces[k], right + " " + command);
    assert "RUN " + (left + pieces[k] + right) + " " + command == ("RUN " + left) + pieces[k] + (right + " " + command);
  }
}
