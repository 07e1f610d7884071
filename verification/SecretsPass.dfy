/**
 The secrets pass: every RUN line without a secret mount gets the mounts of all build secrets,
 and the file gets a BuildKit syntax line. Nothing is written if no RUN line needed a mount.
 The pass commutes with both ARG passes.
 */
module SecretsPass {
  import opened Text
  import opened Dockerfile
  import opened DockerLines
  import ArgPass
  import ArgLaws
  import ComposePass
  import SinglePass

  const MOUNT := "--mount=type=secret"
  const SYNTAX_PREFIX := "# syntax="
  const SYNTAX_LINE := "# syntax=docker/dockerfile:1"
  const HASH_KEY := "COOLIFY_BUILD_SECRETS_HASH"
  const HASH_MOUNT := " " + MOUNT + ",id=" + HASH_KEY + ",env=" + HASH_KEY

  function KeyMounts(keys: seq<string>): seq<string> {
    if keys == [] then []
    else ["--mount=type=secret,id=" + keys[0] + ",env=" + keys[0]] + KeyMounts(keys[1..])
  }

  /** The mounts of all secrets, with one for the hash that invalidates the build cache. */
  function MountStrings(keys: seq<string>): string {
    Join(KeyMounts(keys), " ") + HASH_MOUNT
  }

  predicate CanMount(line: string) {
    !Contains(line, MOUNT) && IsRun(line)
  }

  function MountLine(mounts: string, line: string): string {
    if CanMount(line) then "RUN " + mounts + " " + Trim(PhpBlank, TrimStart(PhpBlank, line)[3..]) else line
  }

  function Mount(mounts: string): string -> string {
    (line: string) => MountLine(mounts, line)
  }

  function WithSyntax(lines: seq<string>): seq<string> {
    if lines != [] && SYNTAX_PREFIX <= lines[0] then lines else [SYNTAX_LINE] + lines
  }

  predicate NeedsMount(lines: seq<string>) {
    exists line | line in lines :: CanMount(line)
  }

  function WithSecrets(mounts: string, lines: seq<string>): seq<string> {
    if NeedsMount(lines) then MapLines(Mount(mounts), WithSyntax(lines)) else lines
  }

  // ------------------------------------------------------------------ the pass as it runs

  method MountInLine(mounts: string, line: string) returns (mounted: string, changed: bool)
    ensures mounted == MountLine(mounts, line)
    ensures changed <==> CanMount(line)
  {
    hide Contains;
    hide TrimStart;
    hide Trim;
    mounted, changed := line, false;
    if !Contains(line, MOUNT) && IsRun(line) {
      var originalCommand := Trim(PhpBlank, TrimStart(PhpBlank, line)[3..]);
      mounted, changed := "RUN " + mounts + " " + originalCommand, true;
    }
  }

  method MountSecrets(mounts: string, lines: seq<string>) returns (dockerfile: seq<string>, modified: bool)
    ensures modified <==> NeedsMount(WithSyntax(lines))
    ensures dockerfile == MapLines(Mount(mounts), WithSyntax(lines))
  {
    hide CanMount;
    hide MountLine;
    dockerfile := lines;
    if !(lines != [] && SYNTAX_PREFIX <= lines[0]) {
      dockerfile := [SYNTAX_LINE] + dockerfile;
    }
    ghost var whole := dockerfile;
    modified := false;
    for i := 0 to |dockerfile|
      invariant |dockerfile| == |whole|
      invariant forall j | 0 <= j < i :: dockerfile[j] == MountLine(mounts, whole[j])
      invariant forall j | i <= j < |whole| :: dockerfile[j] == whole[j]
      invariant modified <==> exists j | 0 <= j < i :: CanMount(whole[j])
    {
      var line, changed := MountInLine(mounts, dockerfile[i]);
      dockerfile := dockerfile[i := line];
      modified := modified || changed;
    }
    assert dockerfile == MapLines(Mount(mounts), whole);
    assert modified ==> NeedsMount(whole);
    assert NeedsMount(whole) ==> modified;
  }

  /** The pass with its settings; the file is written back only when a RUN line was changed. */
  method ModifyDockerfileForSecrets(useBuildSecrets: bool, hasBuildSecrets: bool, variables: seq<string>,
      lines: seq<string>)
    returns (file: seq<string>)
    ensures file == if useBuildSecrets && hasBuildSecrets && variables != []
              then WithSecrets(MountStrings(variables), lines)
                    else lines
  {
    hide MountStrings;
    if !useBuildSecrets || !hasBuildSecrets || variables == [] {
      return lines;
    }
    var dockerfile, modified := MountSecrets(MountStrings(variables), lines);
    SyntaxNeedsNoMount(lines);
    file := if modified then dockerfile else lines;
  }

  lemma SyntaxFacts()
    ensures !CanMount(SYNTAX_LINE) && !IsRun(SYNTAX_LINE) && !ComposeFrom(SYNTAX_LINE) && !SingleFrom(SYNTAX_LINE)
    ensures SYNTAX_PREFIX <= SYNTAX_LINE
  {
    hide Trim;
    hide TrimStart;
    hide StrBlank;
    hide PhpBlank;
    hide Contains;
    assert SYNTAX_LINE[0] == '#';
    VisibleStart(SYNTAX_LINE);
    VisibleIsNotBlank('1');
    SolidEnds(SYNTAX_LINE);
    assert SYNTAX_LINE[..9] == SYNTAX_PREFIX;
  }

  lemma OneMoreLine(line: string, lines: seq<string>)
    requires !CanMount(line)
    ensures NeedsMount([line] + lines) <==> NeedsMount(lines)
  {
    hide CanMount;
    forall other | other in lines
      ensures other in [line] + lines
    {
    }
  }

  lemma SyntaxNeedsNoMount(lines: seq<string>)
    ensures NeedsMount(WithSyntax(lines)) <==> NeedsMount(lines)
  {
    hide CanMount;
    hide NeedsMount;
    SyntaxFacts();
    OneMoreLine(SYNTAX_LINE, lines);
  }

  // ------------------------------------------------------------------ single lines

  /** A mounted line holds a secret mount and is still a RUN line. */
  lemma MountedLine(keys: seq<string>, line: string)
    ensures CanMount(line) ==>
              IsRun(MountLine(MountStrings(keys), line)) && Contains(MountLine(MountStrings(keys), line), MOUNT)
    ensures !CanMount(MountLine(MountStrings(keys), line))
  {
    if CanMount(line) {
      var cmd := Trim(PhpBlank, TrimStart(PhpBlank, line)[3..]);
      var tail := HashMountTail();
      MountedText(Join(KeyMounts(keys), " "), tail, cmd);
    }
  }

  lemma HashMountTail() returns (tail: string)
    ensures HASH_MOUNT == " " + MOUNT + tail
  {
    tail := ",id=" + HASH_KEY + ",env=" + HASH_KEY;
  }

  lemma MountedText(mounts: string, tail: string, cmd: string)
    ensures var line := "RUN " + (mounts + (" " + MOUNT + tail)) + " " + cmd;
            IsRun(line) && Contains(line, MOUNT)
  {
    hide IsRun;
    hide Contains;
    var line := "RUN " + (mounts + (" " + MOUNT + tail)) + " " + cmd;
    assert line[..3] == "RUN";
    RunPrefix(line);
    var left, right := "RUN " + mounts + " ", tail + " " + cmd;
    assert line == left + MOUNT + right;
    ContainsInside(left, MOUNT, right);
  }

  /** To the other passes a mounted line is what it was: no FROM line and no ARG line. */
  lemma MountKeepsLine(mounts: string, line: string)
    ensures var line' := MountLine(mounts, line);
            && ComposeFrom(line') == ComposeFrom(line) && SingleFrom(line') == SingleFrom(line)
            && IsArg(line') == IsArg(line)
            && (IsArg(line) ==> line' == line)
            && (!IsRun(line) ==> line' == line)
  {
    hide ComposeFrom;
    hide SingleFrom;
    hide IsArg;
    hide Contains;
    if CanMount(line) {
      var line' := MountLine(mounts, line);
      assert line'[..3] == "RUN";
      RunPrefix(line');
      RunIsNeither(line);
      RunIsNeither(line');
    }
  }

  // ------------------------------------------------------------------ what the pass guarantees

  /** Running the pass again changes nothing. */
  lemma SecretsIdempotent(keys: seq<string>, lines: seq<string>)
    ensures var mounts := MountStrings(keys);
            WithSecrets(mounts, WithSecrets(mounts, lines)) == WithSecrets(mounts, lines)
  {
    hide CanMount;
    hide MountStrings;
    hide MountLine;
    var out := WithSecrets(MountStrings(keys), lines);
    if NeedsMount(lines) {
      forall line | line in out
        ensures !CanMount(line)
      {
        var i :| 0 <= i < |out| && out[i] == line;
        MountedLine(keys, WithSyntax(lines)[i]);
      }
    }
  }

  /** The pass keeps every line but RUN lines; at most the syntax line is new, and then it is first. */
  lemma OnlyRunLinesChange(keys: seq<string>, lines: seq<string>, i: nat)
    requires i < |lines|
    ensures var out := WithSecrets(MountStrings(keys), lines);
            var shift := |out| - |lines|;
            && 0 <= shift <= 1
            && (shift == 1 ==> out[0] == SYNTAX_LINE && !(SYNTAX_PREFIX <= lines[0]))
            && (out[i + shift] == lines[i] || IsRun(lines[i]))
  {
    hide MountStrings;
    hide *;
    var mounts := MountStrings(keys);
    var all := WithSyntax(lines);
    SyntaxShift(lines);
    SecretsResult(mounts, lines);
    SyntaxFacts();
    FirstLineKept(mounts, SYNTAX_LINE);
    MountKeepsLine(mounts, lines[i]);
  }

  lemma SyntaxShift(lines: seq<string>)
    ensures var all := WithSyntax(lines);
            if lines != [] && SYNTAX_PREFIX <= lines[0] then all == lines else all == [SYNTAX_LINE] + lines
  {
  }

  lemma SecretsResult(mounts: string, lines: seq<string>)
    ensures var all, out := WithSyntax(lines), WithSecrets(mounts, lines);
            out == lines || (|out| == |all| && forall j | 0 <= j < |all| :: out[j] == MountLine(mounts, all[j]))
  {
  }

  /** If the pass wrote anything, the file has a syntax line and every RUN line holds a secret mount. */
  lemma EveryRunIsMounted(keys: seq<string>, lines: seq<string>)
    ensures var out := WithSecrets(MountStrings(keys), lines);
            out != lines ==>
              && out != [] && SYNTAX_PREFIX <= out[0]
              && forall line | line in out && IsRun(line) :: Contains(line, MOUNT)
  {
    hide MountStrings;
    hide Contains;
    hide IsRun;
    hide MountLine;
    var mounts := MountStrings(keys);
    var out := WithSecrets(mounts, lines);
    if NeedsMount(lines) {
      var all := WithSyntax(lines);
      SyntaxFacts();
      FirstLineKept(mounts, all[0]);
      forall line | line in out && IsRun(line)
        ensures Contains(line, MOUNT)
      {
        var j :| 0 <= j < |out| && out[j] == line;
        MountedLine(keys, all[j]);
      }
    }
  }

  lemma FirstLineKept(mounts: string, line: string)
    requires SYNTAX_PREFIX <= line
    ensures MountLine(mounts, line) == line
  {
  }

  // ------------------------------------------------------------------ commuting with the ARG passes

  /** Opening stages with lines that are no RUN lines commutes with mounting secrets. */
  lemma SecretsCommute(isFrom: LineTest, extra: seq<string> -> seq<string>, pool: seq<string>, mounts: string,
      lines: seq<string>)
    requires forall line :: isFrom(MountLine(mounts, line)) == isFrom(line)
    requires forall body :: extra(MapLines(Mount(mounts), body)) == MapLines(Mount(mounts), extra(body))
    requires forall body, line :: line in extra(body) ==> line in pool
    requires forall line | line in pool :: !CanMount(line)
    requires !isFrom(SYNTAX_LINE)
    ensures WithSecrets(mounts, Rewritten(isFrom, extra, lines)) == Rewritten(isFrom, extra, WithSecrets(mounts, lines))
  {
    hide CanMount;
    hide Rewritten;
    if lines == [] {
      EmptyFile(isFrom, extra);
      return;
    }
    RewrittenFirst(isFrom, extra, pool, lines);
    var out := Rewritten(isFrom, extra, lines);
    assert NeedsMount(out) <==> NeedsMount(lines);
    RewrittenPrefix(isFrom, extra, [SYNTAX_LINE], lines);
    assert WithSyntax(out) == Rewritten(isFrom, extra, WithSyntax(lines));
    ArgLaws.InsertMapCommute(isFrom, extra, Mount(mounts), WithSyntax(lines));
  }

  lemma EmptyFile(isFrom: LineTest, extra: seq<string> -> seq<string>)
    ensures Rewritten(isFrom, extra, []) == []
  {
  }

  lemma RewrittenFirst(isFrom: LineTest, extra: seq<string> -> seq<string>, pool: seq<string>, lines: seq<string>)
    requires forall body, line :: line in extra(body) ==> line in pool
    requires lines != []
    ensures var out := Rewritten(isFrom, extra, lines);
            && out != [] && out[0] == lines[0]
            && (forall line | line in lines :: line in out)
            && (forall line | line in out :: line in lines || line in pool)
  {
    ArgLaws.RewrittenFile(isFrom, extra, pool, lines);
  }

  lemma MapNoRun(mounts: string, args: seq<string>)
    requires forall arg | arg in args :: !IsRun(arg)
    ensures MapLines(Mount(mounts), args) == args
  {
  }

  lemma MountKeepsLines(mounts: string)
    ensures forall line :: ComposeFrom(MountLine(mounts, line)) == ComposeFrom(line)
    ensures forall line :: SingleFrom(MountLine(mounts, line)) == SingleFrom(line)
    ensures forall line :: IsArg(MountLine(mounts, line)) == IsArg(line)
    ensures forall line :: IsArg(line) ==> MountLine(mounts, line) == line
  {
    hide ComposeFrom;
    hide SingleFrom;
    hide IsArg;
    hide MountLine;
    forall line: string
      ensures ComposeFrom(MountLine(mounts, line)) == ComposeFrom(line)
      ensures SingleFrom(MountLine(mounts, line)) == SingleFrom(line)
      ensures IsArg(MountLine(mounts, line)) == IsArg(line)
      ensures IsArg(line) ==> MountLine(mounts, line) == line
    {
      MountKeepsLine(mounts, line);
    }
  }

  /** Declaring build arguments stage by stage, then mounting secrets, is the same as the other order. */
  lemma CommutesWithComposePass(mounts: string, keys: seq<string>, lines: seq<string>)
    ensures WithSecrets(mounts, ComposePass.WithArgs(keys, lines)) ==
              ComposePass.WithArgs(keys, WithSecrets(mounts, lines))
  {
    hide Rewritten;
    hide WithSecrets;
    hide ComposeFrom;
    hide SingleFrom;
    hide IsRun;
    hide MountLine;
    hide ComposePass.ArgLines;
    var args := ComposePass.ArgLines(keys);
    ComposePass.ArgLinesStart(keys);
    ComposeExtraCommutes(mounts, args);
    SyntaxFacts();
    SecretsCommute(ComposeFrom, ArgPass.MissingFrom(ComposePass.COMPOSE, args), args, mounts, lines);
  }

  lemma ComposeExtraCommutes(mounts: string, args: seq<string>)
    requires forall arg | arg in args :: !IsRun(arg)
    ensures forall line :: ComposeFrom(MountLine(mounts, line)) == ComposeFrom(line)
    ensures var extra := ArgPass.MissingFrom(ComposePass.COMPOSE, args);
            && (forall body :: extra(MapLines(Mount(mounts), body)) == MapLines(Mount(mounts), extra(body)))
            && (forall body, line :: line in extra(body) ==> line in args)
  {
    hide ComposeFrom;
    hide IsArg;
    hide IsRun;
    hide DeclaredKey;
    hide AddedKey;
    hide MountLine;
    MountKeepsLines(mounts);
    var extra := ArgPass.MissingFrom(ComposePass.COMPOSE, args);
    forall body: seq<string>
      ensures extra(MapLines(Mount(mounts), body)) == MapLines(Mount(mounts), extra(body))
    {
      ArgLaws.LeadingKeysMap(ComposePass.COMPOSE, Mount(mounts), body);
      MapNoRun(mounts, extra(body));
    }
  }

  /** The same for the single-Dockerfile pass and the ARG lines it collects. */
  lemma CommutesWithSinglePass(mounts: string, envs: seq<SinglePass.EnvVar>, coolifyVariables: string,
      lines: seq<string>)
    ensures var args := SinglePass.ArgsToInsert(envs, coolifyVariables);
            WithSecrets(mounts, SinglePass.WithAllArgs(args, lines)) ==
              SinglePass.WithAllArgs(args, WithSecrets(mounts, lines))
  {
    hide SinglePass.ArgsToInsert;
    hide Rewritten;
    hide WithSecrets;
    hide SingleFrom;
    hide IsRun;
    hide MountLine;
    var args := SinglePass.ArgsToInsert(envs, coolifyVariables);
    SinglePass.ArgsAreArgLines(envs, coolifyVariables);
    MountKeepsLines(mounts);
    MapNoRun(mounts, args);
    SyntaxFacts();
    SecretsCommute(SingleFrom, ArgLaws.All(args), args, mounts, lines);
  }
}
