/**
 The build-time file from end to end: the shell that sources it assigns every variable, once and in
 order, the value it was given.
 */
module BuildEnvFile {
  import opened Text
  import opened BuildEnv
  import opened ShellEscape
  import LineShapes

  /** The escapes of the program, and none. */
  const BASH := Escapes(EscapeBashEnvValue, EscapeBashDoubleQuoted)
  const AS_IS := Escapes((value: string) => value, (value: string) => value)

  predicate Letter(c: char) {
    'a' <= c <= 'z' || 'A' <= c <= 'Z' || c == '_'
  }

  /** A name that the shell can assign to. */
  predicate IsName(key: string) {
    key != "" && Letter(key[0]) && forall c | c in key :: Letter(c) || '0' <= c <= '9'
  }

  /** The assignments of a file, as the shell makes them; none if it cannot be read as assignments. */
  function Sourced(s: string): Option<seq<Pair>>
    decreases |s|
  {
    if s == "" then Some([])
    else
      match AfterChar(s, '=')
      case None => None
      case Some(text) =>
        var key := Before(s, '=');
        if !IsName(key) then None
        else
          match Unquoted(text)
          case None => None
          case Some(w) =>
            if w.rest == "" then Some([Pair(key, w.value)])
            else
              match Sourced(w.rest[1..])
              case None => None
              case Some(more) => Some([Pair(key, w.value)] + more)
  }

  // ------------------------------------------------------------------ lines

  /** The lines assign these values to these names. */
  ghost predicate Assigns(lines: seq<string>, texts: seq<string>, pairs: seq<Pair>) {
    && |lines| == |texts| == |pairs|
    && forall n | 0 <= n < |pairs| ::
         IsName(pairs[n].key) && lines[n] == pairs[n].key + "=" + texts[n] && ReadsAs(texts[n], pairs[n].value)
  }

  lemma NameHasNoEquals(key: string)
    requires IsName(key)
    ensures '=' !in key
  {
  }

  lemma OneAssignment(key: string, text: string, value: string, rest: string)
    requires IsName(key) && ReadsAs(text, value) && (rest == "" || rest[0] == '\n')
    ensures var s := key + "=" + text + rest;
            && s != "" && Before(s, '=') == key && AfterChar(s, '=') == Some(text + rest)
            && Unquoted(text + rest) == Some(Word(value, rest))
  {
    hide Unquoted;
    NameHasNoEquals(key);
    hide IsName;
    assert key + "=" + text + rest == key + ['='] + (text + rest);
    SplitAtFirst(key, '=', text + rest);
  }

  lemma SourcedStep(key: string, text: string, value: string, rest: string)
    requires IsName(key) && ReadsAs(text, value) && (rest == "" || rest[0] == '\n')
    ensures Sourced(key + "=" + text + rest) ==
              if rest == "" then Some([Pair(key, value)])
              else
                match Sourced(rest[1..])
                case None => None
                case Some(more) => Some([Pair(key, value)] + more)
  {
    hide Unquoted;
    hide Before;
    hide AfterChar;
    OneAssignment(key, text, value, rest);
    hide IsName;
    hide ReadsAs;
  }

  /** A file of such lines is sourced as these assignments. */
  lemma {:induction false} SourcedLines(lines: seq<string>, texts: seq<string>, pairs: seq<Pair>)
    requires Assigns(lines, texts, pairs)
    ensures Sourced(Join(lines, "\n")) == Some(pairs)
    decreases |lines|
  {
    hide IsName;
    hide ReadsAs;
    if lines != [] {
      var p, text := pairs[0], texts[0];
      assert pairs == [p] + pairs[1..];
      if |lines| == 1 {
        SourcedStep(p.key, text, p.value, "");
        assert pairs == [p] && p.key + "=" + text + "" == lines[0] == Join(lines, "\n");
      } else {
        var more := Join(lines[1..], "\n");
        SourcedLines(lines[1..], texts[1..], pairs[1..]);
        SourcedStep(p.key, text, p.value, "\n" + more);
        assert ("\n" + more)[1..] == more;
        assert Join(lines, "\n") == p.key + "=" + text + ("\n" + more);
      }
    }
  }

  // ------------------------------------------------------------------ what is assigned

  /** The same keys, and values that the shell reads as those. */
  ghost predicate Matches(quoted: seq<Pair>, plain: seq<Pair>) {
    && |quoted| == |plain|
    && forall n | 0 <= n < |plain| :: quoted[n].key == plain[n].key && ReadsAs(quoted[n].value, plain[n].value)
  }

  lemma MatchesConcat(a: seq<Pair>, b: seq<Pair>, c: seq<Pair>, d: seq<Pair>)
    requires Matches(a, b) && Matches(c, d)
    ensures Matches(a + c, b + d)
  {
    hide ReadsAs;
  }

  lemma MatchesOne(key: string, quoted: string, plain: string)
    requires ReadsAs(quoted, plain)
    ensures Matches([Pair(key, quoted)], [Pair(key, plain)])
  {
    hide ReadsAs;
  }

  lemma {:induction false} PlanMatches(plan: seq<Pair>)
    ensures Matches(PlanLayer(BASH, plan), PlanLayer(AS_IS, plan))
  {
    hide Reserved;
    hide Matches;
    if plan == [] {
      NoneMatch();
    } else {
      PlanMatches(plan[1..]);
      SingleReadsAs(plan[0].value);
      MatchesOne(plan[0].key, EscapeBashEnvValue(plan[0].value), plan[0].value);
      NoneMatch();
      hide EscapeBashEnvValue;
      MatchesConcat(PlanPair(BASH, plan[0]), PlanPair(AS_IS, plan[0]),
                    PlanLayer(BASH, plan[1..]), PlanLayer(AS_IS, plan[1..]));
    }
  }

  lemma NoneMatch()
    ensures Matches([], [])
  {
  }

  lemma {:induction false} CoolifyMatches(vars: seq<Pair>)
    ensures Matches(CoolifyLayer(BASH, vars), CoolifyLayer(AS_IS, vars))
  {
    hide Matches;
    if vars == [] {
      NoneMatch();
    } else {
      CoolifyMatches(vars[1..]);
      SingleReadsAs(vars[0].value);
      MatchesOne(vars[0].key, EscapeBashEnvValue(vars[0].value), vars[0].value);
      hide EscapeBashEnvValue;
      MatchesConcat([Pair(vars[0].key, BASH.value(vars[0].value))], [Pair(vars[0].key, AS_IS.value(vars[0].value))],
                    CoolifyLayer(BASH, vars[1..]), CoolifyLayer(AS_IS, vars[1..]));
    }
  }

  lemma {:induction false} ServicesMatch(services: seq<string>, suffix: string)
    ensures Matches(ServiceLayer(BASH, services, suffix), ServiceLayer(AS_IS, services, suffix))
  {
    hide Matches;
    hide ServiceSuffix;
    if services == [] {
      NoneMatch();
    } else {
      ServicesMatch(services[1..], suffix);
      var key, value := "SERVICE_NAME_" + ServiceSuffix(services[0]), services[0] + suffix;
      SingleReadsAs(value);
      MatchesOne(key, EscapeBashEnvValue(value), value);
      hide EscapeBashEnvValue;
      MatchesConcat([ServicePair(BASH, services[0], suffix)], [ServicePair(AS_IS, services[0], suffix)],
                    ServiceLayer(BASH, services[1..], suffix), ServiceLayer(AS_IS, services[1..], suffix));
    }
  }

  lemma DomainMatches(d: Domain)
    ensures Matches(DomainPair(BASH, d), DomainPair(AS_IS, d))
  {
    hide Matches;
    hide ServiceSuffix;
    hide EscapeBashEnvValue;
    NoneMatch();
    var suffix := ServiceSuffix(d.service);
    SingleReadsAs(d.url);
    SingleReadsAs(d.fqdn);
    MatchesOne("SERVICE_URL_" + suffix, EscapeBashEnvValue(d.url), d.url);
    MatchesOne("SERVICE_FQDN_" + suffix, EscapeBashEnvValue(d.fqdn), d.fqdn);
    var url, fqdn := "SERVICE_URL_" + suffix, "SERVICE_FQDN_" + suffix;
    var p, q := Pair(url, EscapeBashEnvValue(d.url)), Pair(fqdn, EscapeBashEnvValue(d.fqdn));
    MatchesConcat([p], [Pair(url, d.url)], [q], [Pair(fqdn, d.fqdn)]);
    assert [p] + [q] == [p, q] && [Pair(url, d.url)] + [Pair(fqdn, d.fqdn)] == [Pair(url, d.url), Pair(fqdn, d.fqdn)];
  }

  lemma {:induction false} DomainsMatch(domains: seq<Domain>)
    ensures Matches(DomainLayer(BASH, domains), DomainLayer(AS_IS, domains))
  {
    hide Matches;
    hide DomainPair;
    if domains == [] {
      NoneMatch();
    } else {
      DomainsMatch(domains[1..]);
      DomainMatches(domains[0]);
      MatchesConcat(DomainPair(BASH, domains[0]), DomainPair(AS_IS, domains[0]),
                    DomainLayer(BASH, domains[1..]), DomainLayer(AS_IS, domains[1..]));
    }
  }

  lemma UserMatches(isCompose: bool, v: UserVar)
    ensures Matches(UserPair(BASH, isCompose, v), UserPair(AS_IS, isCompose, v))
  {
    hide Matches;
    hide GeneratedUrl;
    hide Trim;
    hide EscapeBashEnvValue;
    hide EscapeBashDoubleQuoted;
    NoneMatch();
    SingleReadsAs(UserValue(AS_IS, v));
    DoubleReadsAs(UserValue(AS_IS, v));
    MatchesOne(v.key, UserValue(BASH, v), UserValue(AS_IS, v));
  }

  lemma {:induction false} UsersMatch(isCompose: bool, user: seq<UserVar>)
    ensures Matches(UserLayer(BASH, isCompose, user), UserLayer(AS_IS, isCompose, user))
  {
    hide Matches;
    hide UserPair;
    if user == [] {
      NoneMatch();
    } else {
      UsersMatch(isCompose, user[1..]);
      UserMatches(isCompose, user[0]);
      MatchesConcat(UserPair(BASH, isCompose, user[0]), UserPair(AS_IS, isCompose, user[0]),
                    UserLayer(BASH, isCompose, user[1..]), UserLayer(AS_IS, isCompose, user[1..]));
    }
  }

  lemma AllMatch(i: Inputs)
    requires i.escapes == BASH
    ensures Matches(Assignments(i), Assignments(i.(escapes := AS_IS)))
  {
    hide Matches;
    hide PlanLayer;
    hide CoolifyLayer;
    hide ServiceLayer;
    hide DomainLayer;
    hide UserLayer;
    var j := i.(escapes := AS_IS);
    NoneMatch();
    PlanMatches(i.plan);
    CoolifyMatches(i.coolify);
    ServicesMatch(i.services, i.previewSuffix);
    DomainsMatch(i.domains);
    UsersMatch(i.buildPack.DockerCompose?, i.user);
    MatchesConcat(ServiceLayer(BASH, i.services, i.previewSuffix), ServiceLayer(AS_IS, i.services, i.previewSuffix),
                  DomainLayer(BASH, i.domains), DomainLayer(AS_IS, i.domains));
    MatchesConcat(PlanPart(i), PlanPart(j), CoolifyLayer(BASH, i.coolify), CoolifyLayer(AS_IS, i.coolify));
    MatchesConcat(PlanPart(i) + CoolifyLayer(BASH, i.coolify), PlanPart(j) + CoolifyLayer(AS_IS, i.coolify),
                  ComposePart(i), ComposePart(j));
    MatchesConcat(Generated(i), Generated(j), UserLayer(BASH, i.buildPack.DockerCompose?, i.user),
                  UserLayer(AS_IS, i.buildPack.DockerCompose?, i.user));
  }

  lemma {:induction false} LastMatches(quoted: seq<Pair>, plain: seq<Pair>, key: string)
    requires Matches(quoted, plain)
    ensures LastValue(quoted, key).Some? <==> LastValue(plain, key).Some?
    ensures LastValue(quoted, key).Some? ==> ReadsAs(LastValue(quoted, key).value, LastValue(plain, key).value)
    ensures Keys(quoted) == Keys(plain)
  {
    hide ReadsAs;
    if quoted != [] {
      LastMatches(quoted[..|quoted| - 1], plain[..|plain| - 1], key);
    }
  }

  // ------------------------------------------------------------------ the whole file

  /** The values that were to be assigned: for every key the last one, unquoted. */
  function Intended(i: Inputs): Option<seq<Pair>> {
    var plain := Assignments(i.(escapes := AS_IS));
    IntendedOf(plain, DistinctFirst(Keys(plain)))
  }

  function IntendedOf(plain: seq<Pair>, keys: seq<string>): (r: Option<seq<Pair>>)
    ensures r.Some? ==> |r.value| == |keys|
    ensures r.Some? ==> forall n | 0 <= n < |keys| ::
              r.value[n].key == keys[n] && Some(r.value[n].value) == LastValue(plain, keys[n])
    ensures r.Some? <==> forall key | key in keys :: LastValue(plain, key).Some?
  {
    if keys == [] then Some([])
    else
      assert keys == [keys[0]] + keys[1..] && keys[0] in keys && forall key | key in keys[1..] :: key in keys;
      match LastValue(plain, keys[0])
      case None => None
      case Some(value) =>
        match IntendedOf(plain, keys[1..])
        case None => None
        case Some(more) => Some([Pair(keys[0], value)] + more)
  }

  /**
   The lines that are written, sourced by the shell, assign every key once, in the order of first insertion,
   and each the last value it was given, whatever characters that has.
   */
  lemma SourcedAsIntended(i: Inputs, envs: seq<string>)
    requires i.escapes == BASH && forall key | key in Keys(Assignments(i)) :: IsName(key)
    requires var keys := DistinctFirst(Keys(Assignments(i)));
             && |envs| == |keys|
             && forall n | 0 <= n < |envs| ::
                  LastValue(Assignments(i), keys[n]).Some?
                  && envs[n] == keys[n] + "=" + LastValue(Assignments(i), keys[n]).value
    ensures Intended(i).Some? && Sourced(Join(envs, "\n")) == Intended(i)
  {
    hide Assignments;
    hide DistinctFirst;
    hide LastValue;
    hide ReadsAs;
    hide IsName;
    hide Matches;
    hide Sourced;
    var quoted, plain := Assignments(i), Assignments(i.(escapes := AS_IS));
    AllMatch(i);
    LastMatches(quoted, plain, "");
    var keys := DistinctFirst(Keys(quoted));
    DistinctFirstKeys(Keys(quoted));
    forall key | key in keys
      ensures LastValue(plain, key).Some? && LastValue(quoted, key).Some?
      ensures ReadsAs(LastValue(quoted, key).value, LastValue(plain, key).value)
    {
      var n :| 0 <= n < |keys| && keys[n] == key;
      LastMatches(quoted, plain, key);
    }
    var pairs := IntendedOf(plain, keys).value;
    var texts := TextsOf(quoted, keys);
    assert Assigns(envs, texts, pairs);
    SourcedLines(envs, texts, pairs);
  }

  function TextsOf(quoted: seq<Pair>, keys: seq<string>): (r: seq<string>)
    requires forall key | key in keys :: LastValue(quoted, key).Some?
    ensures |r| == |keys| && forall n | 0 <= n < |keys| :: Some(r[n]) == LastValue(quoted, keys[n])
  {
    seq(|keys|, n requires 0 <= n < |keys| => LastValue(quoted, keys[n]).value)
  }

  /** What the shell is to assign to the last user variable under a key: its value, or what its quotes enclose. */
  lemma UserVariableIntended(i: Inputs, n: nat, left: string, inner: string, right: string)
    requires n < |i.user| && !(i.buildPack.DockerCompose? && GeneratedUrl(i.user[n].key))
    requires forall m | n < m < |i.user| :: i.user[m].key != i.user[n].key
    requires i.user[n].realValue == left + inner + right
    requires (forall c | c in left :: c == '\'') && (forall c | c in right :: c == '\'')
    requires inner != "" && inner[0] != '\'' && inner[|inner| - 1] != '\''
    ensures var v := i.user[n];
            LastValue(Assignments(i.(escapes := AS_IS)), v.key) == Some(if v.quoted then inner else v.realValue)
  {
    hide GeneratedUrl;
    hide Assignments;
    UserValueWritten(i.(escapes := AS_IS), n);
    TrimmedQuotes(left, inner, right);
  }

  lemma TrimmedQuotes(left: string, inner: string, right: string)
    requires (forall c | c in left :: c == '\'') && (forall c | c in right :: c == '\'')
    requires inner != "" && inner[0] != '\'' && inner[|inner| - 1] != '\''
    ensures Trim(Quote, left + inner + right) == inner
  {
    LineShapes.TrimStartDropsBlanks(Quote, left, inner + right);
    assert left + inner + right == left + (inner + right) && (inner + right)[0] == inner[0];
    RightQuotes(inner, right);
  }

  lemma {:induction false} RightQuotes(inner: string, right: string)
    requires (forall c | c in right :: c == '\'') && inner != "" && inner[|inner| - 1] != '\''
    ensures TrimEnd(Quote, inner + right) == inner
  {
    if right == "" {
      assert inner + right == inner;
    } else {
      var n := |right| - 1;
      assert right == right[..n] + [right[n]] && right[n] in right && forall c | c in right[..n] :: c in right;
      assert (inner + right)[..|inner| + n] == inner + right[..n] && (inner + right)[|inner| + n] == right[n];
      RightQuotes(inner, right[..n]);
    }
  }
}
