/**
 Build-time variables: a dictionary filled layer by layer (nixpacks plan, generated COOLIFY
 variables, generated SERVICE variables, user variables), then written out as KEY=VALUE lines.
 */
module BuildEnv {
  import opened Text

  datatype BuildPack = Nixpacks | DockerCompose | OtherPack

  /** A domain of a compose service; how a domain is split into URL and host is not modelled. */
  datatype Domain = Domain(service: string, filled: bool, url: string, fqdn: string)

  datatype UserVar = UserVar(key: string, realValue: string, quoted: bool)

  /** The shell escapes that are applied to values. */
  datatype Escapes = Escapes(value: string -> string, doubleQuoted: string -> string)

  datatype Inputs = Inputs(
    buildPack: BuildPack,
    escapes: Escapes,
    plan: seq<Pair>,
    coolify: seq<Pair>,
    services: seq<string>,
    previewSuffix: string,
    domains: seq<Domain>,
    user: seq<UserVar>)

  /** A PHP array used as a dictionary: a key keeps the place of its first insertion. */
  datatype Dict = Dict(keys: seq<string>, values: map<string, string>) {
    function Put(key: string, value: string): Dict {
      Dict(if key in values then keys else keys + [key], values[key := value])
    }
  }

  // ------------------------------------------------------------------ what is assigned, in order

  function Upper(c: char): char {
    if 'a' <= c <= 'z' then c - 'a' + 'A' else c
  }

  function ServiceSuffix(name: string): (r: string)
    ensures |r| == |name|
  {
    if name == "" then ""
    else [if name[0] == '-' || name[0] == '.' then '_' else Upper(name[0])] + ServiceSuffix(name[1..])
  }

  predicate Reserved(key: string) {
    "COOLIFY_" <= key || "SERVICE_" <= key
  }

  predicate GeneratedUrl(key: string) {
    "SERVICE_FQDN_" <= key || "SERVICE_URL_" <= key
  }

  function PlanPair(esc: Escapes, p: Pair): seq<Pair> {
    if Reserved(p.key) then [] else [Pair(p.key, esc.value(p.value))]
  }

  function PlanLayer(esc: Escapes, plan: seq<Pair>): seq<Pair> {
    if plan == [] then [] else PlanPair(esc, plan[0]) + PlanLayer(esc, plan[1..])
  }

  function CoolifyLayer(esc: Escapes, vars: seq<Pair>): seq<Pair> {
    if vars == [] then [] else [Pair(vars[0].key, esc.value(vars[0].value))] + CoolifyLayer(esc, vars[1..])
  }

  function ServicePair(esc: Escapes, service: string, previewSuffix: string): Pair {
    Pair("SERVICE_NAME_" + ServiceSuffix(service), esc.value(service + previewSuffix))
  }

  function ServiceLayer(esc: Escapes, services: seq<string>, previewSuffix: string): seq<Pair> {
    if services == [] then []
    else [ServicePair(esc, services[0], previewSuffix)] + ServiceLayer(esc, services[1..], previewSuffix)
  }

  function DomainPair(esc: Escapes, d: Domain): seq<Pair> {
    if !d.filled then []
    else
      [Pair("SERVICE_URL_" + ServiceSuffix(d.service), esc.value(d.url)),
       Pair("SERVICE_FQDN_" + ServiceSuffix(d.service), esc.value(d.fqdn))]
  }

  function DomainLayer(esc: Escapes, domains: seq<Domain>): seq<Pair> {
    if domains == [] then [] else DomainPair(esc, domains[0]) + DomainLayer(esc, domains[1..])
  }

  predicate Quote(c: char) {
    c == '\''
  }

  function UserValue(esc: Escapes, v: UserVar): string {
    if v.quoted then esc.value(Trim(Quote, v.realValue)) else esc.doubleQuoted(v.realValue)
  }

  function UserPair(esc: Escapes, isCompose: bool, v: UserVar): seq<Pair> {
    if isCompose && GeneratedUrl(v.key) then [] else [Pair(v.key, UserValue(esc, v))]
  }

  function UserLayer(esc: Escapes, isCompose: bool, user: seq<UserVar>): seq<Pair> {
    if user == [] then [] else UserPair(esc, isCompose, user[0]) + UserLayer(esc, isCompose, user[1..])
  }

  function PlanPart(i: Inputs): seq<Pair> {
    if i.buildPack.Nixpacks? then PlanLayer(i.escapes, i.plan) else []
  }

  function ComposePart(i: Inputs): seq<Pair> {
    if i.buildPack.DockerCompose?
    then ServiceLayer(i.escapes, i.services, i.previewSuffix) + DomainLayer(i.escapes, i.domains)
    else []
  }

  /** Everything assigned before the user's variables. */
  function Generated(i: Inputs): seq<Pair> {
    PlanPart(i) + CoolifyLayer(i.escapes, i.coolify) + ComposePart(i)
  }

  function Assignments(i: Inputs): seq<Pair> {
    Generated(i) + UserLayer(i.escapes, i.buildPack.DockerCompose?, i.user)
  }

  // ------------------------------------------------------------------ what a reader of the file sees

  function Keys(pairs: seq<Pair>): (r: seq<string>)
    ensures |r| == |pairs| && forall i | 0 <= i < |r| :: r[i] == pairs[i].key
  {
    seq(|pairs|, i requires 0 <= i < |pairs| => pairs[i].key)
  }

  /** The keys in the order of their first assignment. */
  function DistinctFirst(keys: seq<string>): seq<string> {
    if keys == [] then []
    else
      var last, before := keys[|keys| - 1], DistinctFirst(keys[..|keys| - 1]);
      if last in before then before else before + [last]
  }

  /** The last value assigned to a key. */
  function LastValue(pairs: seq<Pair>, key: string): Option<string> {
    if pairs == [] then None
    else if pairs[|pairs| - 1].key == key then Some(pairs[|pairs| - 1].value)
    else LastValue(pairs[..|pairs| - 1], key)
  }

  /** The dictionary after all assignments: keys in first-insertion order, each with its last value. */
  ghost predicate Reflects(d: Dict, pairs: seq<Pair>) {
    && d.keys == DistinctFirst(Keys(pairs))
    && (forall key :: key in d.values <==> key in d.keys)
    && (forall key | key in d.keys :: LastValue(pairs, key) == Some(d.values[key]))
  }

  lemma PutReflects(d: Dict, pairs: seq<Pair>, p: Pair)
    requires Reflects(d, pairs)
    ensures Reflects(d.Put(p.key, p.value), pairs + [p])
  {
    var pairs' := pairs + [p];
    assert pairs'[..|pairs'| - 1] == pairs;
    assert Keys(pairs')[..|pairs'| - 1] == Keys(pairs);
  }

  method PutAll(d: Dict, ghost done: seq<Pair>, layer: seq<Pair>) returns (d': Dict)
    requires Reflects(d, done)
    ensures Reflects(d', done + layer)
  {
    d' := d;
    assert done + layer[..0] == done;
    for n := 0 to |layer|
      invariant Reflects(d', done + layer[..n])
    {
      PutReflects(d', done + layer[..n], layer[n]);
      assert done + layer[..n + 1] == (done + layer[..n]) + [layer[n]];
      d' := d'.Put(layer[n].key, layer[n].value);
    }
    assert layer[..|layer|] == layer;
  }

  /**
   Fills the dictionary in the order of the layers and writes one line per key. The distinct keys
   come in first-insertion order, each with its last value.
   */
  method GenerateBuildtimeEnvironmentVariables(i: Inputs) returns (envs: seq<string>, ghost d: Dict)
    ensures Reflects(d, Assignments(i))
    ensures |envs| == |DistinctFirst(Keys(Assignments(i)))|
    ensures forall n | 0 <= n < |envs| ::
              var key := DistinctFirst(Keys(Assignments(i)))[n];
              LastValue(Assignments(i), key).Some? && envs[n] == key + "=" + LastValue(Assignments(i), key).value
  {
    hide PlanLayer;
    hide CoolifyLayer;
    hide ServiceLayer;
    hide DomainLayer;
    hide UserLayer;
    hide DistinctFirst;
    var dict := Dict([], map[]);
    EmptyReflects();
    ghost var done: seq<Pair> := [];
    if i.buildPack.Nixpacks? {
      var layer := PlanPairs(i);
      dict := PutAll(dict, done, layer);
      done := done + layer;
    }
    var coolify := CoolifyLayer(i.escapes, i.coolify);
    dict := PutAll(dict, done, coolify);
    done := done + coolify;
    if i.buildPack.DockerCompose? {
      var services := ServiceLayer(i.escapes, i.services, i.previewSuffix);
      dict := PutAll(dict, done, services);
      var domains := DomainPairs(i);
      dict := PutAll(dict, done + services, domains);
      assert (done + services) + domains == done + (services + domains);
      done := done + (services + domains);
    }
    assert done == Generated(i);
    var user := UserPairs(i);
    dict := PutAll(dict, done, user);
    d := dict;
    envs := [];
    for n := 0 to |dict.keys|
      invariant |envs| == n
      invariant forall m | 0 <= m < n :: envs[m] == dict.keys[m] + "=" + dict.values[dict.keys[m]]
    {
      envs := envs + [dict.keys[n] + "=" + dict.values[dict.keys[n]]];
    }
  }

  lemma EmptyReflects()
    ensures Reflects(Dict([], map[]), [])
  {
  }

  lemma LayerSteps(i: Inputs, layer: seq<Pair>, n: nat)
    ensures n < |i.plan| ==>
              layer + PlanLayer(i.escapes, i.plan[n..]) ==
                (layer + PlanPair(i.escapes, i.plan[n])) + PlanLayer(i.escapes, i.plan[n + 1..])
    ensures n < |i.domains| ==>
              layer + DomainLayer(i.escapes, i.domains[n..]) ==
                (layer + DomainPair(i.escapes, i.domains[n])) + DomainLayer(i.escapes, i.domains[n + 1..])
    ensures n < |i.user| ==>
              var isCompose := i.buildPack.DockerCompose?;
              layer + UserLayer(i.escapes, isCompose, i.user[n..]) ==
                (layer + UserPair(i.escapes, isCompose, i.user[n])) + UserLayer(i.escapes, isCompose, i.user[n + 1..])
  {
    hide PlanPair;
    hide DomainPair;
    hide UserPair;
    assert n < |i.plan| ==> i.plan[n..][1..] == i.plan[n + 1..];
    assert n < |i.domains| ==> i.domains[n..][1..] == i.domains[n + 1..];
    assert n < |i.user| ==> i.user[n..][1..] == i.user[n + 1..];
  }

  /** The plan's variables without the reserved prefixes, which later layers set. */
  method PlanPairs(i: Inputs) returns (layer: seq<Pair>)
    ensures layer == PlanLayer(i.escapes, i.plan)
  {
    hide PlanLayer;
    hide Reserved;
    layer := [];
    for n := 0 to |i.plan|
      invariant layer + PlanLayer(i.escapes, i.plan[n..]) == PlanLayer(i.escapes, i.plan)
    {
      LayerSteps(i, layer, n);
      if Reserved(i.plan[n].key) {
        assert layer + [] == layer;
        continue;
      }
      layer := layer + [Pair(i.plan[n].key, i.escapes.value(i.plan[n].value))];
    }
    assert i.plan[|i.plan|..] == [];
    EmptyLayers(i);
  }

  method DomainPairs(i: Inputs) returns (layer: seq<Pair>)
    ensures layer == DomainLayer(i.escapes, i.domains)
  {
    hide DomainLayer;
    hide ServiceSuffix;
    layer := [];
    for n := 0 to |i.domains|
      invariant layer + DomainLayer(i.escapes, i.domains[n..]) == DomainLayer(i.escapes, i.domains)
    {
      LayerSteps(i, layer, n);
      if i.domains[n].filled {
        var suffix := ServiceSuffix(i.domains[n].service);
        layer := layer + [Pair("SERVICE_URL_" + suffix, i.escapes.value(i.domains[n].url)),
                          Pair("SERVICE_FQDN_" + suffix, i.escapes.value(i.domains[n].fqdn))];
      } else {
        assert layer + [] == layer;
      }
    }
    assert i.domains[|i.domains|..] == [];
    EmptyLayers(i);
  }

  /** The user's variables; in a compose build without those the platform generates. */
  method UserPairs(i: Inputs) returns (layer: seq<Pair>)
    ensures layer == UserLayer(i.escapes, i.buildPack.DockerCompose?, i.user)
  {
    hide UserLayer;
    hide UserValue;
    hide GeneratedUrl;
    layer := [];
    for n := 0 to |i.user|
      invariant layer + UserLayer(i.escapes, i.buildPack.DockerCompose?, i.user[n..]) ==
                  UserLayer(i.escapes, i.buildPack.DockerCompose?, i.user)
    {
      LayerSteps(i, layer, n);
      if i.buildPack.DockerCompose? && GeneratedUrl(i.user[n].key) {
        assert layer + [] == layer;
        continue;
      }
      layer := layer + [Pair(i.user[n].key, UserValue(i.escapes, i.user[n]))];
    }
    assert i.user[|i.user|..] == [];
    EmptyLayers(i);
  }

  lemma EmptyLayers(i: Inputs)
    ensures PlanLayer(i.escapes, []) == DomainLayer(i.escapes, []) ==
              UserLayer(i.escapes, i.buildPack.DockerCompose?, []) == []
  {
  }

  // ------------------------------------------------------------------ what the order means

  /** No key twice, none lost, none new. */
  lemma {:induction false} DistinctFirstKeys(keys: seq<string>)
    ensures forall a, b | 0 <= a < b < |DistinctFirst(keys)| :: DistinctFirst(keys)[a] != DistinctFirst(keys)[b]
    ensures forall key :: key in DistinctFirst(keys) <==> key in keys
  {
    if keys != [] {
      DistinctFirstKeys(keys[..|keys| - 1]);
      assert keys == keys[..|keys| - 1] + [keys[|keys| - 1]];
    }
  }

  /** The output order is that of first assignment: later assignments only append new keys. */
  lemma {:induction false} FirstInsertionOrder(keys: seq<string>, more: seq<string>)
    ensures DistinctFirst(keys) <= DistinctFirst(keys + more)
    ensures forall key | key in DistinctFirst(keys + more)[|DistinctFirst(keys)|..] :: key !in keys
    decreases |more|
  {
    DistinctFirstKeys(keys);
    if more == [] {
      assert keys + more == keys;
    } else {
      var fewer := more[..|more| - 1];
      FirstInsertionOrder(keys, fewer);
      DistinctFirstKeys(keys + fewer);
      assert (keys + more)[..|keys + more| - 1] == keys + fewer;
    }
  }

  lemma {:induction false} LastValueConcat(a: seq<Pair>, b: seq<Pair>, key: string)
    ensures LastValue(a + b, key) == if LastValue(b, key).Some? then LastValue(b, key) else LastValue(a, key)
  {
    if b == [] {
      assert a + b == a;
    } else {
      var b' := b[..|b| - 1];
      assert (a + b)[..|a + b| - 1] == a + b';
      LastValueConcat(a, b', key);
    }
  }

  lemma {:induction false} LastValueNone(pairs: seq<Pair>, key: string)
    requires forall p | p in pairs :: p.key != key
    ensures LastValue(pairs, key).None?
  {
    if pairs != [] {
      LastValueNone(pairs[..|pairs| - 1], key);
    }
  }

  lemma {:induction false} UserLayerKeys(esc: Escapes, isCompose: bool, user: seq<UserVar>)
    ensures forall p | p in UserLayer(esc, isCompose, user) :: !(isCompose && GeneratedUrl(p.key))
  {
    if user != [] {
      UserLayerKeys(esc, isCompose, user[1..]);
    }
  }

  lemma {:induction false} PlanLayerKeys(esc: Escapes, plan: seq<Pair>)
    ensures forall p | p in PlanLayer(esc, plan) :: !Reserved(p.key)
  {
    if plan != [] {
      PlanLayerKeys(esc, plan[1..]);
    }
  }

  /** In a compose build no user variable changes a generated SERVICE_FQDN or SERVICE_URL value. */
  lemma GeneratedUrlNotOverridden(i: Inputs, key: string)
    requires i.buildPack.DockerCompose? && GeneratedUrl(key)
    ensures LastValue(Assignments(i), key) == LastValue(Generated(i), key)
  {
    var user := UserLayer(i.escapes, true, i.user);
    UserLayerKeys(i.escapes, true, i.user);
    LastValueNone(user, key);
    LastValueConcat(Generated(i), user, key);
  }

  /** The value of a generated URL variable is that of the last service domain that yields its name. */
  lemma GeneratedUrlIsTheDomains(i: Inputs, n: nat)
    requires i.buildPack.DockerCompose? && n < |i.domains| && i.domains[n].filled
    requires forall m | n < m < |i.domains| :: i.domains[m].filled ==>
               ServiceSuffix(i.domains[m].service) != ServiceSuffix(i.domains[n].service)
    ensures var suffix := ServiceSuffix(i.domains[n].service);
            && LastValue(Assignments(i), "SERVICE_URL_" + suffix) == Some(i.escapes.value(i.domains[n].url))
            && LastValue(Assignments(i), "SERVICE_FQDN_" + suffix) == Some(i.escapes.value(i.domains[n].fqdn))
  {
    var suffix := ServiceSuffix(i.domains[n].service);
    hide GeneratedUrl;
    hide DomainLayer;
    hide ServiceSuffix;
    hide Assignments;
    UrlPrefixes(suffix);
    DomainValue(i.escapes, i.domains, n);
    OnlyDomainsCount(i, "SERVICE_URL_" + suffix);
    OnlyDomainsCount(i, "SERVICE_FQDN_" + suffix);
  }

  lemma OnlyDomainsCount(i: Inputs, key: string)
    requires i.buildPack.DockerCompose? && GeneratedUrl(key)
    requires LastValue(DomainLayer(i.escapes, i.domains), key).Some?
    ensures LastValue(Assignments(i), key) == LastValue(DomainLayer(i.escapes, i.domains), key)
  {
    hide GeneratedUrl;
    hide CoolifyLayer;
    hide ServiceLayer;
    hide DomainLayer;
    GeneratedUrlNotOverridden(i, key);
    var before := CoolifyLayer(i.escapes, i.coolify) + ServiceLayer(i.escapes, i.services, i.previewSuffix);
    assert Generated(i) == before + DomainLayer(i.escapes, i.domains);
    LastValueConcat(before, DomainLayer(i.escapes, i.domains), key);
  }

  lemma UrlPrefixes(suffix: string)
    ensures GeneratedUrl("SERVICE_URL_" + suffix) && GeneratedUrl("SERVICE_FQDN_" + suffix)
  {
  }

  lemma UrlNamesDiffer(a: string, b: string)
    ensures "SERVICE_URL_" + a != "SERVICE_FQDN_" + b
    ensures a != b ==> "SERVICE_URL_" + a != "SERVICE_URL_" + b && "SERVICE_FQDN_" + a != "SERVICE_FQDN_" + b
  {
    assert ("SERVICE_URL_" + a)[8] == 'U' && ("SERVICE_FQDN_" + b)[8] == 'F';
    if a != b {
      assert ("SERVICE_URL_" + a)[12..] == a && ("SERVICE_URL_" + b)[12..] == b;
      assert ("SERVICE_FQDN_" + a)[13..] == a && ("SERVICE_FQDN_" + b)[13..] == b;
    }
  }

  lemma {:induction false} DomainValue(esc: Escapes, domains: seq<Domain>, n: nat)
    requires n < |domains| && domains[n].filled
    requires forall m | n < m < |domains| ::
               domains[m].filled ==> ServiceSuffix(domains[m].service) != ServiceSuffix(domains[n].service)
    ensures var suffix := ServiceSuffix(domains[n].service);
            && LastValue(DomainLayer(esc, domains), "SERVICE_URL_" + suffix) == Some(esc.value(domains[n].url))
            && LastValue(DomainLayer(esc, domains), "SERVICE_FQDN_" + suffix) == Some(esc.value(domains[n].fqdn))
    decreases n
  {
    hide ServiceSuffix;
    var suffix := ServiceSuffix(domains[n].service);
    var url, fqdn := "SERVICE_URL_" + suffix, "SERVICE_FQDN_" + suffix;
    var rest := DomainLayer(esc, domains[1..]);
    if n > 0 {
      DomainValue(esc, domains[1..], n - 1);
      LastValueConcat(DomainPair(esc, domains[0]), rest, url);
      LastValueConcat(DomainPair(esc, domains[0]), rest, fqdn);
    } else {
      OtherDomains(esc, domains[1..], suffix);
      LastValueNone(rest, url);
      LastValueNone(rest, fqdn);
      var p, q := Pair(url, esc.value(domains[0].url)), Pair(fqdn, esc.value(domains[0].fqdn));
      LastValueConcat([p, q], rest, url);
      LastValueConcat([p, q], rest, fqdn);
      UrlNamesDiffer(suffix, suffix);
      assert [p, q][..1] == [p];
    }
  }

  lemma {:induction false} OtherDomains(esc: Escapes, domains: seq<Domain>, suffix: string)
    requires forall m | 0 <= m < |domains| :: domains[m].filled ==> ServiceSuffix(domains[m].service) != suffix
    ensures forall p | p in DomainLayer(esc, domains) ::
              p.key != "SERVICE_URL_" + suffix && p.key != "SERVICE_FQDN_" + suffix
  {
    hide ServiceSuffix;
    if domains != [] {
      OtherDomains(esc, domains[1..], suffix);
      var other := ServiceSuffix(domains[0].service);
      UrlNamesDiffer(suffix, other);
      UrlNamesDiffer(other, suffix);
    }
  }

  /** Apart from those names the user has the last word. */
  lemma UserOverrides(i: Inputs, key: string)
    requires LastValue(UserLayer(i.escapes, i.buildPack.DockerCompose?, i.user), key).Some?
    ensures LastValue(Assignments(i), key) == LastValue(UserLayer(i.escapes, i.buildPack.DockerCompose?, i.user), key)
  {
    LastValueConcat(Generated(i), UserLayer(i.escapes, i.buildPack.DockerCompose?, i.user), key);
  }

  /** The nixpacks plan has no say in COOLIFY and SERVICE variables. */
  lemma PlanDoesNotReserve(i: Inputs, plan': seq<Pair>, key: string)
    requires Reserved(key)
    ensures LastValue(Assignments(i), key) == LastValue(Assignments(i.(plan := plan')), key)
  {
    WithoutPlan(i, key);
    WithoutPlan(i.(plan := plan'), key);
  }

  lemma WithoutPlan(i: Inputs, key: string)
    requires Reserved(key)
    ensures LastValue(Assignments(i), key)
         == LastValue(CoolifyLayer(i.escapes, i.coolify) + ComposePart(i)
                      + UserLayer(i.escapes, i.buildPack.DockerCompose?, i.user), key)
  {
    hide CoolifyLayer;
    hide ComposePart;
    hide UserLayer;
    hide PlanLayer;
    var user := UserLayer(i.escapes, i.buildPack.DockerCompose?, i.user);
    var tail := CoolifyLayer(i.escapes, i.coolify) + ComposePart(i) + user;
    assert Assignments(i) == PlanPart(i) + tail;
    PlanLayerKeys(i.escapes, i.plan);
    LastValueNone(PlanPart(i), key);
    LastValueConcat(PlanPart(i), tail, key);
  }

  // ------------------------------------------------------------------ the values that are written

  lemma {:induction false} UserLast(esc: Escapes, isCompose: bool, user: seq<UserVar>, n: nat)
    requires n < |user| && !(isCompose && GeneratedUrl(user[n].key))
    requires forall m | n < m < |user| :: user[m].key != user[n].key
    ensures LastValue(UserLayer(esc, isCompose, user), user[n].key) == Some(UserValue(esc, user[n]))
    decreases n
  {
    hide UserValue;
    hide GeneratedUrl;
    var key, rest := user[n].key, UserLayer(esc, isCompose, user[1..]);
    LastValueConcat(UserPair(esc, isCompose, user[0]), rest, key);
    if n > 0 {
      UserLast(esc, isCompose, user[1..], n - 1);
    } else {
      NoSuchUser(esc, isCompose, user[1..], key);
      LastValueNone(rest, key);
    }
  }

  lemma {:induction false} NoSuchUser(esc: Escapes, isCompose: bool, user: seq<UserVar>, key: string)
    requires forall m | 0 <= m < |user| :: user[m].key != key
    ensures forall p | p in UserLayer(esc, isCompose, user) :: p.key != key
  {
    if user != [] {
      NoSuchUser(esc, isCompose, user[1..], key);
    }
  }

  /** The last user variable under a key that is not generated: quoted without the quotes at its ends, or as it is. */
  lemma UserValueWritten(i: Inputs, n: nat)
    requires n < |i.user| && !(i.buildPack.DockerCompose? && GeneratedUrl(i.user[n].key))
    requires forall m | n < m < |i.user| :: i.user[m].key != i.user[n].key
    ensures var v := i.user[n];
            LastValue(Assignments(i), v.key) ==
              Some(if v.quoted then i.escapes.value(Trim(Quote, v.realValue)) else i.escapes.doubleQuoted(v.realValue))
  {
    hide GeneratedUrl;
    UserLast(i.escapes, i.buildPack.DockerCompose?, i.user, n);
    UserOverrides(i, i.user[n].key);
  }

  lemma {:induction false} CoolifyLast(esc: Escapes, vars: seq<Pair>, n: nat)
    requires n < |vars| && forall m | n < m < |vars| :: vars[m].key != vars[n].key
    ensures LastValue(CoolifyLayer(esc, vars), vars[n].key) == Some(esc.value(vars[n].value))
    decreases n
  {
    var key, rest := vars[n].key, CoolifyLayer(esc, vars[1..]);
    LastValueConcat([Pair(vars[0].key, esc.value(vars[0].value))], rest, key);
    if n > 0 {
      CoolifyLast(esc, vars[1..], n - 1);
    } else {
      NoSuchCoolify(esc, vars[1..], key);
      LastValueNone(rest, key);
    }
  }

  lemma {:induction false} NoSuchCoolify(esc: Escapes, vars: seq<Pair>, key: string)
    requires forall m | 0 <= m < |vars| :: vars[m].key != key
    ensures forall p | p in CoolifyLayer(esc, vars) :: p.key != key
  {
    if vars != [] {
      NoSuchCoolify(esc, vars[1..], key);
    }
  }

  lemma {:induction false} ServiceNames(esc: Escapes, services: seq<string>, suffix: string)
    ensures forall p | p in ServiceLayer(esc, services, suffix) :: "SERVICE_" <= p.key
  {
    if services != [] {
      ServiceNames(esc, services[1..], suffix);
    }
  }

  lemma {:induction false} DomainNames(esc: Escapes, domains: seq<Domain>)
    ensures forall p | p in DomainLayer(esc, domains) :: "SERVICE_" <= p.key
  {
    if domains != [] {
      DomainNames(esc, domains[1..]);
    }
  }

  lemma ComposeNames(i: Inputs, key: string)
    requires !("SERVICE_" <= key)
    ensures LastValue(ComposePart(i), key).None?
  {
    hide ServiceLayer;
    hide DomainLayer;
    ServiceNames(i.escapes, i.services, i.previewSuffix);
    DomainNames(i.escapes, i.domains);
    LastValueNone(ComposePart(i), key);
  }

  /** A COOLIFY variable that no user variable overrides has its own value, quoted. */
  lemma CoolifyValueWritten(i: Inputs, n: nat)
    requires n < |i.coolify| && !("SERVICE_" <= i.coolify[n].key)
    requires forall m | n < m < |i.coolify| :: i.coolify[m].key != i.coolify[n].key
    requires forall m | 0 <= m < |i.user| :: i.user[m].key != i.coolify[n].key
    ensures LastValue(Assignments(i), i.coolify[n].key) == Some(i.escapes.value(i.coolify[n].value))
  {
    hide CoolifyLayer;
    hide ComposePart;
    hide PlanPart;
    hide UserLayer;
    var key := i.coolify[n].key;
    var isCompose := i.buildPack.DockerCompose?;
    CoolifyLast(i.escapes, i.coolify, n);
    ComposeNames(i, key);
    NoSuchUser(i.escapes, isCompose, i.user, key);
    LastValueNone(UserLayer(i.escapes, isCompose, i.user), key);
    LastValueConcat(PlanPart(i), CoolifyLayer(i.escapes, i.coolify), key);
    LastValueConcat(PlanPart(i) + CoolifyLayer(i.escapes, i.coolify), ComposePart(i), key);
    LastValueConcat(Generated(i), UserLayer(i.escapes, isCompose, i.user), key);
  }

  /** The name of a service in a variable: dashes and dots become underscores, letters upper case. */
  lemma {:induction false} ServiceSuffixAt(name: string, k: nat)
    requires k < |name|
    ensures var c := ServiceSuffix(name)[k];
            && (name[k] == '-' || name[k] == '.' ==> c == '_')
            && ('a' <= name[k] <= 'z' ==> c as int == name[k] as int - 32)
            && (name[k] != '-' && name[k] != '.' && !('a' <= name[k] <= 'z') ==> c == name[k])
  {
    if k > 0 {
      ServiceSuffixAt(name[1..], k - 1);
    }
  }

  lemma {:induction false} PlanLast(esc: Escapes, plan: seq<Pair>, n: nat)
    requires n < |plan| && !Reserved(plan[n].key)
    requires forall m | n < m < |plan| :: plan[m].key != plan[n].key
    ensures LastValue(PlanLayer(esc, plan), plan[n].key) == Some(esc.value(plan[n].value))
    decreases n
  {
    hide Reserved;
    var key, rest := plan[n].key, PlanLayer(esc, plan[1..]);
    LastValueConcat(PlanPair(esc, plan[0]), rest, key);
    if n > 0 {
      PlanLast(esc, plan[1..], n - 1);
    } else {
      NoSuchPlan(esc, plan[1..], key);
      LastValueNone(rest, key);
    }
  }

  lemma {:induction false} NoSuchPlan(esc: Escapes, plan: seq<Pair>, key: string)
    requires forall m | 0 <= m < |plan| :: plan[m].key != key
    ensures forall p | p in PlanLayer(esc, plan) :: p.key != key
  {
    if plan != [] {
      NoSuchPlan(esc, plan[1..], key);
    }
  }

  /** A variable of the nixpacks plan that nothing overrides has its own value, quoted. */
  lemma PlanValueWritten(i: Inputs, n: nat)
    requires i.buildPack.Nixpacks? && n < |i.plan|
    requires !("COOLIFY_" <= i.plan[n].key) && !("SERVICE_" <= i.plan[n].key)
    requires forall m | n < m < |i.plan| :: i.plan[m].key != i.plan[n].key
    requires forall m | 0 <= m < |i.coolify| :: i.coolify[m].key != i.plan[n].key
    requires forall m | 0 <= m < |i.user| :: i.user[m].key != i.plan[n].key
    ensures LastValue(Assignments(i), i.plan[n].key) == Some(i.escapes.value(i.plan[n].value))
  {
    hide CoolifyLayer;
    hide UserLayer;
    hide PlanLayer;
    var key := i.plan[n].key;
    PlanLast(i.escapes, i.plan, n);
    NoSuchCoolify(i.escapes, i.coolify, key);
    LastValueNone(CoolifyLayer(i.escapes, i.coolify), key);
    NoSuchUser(i.escapes, false, i.user, key);
    LastValueNone(UserLayer(i.escapes, false, i.user), key);
    LastValueConcat(PlanPart(i), CoolifyLayer(i.escapes, i.coolify), key);
    LastValueConcat(PlanPart(i) + CoolifyLayer(i.escapes, i.coolify), [], key);
    LastValueConcat(Generated(i), UserLayer(i.escapes, false, i.user), key);
  }

  lemma {:induction false} ServiceLast(esc: Escapes, services: seq<string>, suffix: string, n: nat)
    requires n < |services|
    requires forall m | n < m < |services| :: ServiceSuffix(services[m]) != ServiceSuffix(services[n])
    ensures LastValue(ServiceLayer(esc, services, suffix), "SERVICE_NAME_" + ServiceSuffix(services[n]))
         == Some(esc.value(services[n] + suffix))
    decreases n
  {
    hide ServiceSuffix;
    var key, rest := "SERVICE_NAME_" + ServiceSuffix(services[n]), ServiceLayer(esc, services[1..], suffix);
    LastValueConcat([ServicePair(esc, services[0], suffix)], rest, key);
    if n > 0 {
      ServiceLast(esc, services[1..], suffix, n - 1);
    } else {
      NoSuchService(esc, services[1..], suffix, ServiceSuffix(services[0]));
      LastValueNone(rest, key);
    }
  }

  lemma {:induction false} NoSuchService(esc: Escapes, services: seq<string>, suffix: string, name: string)
    requires forall m | 0 <= m < |services| :: ServiceSuffix(services[m]) != name
    ensures forall p | p in ServiceLayer(esc, services, suffix) :: p.key != "SERVICE_NAME_" + name
  {
    hide ServiceSuffix;
    if services != [] {
      NoSuchService(esc, services[1..], suffix, name);
      var other := ServiceSuffix(services[0]);
      assert ("SERVICE_NAME_" + other)[13..] == other && ("SERVICE_NAME_" + name)[13..] == name;
    }
  }

  lemma {:induction false} NoNameAmongDomains(esc: Escapes, domains: seq<Domain>, name: string)
    ensures forall p | p in DomainLayer(esc, domains) :: p.key != "SERVICE_NAME_" + name
  {
    hide ServiceSuffix;
    if domains != [] {
      NoNameAmongDomains(esc, domains[1..], name);
      var suffix := ServiceSuffix(domains[0].service);
      assert ("SERVICE_NAME_" + name)[8] == 'N' && ("SERVICE_URL_" + suffix)[8] == 'U';
      assert ("SERVICE_FQDN_" + suffix)[8] == 'F';
    }
  }

  /** In a compose build the name variable of a service, unless a user overrides it, holds the service's name. */
  lemma ServiceNameWritten(i: Inputs, n: nat)
    requires i.buildPack.DockerCompose? && n < |i.services|
    requires forall m | n < m < |i.services| :: ServiceSuffix(i.services[m]) != ServiceSuffix(i.services[n])
    requires forall m | 0 <= m < |i.user| :: i.user[m].key != "SERVICE_NAME_" + ServiceSuffix(i.services[n])
    ensures LastValue(Assignments(i), "SERVICE_NAME_" + ServiceSuffix(i.services[n]))
         == Some(i.escapes.value(i.services[n] + i.previewSuffix))
  {
    hide CoolifyLayer;
    hide ServiceLayer;
    hide DomainLayer;
    hide UserLayer;
    hide ServiceSuffix;
    var key := "SERVICE_NAME_" + ServiceSuffix(i.services[n]);
    var services, domains := ServiceLayer(i.escapes, i.services, i.previewSuffix), DomainLayer(i.escapes, i.domains);
    ServiceLast(i.escapes, i.services, i.previewSuffix, n);
    NoNameAmongDomains(i.escapes, i.domains, ServiceSuffix(i.services[n]));
    LastValueNone(domains, key);
    LastValueConcat(services, domains, key);
    NoSuchUser(i.escapes, true, i.user, key);
    LastValueNone(UserLayer(i.escapes, true, i.user), key);
    LastValueConcat(PlanPart(i) + CoolifyLayer(i.escapes, i.coolify), ComposePart(i), key);
    LastValueConcat(Generated(i), UserLayer(i.escapes, true, i.user), key);
  }
}
