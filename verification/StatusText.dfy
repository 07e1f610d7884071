/**
 What the status texts say: the text of one container in terms of its state and health, and the verdict
 on a group of containers in terms of theirs. Docker's states and health texts are told apart by the
 words the job looks for.
 */
module StatusText {
  import opened Text
  import opened ContainerStatus
  import opened PushSpec

  // ------------------------------------------------------------------ which words a text holds

  /** A text that holds a word holds its letters. */
  lemma WordLetters(s: string)
    ensures Contains(s, "degraded") ==> 'g' in s && 'd' in s
    ensures Contains(s, "restarting") ==> 't' in s && 'g' in s && 'e' in s
    ensures Contains(s, "running") ==> 'u' in s && 'g' in s
    ensures Contains(s, "exited") ==> 'x' in s
    ensures Contains(s, "created") ==> 'c' in s
    ensures Contains(s, "starting") ==> 't' in s && 'g' in s
    ensures Contains(s, "paused") ==> 'p' in s
    ensures Contains(s, "dead") ==> 'd' in s && 'a' in s
    ensures Contains(s, "removing") ==> 'm' in s
    ensures Contains(s, "unhealthy") ==> 'h' in s && 'u' in s
    ensures Contains(s, "unknown") ==> 'k' in s
  {
    hide Contains;
    Letters(s, "degraded");
    Letters(s, "restarting");
    Letters(s, "running");
    Letters(s, "exited");
    Letters(s, "created");
    Letters(s, "starting");
    Letters(s, "paused");
    Letters(s, "dead");
    Letters(s, "removing");
    Letters(s, "unhealthy");
    Letters(s, "unknown");
  }

  lemma Letters(s: string, word: string)
    ensures Contains(s, word) ==> forall c | c in word :: c in s
  {
    hide Contains;
    if Contains(s, word) {
      forall c | c in word
        ensures c in s
      {
        ContainsLetter(s, word, c);
      }
    }
  }

  /** A word of more than one letter is not there if its first letter is at most at the end. */
  lemma {:induction false} StartsTooLate(init: string, last: char, word: string)
    requires |word| > 1 && word[0] !in init
    ensures !Contains(init + [last], word)
  {
    var s := init + [last];
    if init == "" {
      assert s[1..] == "";
    } else {
      assert s[1..] == init[1..] + [last];
      StartsTooLate(init[1..], last, word);
    }
  }

  lemma ContainsItself(s: string)
    ensures Contains(s, s)
  {
  }

  /** Of the words the job looks for, the text holds at most itself. */
  predicate OnlyItself(s: string) {
    && !Contains(s, "degraded")
    && (Contains(s, "restarting") <==> s == "restarting")
    && (Contains(s, "running") <==> s == "running")
    && (Contains(s, "exited") <==> s == "exited")
    && (Contains(s, "created") <==> s == "created")
    && (Contains(s, "starting") <==> s == "starting" || s == "restarting")
    && (Contains(s, "paused") <==> s == "paused")
    && (Contains(s, "dead") <==> s == "dead")
    && (Contains(s, "removing") <==> s == "removing")
    && (Contains(s, "unhealthy") <==> s == "unhealthy")
    && (Contains(s, "unknown") <==> s == "unknown")
  }

  predicate DockerState(s: string) {
    || s == "running" || s == "restarting" || s == "exited" || s == "created"
    || s == "starting" || s == "paused" || s == "dead" || s == "removing"
  }

  predicate DockerHealth(s: string) {
    s == "healthy" || s == "unhealthy" || s == "unknown" || s == "starting"
  }

  lemma RunningWord(s: string)
    requires s == "running"
    ensures OnlyItself(s)
  {
    hide Contains;
    WordLetters(s);
    ContainsItself(s);
  }

  lemma ExitedWord(s: string)
    requires s == "exited"
    ensures OnlyItself(s)
  {
    hide Contains;
    WordLetters(s);
    ContainsItself(s);
  }

  lemma DeadWord(s: string)
    requires s == "dead"
    ensures OnlyItself(s)
  {
    hide Contains;
    WordLetters(s);
    ContainsItself(s);
  }

  lemma RemovingWord(s: string)
    requires s == "removing"
    ensures OnlyItself(s)
  {
    hide Contains;
    WordLetters(s);
    ContainsItself(s);
  }

  lemma StartingWord(s: string)
    requires s == "starting"
    ensures OnlyItself(s)
  {
    hide Contains;
    WordLetters(s);
    ContainsItself(s);
  }

  lemma HealthyWord(s: string)
    requires s == "healthy"
    ensures OnlyItself(s)
  {
    hide Contains;
    WordLetters(s);
    ContainsItself(s);
  }

  lemma UnhealthyWord(s: string)
    requires s == "unhealthy"
    ensures OnlyItself(s)
  {
    hide Contains;
    WordLetters(s);
    ContainsItself(s);
  }

  lemma UnknownWord(s: string)
    requires s == "unknown"
    ensures OnlyItself(s)
  {
    hide Contains;
    WordLetters(s);
    ContainsItself(s);
  }

  lemma CreatedWord(s: string)
    requires s == "created"
    ensures OnlyItself(s)
  {
    hide Contains;
    WordLetters(s);
    ContainsItself(s);
    StartsTooLate("create", 'd', "dead");
    assert s == "create" + ['d'];
  }

  lemma PausedWord(s: string)
    requires s == "paused"
    ensures OnlyItself(s)
  {
    hide Contains;
    WordLetters(s);
    ContainsItself(s);
    StartsTooLate("pause", 'd', "dead");
    assert s == "pause" + ['d'];
  }

  lemma RestartingWord(s: string)
    requires s == "restarting"
    ensures OnlyItself(s)
  {
    hide Contains;
    WordLetters(s);
    ContainsItself(s);
    StartingInside(s);
  }

  lemma StartingInside(s: string)
    requires s == "restarting"
    ensures Contains(s, "starting")
  {
    hide Contains;
    ContainsInside("re", "starting", "");
    assert "re" + "starting" + "" == s;
  }

  lemma DockerWord(s: string)
    requires DockerState(s) || DockerHealth(s)
    ensures OnlyItself(s)
  {
    hide OnlyItself;
    match s {
      case "running" => RunningWord(s);
      case "exited" => ExitedWord(s);
      case "dead" => DeadWord(s);
      case "removing" => RemovingWord(s);
      case "starting" => StartingWord(s);
      case "healthy" => HealthyWord(s);
      case "unhealthy" => UnhealthyWord(s);
      case "unknown" => UnknownWord(s);
      case "created" => CreatedWord(s);
      case "paused" => PausedWord(s);
      case "restarting" => RestartingWord(s);
      case _ =>
    }
  }

  // ------------------------------------------------------------------ what one text says

  predicate Stopping(state: string) {
    state == "paused" || state == "dead" || state == "removing"
  }

  /** The flags a state and a health put up. The health "starting" of a container that stops counts as a state. */
  function FlagsOfPair(state: string, health: string): Flags {
    Flags(
      state == "running",
      state == "restarting",
      state == "running" && health == "unhealthy",
      state == "running" && health == "unknown",
      state == "exited",
      state == "created" || state == "starting" || (Stopping(state) && health == "starting"),
      state == "paused" && health != "starting",
      (state == "dead" || state == "removing") && health != "starting",
      false)
  }

  lemma WordAround(state: string, health: string, word: string)
    requires DockerState(state) && ':' !in word
    ensures Contains(state + ":" + health, word) <==> Contains(state, word) || Contains(health, word)
  {
    ContainsAround(state, health, word);
  }

  /** Of these two, what the job looks for is in their pair exactly if one of them is that word. */
  lemma PairWords(state: string, health: string)
    requires DockerState(state) && DockerHealth(health)
    ensures var s := state + ":" + health;
            && !Contains(s, "degraded")
            && (Contains(s, "restarting") <==> state == "restarting")
            && (Contains(s, "running") <==> state == "running")
            && (Contains(s, "exited") <==> state == "exited")
            && (Contains(s, "created") <==> state == "created")
            && (Contains(s, "starting") <==> state == "starting" || state == "restarting" || health == "starting")
            && (Contains(s, "paused") <==> state == "paused")
            && (Contains(s, "dead") <==> state == "dead")
            && (Contains(s, "removing") <==> state == "removing")
            && (Contains(s, "unhealthy") <==> health == "unhealthy")
            && (Contains(s, "unknown") <==> health == "unknown")
  {
    hide Contains;
    DockerWord(state);
    DockerWord(health);
    WordAround(state, health, "degraded");
    WordAround(state, health, "restarting");
    WordAround(state, health, "running");
    WordAround(state, health, "exited");
    WordAround(state, health, "created");
    WordAround(state, health, "starting");
    WordAround(state, health, "paused");
    WordAround(state, health, "dead");
    WordAround(state, health, "removing");
    WordAround(state, health, "unhealthy");
    WordAround(state, health, "unknown");
  }

  lemma PairFlags(state: string, health: string)
    requires DockerState(state) && DockerHealth(health)
    ensures FlagsOf(state + ":" + health) == FlagsOfPair(state, health)
  {
    hide Contains;
    PairWords(state, health);
  }

  lemma ExitedFlags()
    ensures FlagsOf("exited") == FlagsOfPair("exited", "unknown")
  {
    var s := "exited";
    DockerWord(s);
    hide Contains;
  }

  // ------------------------------------------------------------------ one container

  /** A container as Docker reports it. */
  predicate FromDocker(c: Container) {
    && (c.state.Some? ==> DockerState(c.state.value))
    && (c.health.Some? ==> DockerHealth(c.health.value))
  }

  predicate Down(c: Container) {
    c.state == None || c.state == Some("exited")
  }

  predicate Up(c: Container) {
    c.state == Some("running")
  }

  predicate UpUnhealthy(c: Container) {
    c.state == Some("running") && c.health == Some("unhealthy")
  }

  /** Running, and nothing is known of its health. */
  predicate UpUnknown(c: Container) {
    c.state == Some("running") && (c.health == None || c.health == Some("unknown"))
  }

  predicate Restarting(c: Container) {
    c.state == Some("restarting")
  }

  predicate Coming(c: Container) {
    || c.state == Some("created") || c.state == Some("starting")
    || (c.state.Some? && Stopping(c.state.value) && c.health == Some("starting"))
  }

  predicate Held(c: Container) {
    c.state == Some("paused") && c.health != Some("starting")
  }

  predicate Lost(c: Container) {
    (c.state == Some("dead") || c.state == Some("removing")) && c.health != Some("starting")
  }

  /** The text of a container: its state, and its health if it has not exited. */
  lemma TextOf(c: Container)
    ensures Down(c) ==> StatusOf(c) == "exited"
    ensures !Down(c) && c.health.Some? ==> StatusOf(c) == c.state.value + ":" + c.health.value
    ensures !Down(c) && c.health.None? ==> StatusOf(c) == c.state.value + ":unknown"
  {
  }

  lemma ContainerFlags(c: Container)
    requires FromDocker(c)
    ensures FlagsOf(StatusOf(c))
         == Flags(Up(c), Restarting(c), UpUnhealthy(c), UpUnknown(c), Down(c), Coming(c), Held(c), Lost(c), false)
  {
    hide FlagsOf;
    hide StatusOf;
    TextOf(c);
    if Down(c) {
      ExitedFlags();
    } else {
      PairFlags(c.state.value, match c.health case Some(h) => h case None => "unknown");
      assert c.state.value + ":unknown" == c.state.value + ":" + "unknown";
    }
  }

  /** Which containers run and which are tracked. */
  lemma TrackedText(c: Container)
    requires FromDocker(c)
    ensures IsRunning(StatusOf(c)) <==> Up(c)
    ensures IsActiveOrTransient(StatusOf(c)) <==> !Down(c) && !Lost(c)
  {
    hide StatusOf;
    hide Contains;
    TextOf(c);
    if Down(c) {
      DockerWord("exited");
    } else {
      PairWords(c.state.value, match c.health case Some(h) => h case None => "unknown");
      assert c.state.value + ":unknown" == c.state.value + ":" + "unknown";
    }
  }

  // ------------------------------------------------------------------ a group of containers

  ghost predicate Has(cs: set<Container>, test: Container -> bool) {
    exists c | c in cs :: test(c)
  }

  predicate AllFromDocker(cs: set<Container>) {
    forall c | c in cs :: FromDocker(c)
  }

  ghost function Texts(cs: set<Container>): set<string> {
    set c | c in cs :: StatusOf(c)
  }

  lemma GroupFlags(cs: set<Container>)
    requires AllFromDocker(cs)
    ensures FlagsOfAll(Texts(cs))
         == Flags(Has(cs, Up), Has(cs, Restarting), Has(cs, UpUnhealthy), Has(cs, UpUnknown), Has(cs, Down),
                  Has(cs, Coming), Has(cs, Held), Has(cs, Lost), false)
  {
    hide FlagsOf;
    hide StatusOf;
    hide Up;
    hide Restarting;
    hide UpUnhealthy;
    hide UpUnknown;
    hide Down;
    hide Coming;
    hide Held;
    hide Lost;
    hide FromDocker;
    forall c | c in cs
      ensures StatusOf(c) in Texts(cs)
      ensures FlagsOf(StatusOf(c))
           == Flags(Up(c), Restarting(c), UpUnhealthy(c), UpUnknown(c), Down(c), Coming(c), Held(c), Lost(c), false)
    {
      ContainerFlags(c);
    }
    forall s | s in Texts(cs)
      ensures exists c | c in cs :: StatusOf(c) == s
    {
    }
  }

  /** The verdict on a group: the first line that applies. */
  ghost function Verdict(cs: set<Container>): string {
    if Has(cs, Restarting) then "restarting:unknown"
    else if Has(cs, Up) && Has(cs, Down) then "degraded:unhealthy"
    else if Has(cs, Up) && Has(cs, Coming) then "starting:unknown"
    else if Has(cs, UpUnhealthy) then "running:unhealthy"
    else if Has(cs, UpUnknown) then "running:unknown"
    else if Has(cs, Up) then "running:healthy"
    else if Has(cs, Lost) then "degraded:unhealthy"
    else if Has(cs, Held) then "paused:unknown"
    else if Has(cs, Coming) then "starting:unknown"
    else "exited"
  }

  /** The verdict on a group that is excluded from health checks as a whole. */
  ghost function ExcludedVerdict(cs: set<Container>): string {
    if Has(cs, Restarting) then "degraded:excluded"
    else if Has(cs, Up) && Has(cs, Down) then "degraded:excluded"
    else if Has(cs, Up) && Has(cs, Coming) then "starting:excluded"
    else if Has(cs, UpUnhealthy) then "running:unhealthy" + ":excluded"
    else if Has(cs, UpUnknown) then "running:unknown" + ":excluded"
    else if Has(cs, Up) then "running:healthy" + ":excluded"
    else if Has(cs, Lost) then "degraded:excluded"
    else if Has(cs, Held) then "paused:excluded"
    else if Has(cs, Coming) then "starting:excluded"
    else "exited"
  }

  lemma HasUp(cs: set<Container>)
    ensures Has(cs, UpUnhealthy) || Has(cs, UpUnknown) ==> Has(cs, Up)
  {
  }

  lemma AggregateIsVerdict(cs: set<Container>)
    requires AllFromDocker(cs) && cs != {}
    ensures Aggregate(Texts(cs), 0, true) == Verdict(cs)
  {
    hide FlagsOfAll;
    hide Has;
    hide StatusOf;
    GroupFlags(cs);
    HasUp(cs);
    var c :| c in cs;
    assert StatusOf(c) in Texts(cs);
  }

  /** Where restarts are counted, an exited container that was restarted makes the group degraded. */
  lemma CrashLoop(cs: set<Container>, restarts: int, preserveRestarting: bool)
    requires AllFromDocker(cs) && Has(cs, Down) && !Has(cs, Restarting)
    ensures restarts > 0 ==> Aggregate(Texts(cs), restarts, preserveRestarting) == "degraded:unhealthy"
    ensures restarts <= 0 ==> Aggregate(Texts(cs), restarts, preserveRestarting) == Aggregate(Texts(cs), 0, true)
  {
    hide FlagsOfAll;
    hide StatusOf;
    GroupFlags(cs);
    var c :| c in cs && Down(c);
    assert StatusOf(c) in Texts(cs);
  }

  lemma OtherStart(s: string, word: string)
    requires s != "" && word != "" && s[0] != word[0]
    ensures !(word <= s)
  {
  }

  /** The excluded form keeps a state's first word; of a running group it keeps everything. */
  lemma SuffixByWord(rest: string)
    ensures AppendExcludedSuffix("degraded" + rest) == "degraded:excluded"
    ensures AppendExcludedSuffix("starting" + rest) == "starting:excluded"
    ensures AppendExcludedSuffix("paused" + rest) == "paused:excluded"
    ensures AppendExcludedSuffix("exited" + rest) == "exited"
    ensures AppendExcludedSuffix("running" + rest) == "running" + rest + ":excluded"
  {
    OtherStart("starting" + rest, "degraded");
    OtherStart("starting" + rest, "paused");
    OtherStart("paused" + rest, "degraded");
    OtherStart("exited" + rest, "degraded");
    OtherStart("exited" + rest, "paused");
    OtherStart("exited" + rest, "starting");
    OtherStart("running" + rest, "degraded");
    OtherStart("running" + rest, "paused");
    OtherStart("running" + rest, "starting");
    OtherStart("running" + rest, "exited");
  }

  lemma StateSuffixes()
    ensures AppendExcludedSuffix("degraded:unhealthy") == "degraded:excluded"
    ensures AppendExcludedSuffix("starting:unknown") == "starting:excluded"
    ensures AppendExcludedSuffix("paused:unknown") == "paused:excluded"
    ensures AppendExcludedSuffix("exited") == "exited"
  {
    hide AppendExcludedSuffix;
    SuffixByWord("");
    SuffixByWord(":unhealthy");
    SuffixByWord(":unknown");
    assert "exited" + "" == "exited";
    assert "degraded" + ":unhealthy" == "degraded:unhealthy";
    assert "starting" + ":unknown" == "starting:unknown";
    assert "paused" + ":unknown" == "paused:unknown";
  }

  lemma RunningSuffix(health: string, status: string)
    requires status == "running" + health
    ensures AppendExcludedSuffix(status) == status + ":excluded"
  {
    hide AppendExcludedSuffix;
    SuffixByWord(health);
  }

  lemma RunningSuffixes()
    ensures AppendExcludedSuffix("running:unhealthy") == "running:unhealthy" + ":excluded"
    ensures AppendExcludedSuffix("running:unknown") == "running:unknown" + ":excluded"
    ensures AppendExcludedSuffix("running:healthy") == "running:healthy" + ":excluded"
  {
    hide AppendExcludedSuffix;
    RunningSuffix(":unhealthy", "running:unhealthy");
    RunningSuffix(":unknown", "running:unknown");
    RunningSuffix(":healthy", "running:healthy");
  }

  lemma ExcludedIsVerdict(cs: set<Container>)
    requires AllFromDocker(cs)
    ensures AppendExcludedSuffix(Aggregate(Texts(cs), 0, false)) == ExcludedVerdict(cs)
  {
    hide FlagsOfAll;
    hide StatusOf;
    hide AppendExcludedSuffix;
    GroupFlags(cs);
    HasUp(cs);
    StateSuffixes();
    RunningSuffixes();
    if cs != {} {
      hide Has;
      var c :| c in cs;
      assert StatusOf(c) in Texts(cs);
    }
  }
}
