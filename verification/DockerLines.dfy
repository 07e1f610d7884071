/**
 The Dockerfile lines as the deployment code recognises them: FROM, ARG and RUN lines, and the
 facts about them that the passes rest on.
 */
module DockerLines {
  import opened Text

  /** FROM lines as the compose pass finds them: upper case, any text after the word. */
  predicate ComposeFrom(line: string) {
    "FROM" <= Trim(StrBlank, line)
  }

  function Lower(c: char): char {
    if 'A' <= c <= 'Z' then c - 'A' + 'a' else c
  }

  /** FROM lines as the single-Dockerfile pass finds them: any case, with white space after the word. */
  predicate SingleFrom(line: string) {
    var t := Trim(PhpBlank, line);
    && |t| > 4
    && Lower(t[0]) == 'f' && Lower(t[1]) == 'r' && Lower(t[2]) == 'o' && Lower(t[3]) == 'm'
    && t[4] in " \t\n\r\U{0B}\U{0C}"
  }

  /** A line that continues a stage's leading run of ARG lines. */
  predicate IsArg(line: string) {
    line != "" && line != "0" && "ARG" <= Trim(StrBlank, line)
  }

  /** The key an ARG line declares: what stands between the first blank and the first equals sign. */
  function DeclaredKey(line: string): Option<string> {
    match AfterChar(Trim(PhpBlank, line), ' ')
    case None => None
    case Some(argPart) => Some(Before(argPart, '='))
  }

  /** The key an ARG line about to be added stands for. */
  function AddedKey(arg: string): string {
    Trim(StrBlank, After(arg, "ARG "))
  }

  predicate IsRun(line: string) {
    "RUN" <= TrimStart(PhpBlank, line)
  }

  function ArgLine(key: string): string {
    "ARG " + key
  }

  /** A key as it is stored for an environment variable: trimmed, and not empty. */
  predicate IsKey(key: string) {
    key != "" && !StrBlank(key[0]) && !StrBlank(key[|key| - 1])
  }

  /** Printable characters other than the space are stripped by neither trim. */
  predicate Visible(c: char) {
    '!' <= c <= '~'
  }

  lemma VisibleIsNotBlank(c: char)
    requires Visible(c)
    ensures !StrBlank(c) && !PhpBlank(c)
  {
  }

  /** Neither trim changes a string with solid ends. */
  lemma SolidEnds(s: string)
    requires s != "" ==> !StrBlank(s[0]) && !StrBlank(s[|s| - 1])
    ensures Trim(StrBlank, s) == s && Trim(PhpBlank, s) == s
  {
    hide Trim;
    TrimIdentity(StrBlank, s);
    TrimIdentity(PhpBlank, s);
  }

  /** A line that starts with a visible character loses nothing at its start. */
  lemma VisibleStart(s: string)
    requires s != "" && Visible(s[0])
    ensures TrimStart(PhpBlank, s) == s && TrimStart(StrBlank, s) == s
  {
    hide *;
    VisibleIsNotBlank(s[0]);
    TrimStartIdentity(PhpBlank, s);
    TrimStartIdentity(StrBlank, s);
  }

  lemma TrimStartIdentity(blank: char -> bool, s: string)
    requires s != "" && !blank(s[0])
    ensures TrimStart(blank, s) == s
  {
  }

  lemma ArgLineTrims(key: string)
    requires IsKey(key)
    ensures Trim(StrBlank, ArgLine(key)) == Trim(PhpBlank, ArgLine(key)) == ArgLine(key)
    ensures Trim(StrBlank, key) == key
  {
    hide Trim;
    var line := ArgLine(key);
    assert line[0] == 'A' && line[|line| - 1] == key[|key| - 1];
    VisibleIsNotBlank('A');
    hide StrBlank;
    SolidEnds(line);
    SolidEnds(key);
  }

  lemma ArgLineIsArg(line: string)
    requires Trim(StrBlank, line) == line && "ARG " <= line
    ensures !ComposeFrom(line) && IsArg(line)
  {
    hide StrBlank;
    hide Trim;
    assert line[0] == 'A';
    assert "ARG" == line[..3];
  }

  lemma ArgLineKeys(key: string)
    requires Trim(PhpBlank, ArgLine(key)) == ArgLine(key) && Trim(StrBlank, key) == key
    ensures DeclaredKey(ArgLine(key)) == Some(Before(key, '='))
    ensures AddedKey(ArgLine(key)) == key
  {
    hide StrBlank;
    hide PhpBlank;
    hide Trim;
    hide AfterChar;
    hide Before;
    var line := ArgLine(key);
    assert ' ' !in "ARG" && line == "ARG" + [' '] + key;
    SplitAtFirst("ARG", ' ', key);
    assert "ARG " <= line && line[4..] == key;
  }

  lemma ArgLineStart(key: string)
    ensures "ARG " <= ArgLine(key)
  {
  }

  /**
   The added line of a key is an ARG line to both ARG passes. It reads back as what precedes the
   key's first equals sign, so as the key itself exactly if it has none.
   */
  lemma ArgLineReadsBack(key: string)
    requires IsKey(key)
    ensures !ComposeFrom(ArgLine(key)) && !SingleFrom(ArgLine(key)) && !IsRun(ArgLine(key))
    ensures IsArg(ArgLine(key))
    ensures AddedKey(ArgLine(key)) == key
    ensures DeclaredKey(ArgLine(key)) == Some(Before(key, '='))
    ensures DeclaredKey(ArgLine(key)) == Some(key) <==> '=' !in key
  {
    hide *;
    ArgLineStart(key);
    ArgLineTrims(key);
    ArgLineIsArg(ArgLine(key));
    ArgPrefix(ArgLine(key));
    ArgLineKeys(key);
    BeforeItself(key, '=');
  }

  lemma BeforeItself(s: string, c: char)
    ensures Before(s, c) == s <==> c !in s
  {
  }

  /** A declared key has no equals sign. */
  lemma DeclaredHasNoEquals(line: string)
    requires DeclaredKey(line).Some?
    ensures '=' !in DeclaredKey(line).value
  {
  }

  /** To both trims the line starts with c, or is nothing. */
  predicate StartsWith(line: string, c: char) {
    && (Trim(StrBlank, line) == "" || Trim(StrBlank, line)[0] == c)
    && (Trim(PhpBlank, line) == "" || Trim(PhpBlank, line)[0] == c)
  }

  /** A line whose first visible character is found by the narrower trim starts with it to both. */
  lemma FirstVisible(line: string, t: string)
    requires t == TrimStart(PhpBlank, line) && t != "" && Visible(t[0])
    ensures StartsWith(line, t[0])
  {
    hide StrBlank;
    hide PhpBlank;
    hide Visible;
    hide TrimStart;
    hide TrimEnd;
    PhpThenStr(line);
    VisibleStart(t);
    StartsAlike(StrBlank, t);
    StartsAlike(PhpBlank, t);
  }

  /** What is left after trimming the end starts with the same character. */
  lemma StartsAlike(blank: char -> bool, s: string)
    requires s != ""
    ensures TrimEnd(blank, s) == "" || TrimEnd(blank, s)[0] == s[0]
  {
  }

  /** The first character decides what a line cannot be. */
  lemma NoOtherKind(line: string, c: char)
    requires StartsWith(line, c)
    ensures Lower(c) != 'f' ==> !ComposeFrom(line) && !SingleFrom(line)
    ensures c != 'A' ==> !IsArg(line)
  {
    hide StrBlank;
    hide PhpBlank;
    hide Trim;
  }

  /** A line that starts with ARG and a blank is no FROM and no RUN line, whatever follows. */
  lemma ArgPrefix(line: string)
    requires "ARG " <= line
    ensures !ComposeFrom(line) && !SingleFrom(line) && !IsRun(line)
  {
    hide StrBlank;
    hide PhpBlank;
    hide TrimStart;
    hide ComposeFrom;
    hide SingleFrom;
    hide StartsWith;
    assert line[0] == 'A';
    VisibleStart(line);
    FirstVisible(line, line);
    NoOtherKind(line, 'A');
  }

  /** A line the secrets pass takes for a RUN line is no FROM line and no ARG line to the other passes. */
  lemma RunIsNeither(line: string)
    requires IsRun(line)
    ensures !ComposeFrom(line) && !SingleFrom(line) && !IsArg(line)
  {
    hide StrBlank;
    hide PhpBlank;
    hide TrimStart;
    hide ComposeFrom;
    hide SingleFrom;
    hide IsArg;
    hide StartsWith;
    var t := TrimStart(PhpBlank, line);
    assert t[0] == 'R';
    FirstVisible(line, t);
    NoOtherKind(line, 'R');
  }

  lemma PhpThenStr(line: string)
    ensures TrimStart(StrBlank, line) == TrimStart(StrBlank, TrimStart(PhpBlank, line))
  {
    hide TrimStart;
    TrimStartWider(PhpBlank, StrBlank, line);
  }

  lemma RunPrefix(line: string)
    requires "RUN" <= line
    ensures IsRun(line)
  {
  }
}
