/**
 How values are quoted for the build-time file, and how the shell that sources the file reads them: a word
 of quoted and unquoted pieces up to the end of the line, of which nothing may be left to expansion.
 */
module ShellEscape {
  import opened Text

  /** Every occurrence of a character is replaced. */
  function Replace(s: string, c: char, sub: string): string {
    if s == "" then "" else (if s[0] == c then sub else [s[0]]) + Replace(s[1..], c, sub)
  }

  /** Single quotes around the value; a quote in it ends them, stands by itself, and starts them again. */
  function EscapeBashEnvValue(value: string): string {
    if value == "" then "''" else "'" + Replace(value, '\'', "'\\''") + "'"
  }

  /** Double quotes around the value, with a backslash before what they would not keep. */
  function EscapeBashDoubleQuoted(value: string): string {
    if value == "" then "\"\""
    else
      var noSlash := Replace(value, '\\', "\\\\");
      var noQuote := Replace(noSlash, '"', "\\\"");
      var noTick := Replace(noQuote, '`', "\\`");
      "\"" + Replace(noTick, '$', "\\$") + "\""
  }

  // ------------------------------------------------------------------ the shell

  /** A word that was read, and what follows it: nothing, or a line end and the lines after it. */
  datatype Word = Word(value: string, rest: string)

  function Put(c: char, r: Option<Word>): Option<Word> {
    match r
    case None => None
    case Some(w) => Some(Word([c] + w.value, w.rest))
  }

  /** Characters that mean something to the shell outside quotes. */
  predicate Special(c: char) {
    c in " \t;&|<>()$`*?[]#~!{}"
  }

  /** Characters that a backslash protects inside double quotes. */
  predicate Protectable(c: char) {
    c == '$' || c == '`' || c == '"' || c == '\\'
  }

  /** Outside quotes. A special character ends the reading: the value would not be what is written. */
  function Unquoted(s: string): (r: Option<Word>)
    ensures r.Some? ==> |r.value.rest| <= |s| && (r.value.rest == "" || r.value.rest[0] == '\n')
    decreases |s|
  {
    if s == "" || s[0] == '\n' then Some(Word("", s))
    else if s[0] == '\'' then SingleQuoted(s[1..])
    else if s[0] == '"' then DoubleQuoted(s[1..])
    else if s[0] == '\\' then
      if |s| == 1 then None
      else if s[1] == '\n' then Unquoted(s[2..])
      else Put(s[1], Unquoted(s[2..]))
    else if Special(s[0]) then None
    else Put(s[0], Unquoted(s[1..]))
  }

  /** Inside single quotes everything is kept, up to the next one. */
  function SingleQuoted(s: string): (r: Option<Word>)
    ensures r.Some? ==> |r.value.rest| <= |s| && (r.value.rest == "" || r.value.rest[0] == '\n')
    decreases |s|
  {
    if s == "" then None
    else if s[0] == '\'' then Unquoted(s[1..])
    else Put(s[0], SingleQuoted(s[1..]))
  }

  /** Inside double quotes a dollar sign or a backquote starts an expansion, unless it is protected. */
  function DoubleQuoted(s: string): (r: Option<Word>)
    ensures r.Some? ==> |r.value.rest| <= |s| && (r.value.rest == "" || r.value.rest[0] == '\n')
    decreases |s|
  {
    if s == "" || s[0] == '$' || s[0] == '`' then None
    else if s[0] == '"' then Unquoted(s[1..])
    else if s[0] == '\\' && |s| > 1 && Protectable(s[1]) then Put(s[1], DoubleQuoted(s[2..]))
    else if s[0] == '\\' && |s| > 1 && s[1] == '\n' then DoubleQuoted(s[2..])
    else Put(s[0], DoubleQuoted(s[1..]))
  }

  /** The text reads as this value whatever line follows. */
  ghost predicate ReadsAs(text: string, value: string) {
    forall rest | rest == "" || rest[0] == '\n' :: Unquoted(text + rest) == Some(Word(value, rest))
  }

  // ------------------------------------------------------------------ reading what was quoted

  lemma {:induction false} SingleKeeps(value: string, rest: string)
    requires rest == "" || rest[0] == '\n'
    ensures SingleQuoted(Replace(value, '\'', "'\\''") + "'" + rest) == Some(Word(value, rest))
  {
    hide Unquoted;
    if value == "" {
      QuoteCloses(rest);
      EndsHere(rest);
      assert "" + "'" + rest == "'" + rest;
    } else {
      var c, tail := value[0], Replace(value[1..], '\'', "'\\''") + "'" + rest;
      SingleKeeps(value[1..], rest);
      hide SingleQuoted;
      SingleCharKept(c, tail);
      var head := if c == '\'' then "'\\''" else [c];
      assert Replace(value, '\'', "'\\''") + "'" + rest == head + tail && value == [c] + value[1..];
    }
  }

  lemma EndsHere(rest: string)
    requires rest == "" || rest[0] == '\n'
    ensures Unquoted(rest) == Some(Word("", rest))
  {
  }

  lemma SingleCharKept(c: char, tail: string)
    ensures SingleQuoted((if c == '\'' then "'\\''" else [c]) + tail) == Put(c, SingleQuoted(tail))
  {
    hide Unquoted;
    if c == '\'' {
      QuoteBetween(tail);
    } else {
      assert ([c] + tail)[1..] == tail;
    }
  }

  /** A quote that stands by itself between two quoted pieces. */
  lemma QuoteBetween(tail: string)
    ensures SingleQuoted("'\\''" + tail) == Put('\'', SingleQuoted(tail))
  {
    QuoteOpens(tail);
    SlashKeeps('\'', "'" + tail);
    QuoteCloses("\\'" + ("'" + tail));
    hide SingleQuoted;
    hide Unquoted;
    assert "'\\''" + tail == "'" + ("\\'" + ("'" + tail)) && "\\'" == ['\\', '\''];
  }

  lemma QuoteOpens(tail: string)
    ensures Unquoted("'" + tail) == SingleQuoted(tail)
  {
    assert ("'" + tail)[1..] == tail;
  }

  lemma QuoteCloses(tail: string)
    ensures SingleQuoted("'" + tail) == Unquoted(tail)
  {
    assert ("'" + tail)[1..] == tail;
  }

  lemma SlashKeeps(c: char, tail: string)
    requires c != '\n'
    ensures Unquoted(['\\', c] + tail) == Put(c, Unquoted(tail))
  {
    assert (['\\', c] + tail)[2..] == tail;
  }

  lemma SingleText(value: string)
    ensures EscapeBashEnvValue(value) == "'" + Replace(value, '\'', "'\\''") + "'"
  {
  }

  /** The text of a single-quoted value reads as the value, for all values. */
  lemma SingleReadsAs(value: string)
    ensures ReadsAs(EscapeBashEnvValue(value), value)
  {
    hide *;
    forall rest | rest == "" || rest[0] == '\n'
      ensures Unquoted(EscapeBashEnvValue(value) + rest) == Some(Word(value, rest))
    {
      var inner := Replace(value, '\'', "'\\''") + "'" + rest;
      SingleKeeps(value, rest);
      SingleText(value);
      QuoteOpens(inner);
      assert EscapeBashEnvValue(value) + rest == "'" + inner;
    }
    SoReadsAs(EscapeBashEnvValue(value), value);
  }

  lemma SoReadsAs(text: string, value: string)
    requires forall rest | rest == "" || rest[0] == '\n' :: Unquoted(text + rest) == Some(Word(value, rest))
    ensures ReadsAs(text, value)
  {
    hide Unquoted;
  }

  lemma {:induction false} ReplaceConcat(a: string, b: string, c: char, sub: string)
    ensures Replace(a + b, c, sub) == Replace(a, c, sub) + Replace(b, c, sub)
  {
    if a == "" {
      assert a + b == b;
    } else {
      assert (a + b)[1..] == a[1..] + b;
      ReplaceConcat(a[1..], b, c, sub);
    }
  }

  function Protected(value: string): string {
    Replace(Replace(Replace(Replace(value, '\\', "\\\\"), '"', "\\\""), '`', "\\`"), '$', "\\$")
  }

  function ProtectedChar(c: char): string {
    if Protectable(c) then ['\\', c] else [c]
  }

  /** The four replacements together put a backslash before each of the four characters, once. */
  lemma {:induction false} ProtectedByChar(value: string)
    ensures value != "" ==> Protected(value) == ProtectedChar(value[0]) + Protected(value[1..])
  {
    if value != "" {
      var head, tail := [value[0]], value[1..];
      assert value == head + tail;
      var h1, t1 := Replace(head, '\\', "\\\\"), Replace(tail, '\\', "\\\\");
      ReplaceConcat(head, tail, '\\', "\\\\");
      var h2, t2 := Replace(h1, '"', "\\\""), Replace(t1, '"', "\\\"");
      ReplaceConcat(h1, t1, '"', "\\\"");
      var h3, t3 := Replace(h2, '`', "\\`"), Replace(t2, '`', "\\`");
      ReplaceConcat(h2, t2, '`', "\\`");
      ReplaceConcat(h3, t3, '$', "\\$");
      OneProtected(value[0]);
    }
  }

  lemma OneProtected(c: char)
    ensures Protected([c]) == ProtectedChar(c)
  {
    OneReplaced(c);
    if c == '\\' {
      TwoReplaced('\\', '\\');
    } else if c == '"' {
      TwoReplaced('\\', '"');
    } else if c == '`' {
      TwoReplaced('\\', '`');
    }
  }

  lemma OneReplaced(c: char)
    ensures forall d, sub :: Replace([c], d, sub) == if c == d then sub else [c]
  {
  }

  lemma TwoReplaced(a: char, b: char)
    ensures forall d, sub | d != a && d != b :: Replace([a, b], d, sub) == [a, b]
  {
    assert [a, b][1..] == [b];
    forall d, sub | d != a && d != b
      ensures Replace([a, b], d, sub) == [a, b]
    {
      assert Replace([a, b], d, sub) == [a] + Replace([b], d, sub);
      OneReplaced(b);
    }
  }

  lemma {:induction false} DoubleKeeps(value: string, rest: string)
    requires rest == "" || rest[0] == '\n'
    ensures DoubleQuoted(Protected(value) + "\"" + rest) == Some(Word(value, rest))
  {
    hide Protected;
    var s := Protected(value) + "\"" + rest;
    if value == "" {
      NothingProtected();
      assert s[1..] == rest;
    } else {
      var tail := Protected(value[1..]) + "\"" + rest;
      ProtectedByChar(value);
      DoubleKeeps(value[1..], rest);
      assert s == ProtectedChar(value[0]) + tail && value == [value[0]] + value[1..];
      CharKept(value[0], tail);
    }
  }

  lemma NothingProtected()
    ensures Protected("") == ""
  {
  }

  lemma CharKept(c: char, tail: string)
    ensures DoubleQuoted(ProtectedChar(c) + tail) == Put(c, DoubleQuoted(tail))
  {
    var s := ProtectedChar(c) + tail;
    if Protectable(c) {
      assert s[0] == '\\' && s[1] == c && s[2..] == tail;
    } else {
      assert s[0] == c && s[1..] == tail;
    }
  }

  /** The text of a double-quoted value reads as the value, too, for all values: nothing is left to expand. */
  lemma DoubleReadsAs(value: string)
    ensures ReadsAs(EscapeBashDoubleQuoted(value), value)
  {
    hide *;
    forall rest | rest == "" || rest[0] == '\n'
      ensures Unquoted(EscapeBashDoubleQuoted(value) + rest) == Some(Word(value, rest))
    {
      var inner := Protected(value) + "\"" + rest;
      DoubleKeeps(value, rest);
      DoubleText(value);
      DoubleOpens(inner);
      assert EscapeBashDoubleQuoted(value) + rest == "\"" + inner;
    }
    SoReadsAs(EscapeBashDoubleQuoted(value), value);
  }

  lemma DoubleOpens(tail: string)
    ensures Unquoted("\"" + tail) == DoubleQuoted(tail)
  {
    assert ("\"" + tail)[1..] == tail;
  }

  lemma DoubleText(value: string)
    ensures EscapeBashDoubleQuoted(value) == "\"" + Protected(value) + "\""
  {
    NothingProtected();
    assert "\"" + "" + "\"" == "\"\"";
  }

  /**
   A reference to a variable comes out of double quotes as it is written, not expanded: its text is kept
   between the quotes if and only if it holds no dollar sign, backquote, quote or backslash.
   */
  lemma {:induction false} PlainExactly(value: string)
    ensures EscapeBashDoubleQuoted(value) == "\"" + value + "\"" <==> forall c | c in value :: !Protectable(c)
  {
    hide Protected;
    DoubleText(value);
    ProtectedLength(value);
    assert ("\"" + value + "\"")[1..|value| + 1] == value;
    assert ("\"" + Protected(value) + "\"")[1..|Protected(value)| + 1] == Protected(value);
  }

  lemma {:induction false} ProtectedLength(value: string)
    ensures |Protected(value)| >= |value|
    ensures Protected(value) == value <==> forall c | c in value :: !Protectable(c)
    ensures |Protected(value)| == |value| ==> Protected(value) == value
  {
    hide Protected;
    if value == "" {
      NothingProtected();
    } else {
      ProtectedByChar(value);
      ProtectedLength(value[1..]);
      assert value == [value[0]] + value[1..];
    }
  }

  /** The program's tests promise that this reference stays as it is, to be expanded by the shell; it does not. */
  lemma ReferenceIsNotKept(name: string)
    ensures EscapeBashDoubleQuoted("$" + name) != "\"" + ("$" + name) + "\""
    ensures ReadsAs(EscapeBashDoubleQuoted("$" + name), "$" + name)
  {
    hide *;
    PlainExactly("$" + name);
    DoubleReadsAs("$" + name);
    DollarIsProtectable("$" + name);
  }

  lemma DollarIsProtectable(s: string)
    requires s != "" && s[0] == '$'
    ensures '$' in s && Protectable('$')
  {
  }
}
