/**
 The shapes of the lines that the passes recognise, without a word about trimming: blanks, a word,
 and the rest of the line.
 */
module LineShapes {
  import opened Text
  import opened DockerLines

  predicate AllBlank(blank: char -> bool, s: string) {
    forall c | c in s :: blank(c)
  }

  /** Blanks and what follows them. */
  predicate Indented(blank: char -> bool, line: string, blanks: string, body: string) {
    line == blanks + body && AllBlank(blank, blanks)
  }

  lemma {:induction false} TrimStartDropsBlanks(blank: char -> bool, blanks: string, body: string)
    requires AllBlank(blank, blanks) && (body != "" ==> !blank(body[0]))
    ensures TrimStart(blank, blanks + body) == body
  {
    if blanks == "" {
      assert blanks + body == body;
    } else {
      assert (blanks + body)[1..] == blanks[1..] + body;
      TrimStartDropsBlanks(blank, blanks[1..], body);
    }
  }

  lemma {:induction false} TrimStartBlanks(blank: char -> bool, s: string)
    ensures AllBlank(blank, s[..|s| - |TrimStart(blank, s)|])
  {
    if s != "" && blank(s[0]) {
      TrimStartBlanks(blank, s[1..]);
      var n := |s| - |TrimStart(blank, s)|;
      assert s[..n] == [s[0]] + s[1..][..n - 1];
    }
  }

  lemma TrimStartLeavesBody(blank: char -> bool, line: string) returns (blanks: string)
    ensures Indented(blank, line, blanks, TrimStart(blank, line))
  {
    hide TrimStart;
    TrimStartBlanks(blank, line);
    blanks := line[..|line| - |TrimStart(blank, line)|];
  }

  lemma {:induction false} TrimEndLeavesBody(blank: char -> bool, s: string) returns (blanks: string)
    ensures s == TrimEnd(blank, s) + blanks && AllBlank(blank, blanks)
  {
    blanks := "";
    if s != "" && blank(s[|s| - 1]) {
      var rest := TrimEndLeavesBody(blank, s[..|s| - 1]);
      blanks := rest + [s[|s| - 1]];
      assert s == s[..|s| - 1] + [s[|s| - 1]];
    }
  }

  lemma VisibleIsKept(blank: char -> bool, t: string, blanks: string, k: nat)
    requires AllBlank(blank, blanks) && k < |t + blanks| && !blank((t + blanks)[k])
    ensures k < |t|
  {
    assert forall i | 0 <= i < |blanks| :: blanks[i] in blanks && (t + blanks)[|t| + i] == blanks[i];
  }

  /** A word that does not end in a blank survives trimming the end. */
  lemma WordStays(blank: char -> bool, s: string, word: string)
    requires word != "" && !blank(word[|word| - 1])
    ensures word <= TrimEnd(blank, s) <==> word <= s
  {
    hide TrimEnd;
    var blanks := TrimEndLeavesBody(blank, s);
    if word <= s {
      VisibleIsKept(blank, TrimEnd(blank, s), blanks, |word| - 1);
    }
  }

  /** Trimmed, a line starts with the word exactly if it is blanks, the word, and anything. */
  lemma StartsWithWord(blank: char -> bool, line: string, word: string)
    requires word != "" && !blank(word[0])
    ensures word <= TrimStart(blank, line) <==> exists blanks, rest :: Indented(blank, line, blanks, word + rest)
  {
    hide TrimStart;
    if word <= TrimStart(blank, line) {
      var blanks := TrimStartLeavesBody(blank, line);
      var rest := TrimStart(blank, line)[|word|..];
      assert TrimStart(blank, line) == word + rest;
      assert Indented(blank, line, blanks, word + rest);
    }
    forall blanks, rest | Indented(blank, line, blanks, word + rest)
      ensures word <= TrimStart(blank, line)
    {
      TrimStartDropsBlanks(blank, blanks, word + rest);
    }
  }

  lemma UpperLetters()
    ensures !StrBlank('F') && !StrBlank('M') && !StrBlank('A') && !StrBlank('G')
    ensures !PhpBlank('F') && !PhpBlank('f') && !PhpBlank('M') && !PhpBlank('m') && !PhpBlank('R')
  {
  }

  /** The compose pass takes exactly these lines for FROM lines: blanks, the upper-case word, and anything. */
  lemma ComposeFromExactly(line: string)
    ensures ComposeFrom(line) <==> exists blanks, rest :: Indented(StrBlank, line, blanks, "FROM" + rest)
  {
    UpperLetters();
    hide StrBlank;
    hide TrimStart;
    hide TrimEnd;
    hide Indented;
    WordStays(StrBlank, TrimStart(StrBlank, line), "FROM");
    StartsWithWord(StrBlank, line, "FROM");
  }

  /** The lines that continue a stage's run of ARG lines: blanks, the upper-case word, and anything. */
  lemma IsArgExactly(line: string)
    ensures IsArg(line) <==> exists blanks, rest :: Indented(StrBlank, line, blanks, "ARG" + rest)
  {
    UpperLetters();
    NothingToTrim();
    hide StrBlank;
    hide TrimStart;
    hide TrimEnd;
    hide Indented;
    WordStays(StrBlank, TrimStart(StrBlank, line), "ARG");
    StartsWithWord(StrBlank, line, "ARG");
  }

  lemma NothingToTrim()
    ensures !("ARG" <= Trim(StrBlank, "")) && !("ARG" <= Trim(StrBlank, "0"))
  {
  }

  /** The secrets pass takes exactly these lines for RUN lines: blanks, the upper-case word, and anything. */
  lemma IsRunExactly(line: string)
    ensures IsRun(line) <==> exists blanks, rest :: Indented(PhpBlank, line, blanks, "RUN" + rest)
  {
    UpperLetters();
    hide PhpBlank;
    hide TrimStart;
    hide Indented;
    StartsWithWord(PhpBlank, line, "RUN");
  }

  // ------------------------------------------------------------------ FROM lines of the single pass

  /** The word in any case. */
  predicate AnyCaseFrom(word: string) {
    && |word| == 4
    && (word[0] == 'F' || word[0] == 'f') && (word[1] == 'R' || word[1] == 'r')
    && (word[2] == 'O' || word[2] == 'o') && (word[3] == 'M' || word[3] == 'm')
  }

  /** The word, one white-space character, and a rest in which something is left to see. */
  predicate FromBody(body: string, word: string, space: char, rest: string) {
    && body == word + [space] + rest && AnyCaseFrom(word)
    && (space == ' ' || space == '\t' || space == '\n' || space == '\r' || space == '\U{0B}' || space == '\U{0C}')
    && (space == '\U{0C}' || exists c | c in rest :: !PhpBlank(c))
  }

  predicate FromStart(t: string) {
    && |t| > 4
    && Lower(t[0]) == 'f' && Lower(t[1]) == 'r' && Lower(t[2]) == 'o' && Lower(t[3]) == 'm'
    && t[4] in " \t\n\r\U{0B}\U{0C}"
  }

  lemma LowerIs(c: char)
    ensures Lower(c) == 'f' <==> c == 'F' || c == 'f'
    ensures Lower(c) == 'r' <==> c == 'R' || c == 'r'
    ensures Lower(c) == 'o' <==> c == 'O' || c == 'o'
    ensures Lower(c) == 'm' <==> c == 'M' || c == 'm'
  {
  }

  lemma WhiteSpace(c: char)
    ensures c in " \t\n\r\U{0B}\U{0C}"
       <==> c == ' ' || c == '\t' || c == '\n' || c == '\r' || c == '\U{0B}' || c == '\U{0C}'
  {
  }

  /** After the end is trimmed such a start is left exactly if something follows the white space. */
  lemma FromStartExactly(body: string)
    ensures FromStart(TrimEnd(PhpBlank, body)) <==> exists word, space, rest :: FromBody(body, word, space, rest)
  {
    var blanks := TrimEndLeavesBody(PhpBlank, body);
    var t := TrimEnd(PhpBlank, body);
    hide TrimEnd;
    if FromStart(t) {
      FromStartHasBody(t, blanks, body);
    }
    forall word, space, rest | FromBody(body, word, space, rest)
      ensures FromStart(t)
    {
      FromBodyStarts(t, blanks, body, word, space, rest);
    }
  }

  lemma FromStartHasBody(t: string, blanks: string, body: string)
    requires FromStart(t) && body == t + blanks && t == TrimEnd(PhpBlank, body)
    ensures exists word, space, rest :: FromBody(body, word, space, rest)
  {
    hide PhpBlank;
    hide TrimEnd;
    var word, space, rest := body[..4], body[4], body[5..];
    LowerIs(t[0]);
    LowerIs(t[1]);
    LowerIs(t[2]);
    LowerIs(t[3]);
    WhiteSpace(t[4]);
    hide Lower;
    assert body == word + [space] + rest;
    if |t| > 5 {
      assert rest[|t| - 6] == t[|t| - 1];
    } else {
      OnlyFormFeedStays(space);
    }
    assert FromBody(body, word, space, rest);
  }

  lemma OnlyFormFeedStays(c: char)
    ensures !PhpBlank(c) && c in " \t\n\r\U{0B}\U{0C}" ==> c == '\U{0C}'
    ensures !PhpBlank('\U{0C}')
  {
  }

  lemma FromBodyStarts(t: string, blanks: string, body: string, word: string, space: char, rest: string)
    requires body == t + blanks && AllBlank(PhpBlank, blanks)
    requires FromBody(body, word, space, rest)
    ensures FromStart(t)
  {
    OnlyFormFeedStays('\U{0C}');
    hide PhpBlank;
    LowerIs(body[0]);
    LowerIs(body[1]);
    LowerIs(body[2]);
    LowerIs(body[3]);
    WhiteSpace(space);
    hide Lower;
    var k := 4;
    if space != '\U{0C}' {
      var c :| c in rest && !PhpBlank(c);
      var i :| 0 <= i < |rest| && rest[i] == c;
      k := 5 + i;
    }
    assert !PhpBlank(body[k]);
    VisibleIsKept(PhpBlank, t, blanks, k);
    assert t[..5] == body[..5];
  }

  /**
   The single pass takes exactly these lines for FROM lines: blanks, the word in any case, white space, and
   something that trimming leaves.
   */
  lemma SingleFromExactly(line: string)
    ensures SingleFrom(line) <==>
              exists blanks, word, space, rest ::
                AllBlank(PhpBlank, blanks) && line == blanks + word + [space] + rest
                && FromBody(word + [space] + rest, word, space, rest)
  {
    hide FromBody;
    hide SingleFrom;
    hide PhpBlank;
    hide TrimStart;
    SingleFromTrims(line);
    if SingleFrom(line) {
      var blanks := TrimStartLeavesBody(PhpBlank, line);
      var word, space, rest :| FromBody(TrimStart(PhpBlank, line), word, space, rest);
      BodyText(TrimStart(PhpBlank, line), word, space, rest);
      assert line == blanks + word + [space] + rest;
    }
    forall blanks, word, space, rest |
      AllBlank(PhpBlank, blanks) && line == blanks + word + [space] + rest
      && FromBody(word + [space] + rest, word, space, rest)
      ensures SingleFrom(line)
    {
      BodyText(word + [space] + rest, word, space, rest);
      assert line == blanks + (word + [space] + rest);
      TrimStartDropsBlanks(PhpBlank, blanks, word + [space] + rest);
    }
  }

  lemma SingleFromTrims(line: string)
    ensures SingleFrom(line) <==> exists word, space, rest :: FromBody(TrimStart(PhpBlank, line), word, space, rest)
  {
    hide *;
    FromStartExactly(TrimStart(PhpBlank, line));
    SingleFromIsStart(line);
  }

  lemma SingleFromIsStart(line: string)
    ensures SingleFrom(line) <==> FromStart(TrimEnd(PhpBlank, TrimStart(PhpBlank, line)))
  {
    hide PhpBlank;
    hide TrimStart;
    hide TrimEnd;
    hide Lower;
  }

  lemma BodyText(body: string, word: string, space: char, rest: string)
    requires FromBody(body, word, space, rest)
    ensures body == word + [space] + rest && body != "" && !PhpBlank(body[0])
  {
    UpperLetters();
    assert body[0] == word[0];
  }

  // ------------------------------------------------------------------ the key an ARG line declares

  lemma ArgHasNoBlank()
    ensures ' ' !in "ARG" && !PhpBlank('=') && !PhpBlank('A')
  {
  }

  lemma DeclaredAfterArg(blanks: string, body: string)
    requires AllBlank(PhpBlank, blanks) && TrimEnd(PhpBlank, body) != ""
    ensures DeclaredKey(blanks + "ARG " + body) == Some(Before(TrimEnd(PhpBlank, body), '='))
  {
    ArgHasNoBlank();
    hide PhpBlank;
    hide TrimStart;
    hide TrimEnd;
    hide Before;
    hide AfterChar;
    var line, rest := blanks + "ARG " + body, TrimEnd(PhpBlank, body);
    assert line == blanks + ("ARG " + body);
    TrimStartDropsBlanks(PhpBlank, blanks, "ARG " + body);
    TrimEndConcat(PhpBlank, "ARG ", body);
    SplitAtFirst("ARG", ' ', rest);
    assert "ARG " + rest == "ARG" + [' '] + rest;
  }

  lemma EqualsStays(key: string, value: string) returns (v: string)
    ensures TrimEnd(PhpBlank, key + "=" + value) == key + ['='] + v
  {
    ArgHasNoBlank();
    hide PhpBlank;
    hide TrimEnd;
    WordStays(PhpBlank, "=" + value, "=");
    var t := TrimEnd(PhpBlank, "=" + value);
    v := t[1..];
    assert t == "=" + v;
    TrimEndConcat(PhpBlank, key, "=" + value);
    assert key + ("=" + value) == key + "=" + value;
  }

  /** An ARG line with a value declares the key that stands between the word and the first equals sign. */
  lemma DeclaredWithValue(blanks: string, key: string, value: string)
    requires AllBlank(PhpBlank, blanks) && '=' !in key
    ensures DeclaredKey(blanks + "ARG " + key + "=" + value) == Some(key)
  {
    hide PhpBlank;
    hide DeclaredKey;
    hide TrimStart;
    hide Before;
    var v := EqualsStays(key, value);
    hide TrimEnd;
    DeclaredAfterArg(blanks, key + "=" + value);
    assert blanks + "ARG " + key + "=" + value == blanks + "ARG " + (key + "=" + value);
    SplitAtFirst(key, '=', v);
  }

  /** One without a value declares all that follows the word. */
  lemma DeclaredAlone(blanks: string, key: string)
    requires AllBlank(PhpBlank, blanks) && '=' !in key
    requires key != "" && !PhpBlank(key[|key| - 1])
    ensures DeclaredKey(blanks + "ARG " + key) == Some(key)
  {
    hide PhpBlank;
    hide DeclaredKey;
    hide TrimStart;
    hide Before;
    DeclaredAfterArg(blanks, key);
    BeforeItself(key, '=');
  }
}
