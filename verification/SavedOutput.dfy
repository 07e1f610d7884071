/**
 How a command's output reaches the job: chunk by chunk, each chunk trimmed and appended to what is
 already saved under the same name. What a file read that way has to do with the file.
 */
module SavedOutput {
  import opened Text
  import FileText

  /** What is saved after the chunks have arrived, given what was saved under the name before. */
  function Saved(before: string, chunks: seq<string>): string
    decreases |chunks|
  {
    if chunks == [] then before else Saved(before + Trim(StrBlank, chunks[0]), chunks[1..])
  }

  function Concat(chunks: seq<string>): string {
    if chunks == [] then "" else chunks[0] + Concat(chunks[1..])
  }

  /** White space between two visible characters. */
  predicate SpaceInside(blank: char -> bool, s: string) {
    exists j | 0 <= j < |s| :: blank(s[j]) && VisibleIn(blank, s[..j]) && VisibleIn(blank, s[j + 1..])
  }

  predicate VisibleIn(blank: char -> bool, s: string) {
    exists c | c in s :: !blank(c)
  }

  function Visible(blank: char -> bool, s: string): string {
    if s == "" then "" else (if blank(s[0]) then "" else [s[0]]) + Visible(blank, s[1..])
  }

  lemma {:induction false} VisibleConcat(blank: char -> bool, a: string, b: string)
    ensures Visible(blank, a + b) == Visible(blank, a) + Visible(blank, b)
  {
    if a == "" {
      assert a + b == b;
    } else {
      assert (a + b)[1..] == a[1..] + b;
      VisibleConcat(blank, a[1..], b);
    }
  }

  lemma {:induction false} NothingToStrip(blank: char -> bool, s: string)
    requires forall c | c in s :: !blank(c)
    ensures Visible(blank, s) == s
  {
    if s != "" {
      NothingToStrip(blank, s[1..]);
      assert s == [s[0]] + s[1..];
    }
  }

  lemma {:induction false} TrimStartVisible(blank: char -> bool, s: string)
    ensures Visible(blank, TrimStart(blank, s)) == Visible(blank, s)
  {
    if s != "" && blank(s[0]) {
      TrimStartVisible(blank, s[1..]);
    }
  }

  lemma {:induction false} TrimEndVisible(blank: char -> bool, s: string)
    ensures Visible(blank, TrimEnd(blank, s)) == Visible(blank, s)
  {
    if s != "" && blank(s[|s| - 1]) {
      var init := s[..|s| - 1];
      TrimEndVisible(blank, init);
      assert s == init + [s[|s| - 1]];
      VisibleConcat(blank, init, [s[|s| - 1]]);
    }
  }

  lemma VisibleAt(blank: char -> bool, s: string, i: nat)
    requires i < |s| && !blank(s[i])
    ensures VisibleIn(blank, s)
  {
    assert s[i] in s;
  }

  lemma SpaceBetween(blank: char -> bool, a: string, c: char, b: string)
    requires blank(c) && VisibleIn(blank, a) && VisibleIn(blank, b)
    ensures SpaceInside(blank, a + [c] + b)
  {
    hide VisibleIn;
    var s := a + [c] + b;
    assert s[|a|] == c && s[..|a|] == a && s[|a| + 1..] == b;
  }

  lemma MiddleHasNoBlank(blank: char -> bool, left: string, word: string, right: string)
    requires !SpaceInside(blank, left + word + right)
    requires word != "" ==> !blank(word[0]) && !blank(word[|word| - 1])
    ensures forall c | c in word :: !blank(c)
  {
    hide SpaceInside;
    hide VisibleIn;
    forall j | 0 <= j < |word|
      ensures !blank(word[j])
    {
      if blank(word[j]) {
        var a, b := left + word[..j], word[j + 1..] + right;
        VisibleAt(blank, a, |left|);
        VisibleAt(blank, b, |word| - 2 - j);
        assert left + word + right == a + [word[j]] + b;
        SpaceBetween(blank, a, word[j], b);
      }
    }
  }

  lemma TrimmedMiddle(blank: char -> bool, s: string) returns (left: string, right: string)
    ensures s == left + Trim(blank, s) + right
  {
    hide TrimStart;
    hide TrimEnd;
    var t := TrimStart(blank, s);
    left, right := s[..|s| - |t|], t[|TrimEnd(blank, t)|..];
  }

  /** A text without white space inside is trimmed to its visible characters. */
  lemma TrimmedWord(blank: char -> bool, s: string)
    requires !SpaceInside(blank, s)
    ensures Trim(blank, s) == Visible(blank, s)
  {
    hide SpaceInside;
    TrimStartVisible(blank, s);
    TrimEndVisible(blank, TrimStart(blank, s));
    TrimEnds(blank, s);
    var left, right := TrimmedMiddle(blank, s);
    MiddleHasNoBlank(blank, left, Trim(blank, s), right);
    NothingToStrip(blank, Trim(blank, s));
  }

  lemma VisibleIsVisible(blank: char -> bool, s: string)
    ensures forall c | c in Visible(blank, s) :: !blank(c)
  {
  }

  lemma SpaceInsidePart(blank: char -> bool, a: string, b: string)
    requires !SpaceInside(blank, a + b)
    ensures !SpaceInside(blank, a) && !SpaceInside(blank, b)
  {
    var s := a + b;
    forall j | 0 <= j < |a|
      ensures !(blank(a[j]) && VisibleIn(blank, a[..j]) && VisibleIn(blank, a[j + 1..]))
    {
      assert s[j] == a[j] && s[..j] == a[..j] && s[j + 1..] == a[j + 1..] + b;
    }
    forall j | 0 <= j < |b|
      ensures !(blank(b[j]) && VisibleIn(blank, b[..j]) && VisibleIn(blank, b[j + 1..]))
    {
      var k := |a| + j;
      assert s[k] == b[j] && s[..k] == a + b[..j] && s[k + 1..] == b[j + 1..];
    }
  }

  lemma {:induction false} WordArrives(before: string, chunks: seq<string>)
    requires !SpaceInside(StrBlank, Concat(chunks))
    ensures Saved(before, chunks) == before + Visible(StrBlank, Concat(chunks))
    decreases |chunks|
  {
    hide StrBlank;
    hide Trim;
    if chunks != [] {
      var c, rest := chunks[0], Concat(chunks[1..]);
      SpaceInsidePart(StrBlank, c, rest);
      TrimmedWord(StrBlank, c);
      WordArrives(before + Trim(StrBlank, c), chunks[1..]);
      VisibleConcat(StrBlank, c, rest);
    }
  }

  // ------------------------------------------------------------------ what is lost at a cut

  lemma {:induction false} VisibleTrims(blank: char -> bool, s: string)
    ensures VisibleIn(blank, s) <==> TrimStart(blank, s) != ""
  {
    if s != "" && blank(s[0]) {
      VisibleTrims(blank, s[1..]);
      assert s == [s[0]] + s[1..];
    }
  }

  lemma {:induction false} VisibleTrimsEnd(blank: char -> bool, s: string)
    ensures VisibleIn(blank, s) <==> TrimEnd(blank, s) != ""
  {
    if s != "" && blank(s[|s| - 1]) {
      VisibleTrimsEnd(blank, s[..|s| - 1]);
      assert s == s[..|s| - 1] + [s[|s| - 1]];
    }
  }

  lemma {:induction false} TrimStartConcat(blank: char -> bool, a: string, b: string)
    requires TrimStart(blank, a) != ""
    ensures TrimStart(blank, a + b) == TrimStart(blank, a) + b
  {
    if blank(a[0]) {
      assert (a + b)[1..] == a[1..] + b;
      TrimStartConcat(blank, a[1..], b);
    }
  }

  lemma TrimShorter(blank: char -> bool, b: string)
    requires VisibleIn(blank, b)
    ensures |Trim(blank, b)| <= |TrimEnd(blank, b)|
  {
    hide TrimStart;
    hide TrimEnd;
    hide VisibleIn;
    var t := TrimStart(blank, b);
    VisibleTrims(blank, b);
    VisibleAt(blank, t, 0);
    VisibleTrimsEnd(blank, t);
    assert b == b[..|b| - |t|] + t;
    TrimEndConcat(blank, b[..|b| - |t|], t);
  }

  lemma LastIsStripped(blank: char -> bool, s: string)
    requires s != "" && blank(s[|s| - 1])
    ensures |TrimEnd(blank, s)| < |s|
  {
  }

  /** A cut right behind white space loses it. */
  lemma LostAtCut(blank: char -> bool, a: string, b: string)
    requires VisibleIn(blank, a) && VisibleIn(blank, b) && blank(a[|a| - 1])
    ensures |Trim(blank, a) + Trim(blank, b)| < |Trim(blank, a + b)|
  {
    hide TrimStart;
    hide TrimEnd;
    hide VisibleIn;
    var t := TrimStart(blank, a);
    VisibleTrims(blank, a);
    VisibleTrimsEnd(blank, b);
    TrimStartConcat(blank, a, b);
    TrimEndConcat(blank, t, b);
    TrimShorter(blank, b);
    LastIsStripped(blank, t);
  }

  lemma TwoChunks(a: string, b: string)
    ensures Saved("", [a, b]) == Trim(StrBlank, a) + Trim(StrBlank, b)
    ensures Concat([a, b]) == a + b
  {
    hide StrBlank;
    hide Trim;
    var ta, tb := Trim(StrBlank, a), Trim(StrBlank, b);
    assert [a, b][1..] == [b] && [b][1..] == [] && "" + ta == ta && b + "" == b;
    assert Saved("", [a, b]) == Saved(ta, [b]) == Saved(ta + tb, []);
    assert Concat([a, b]) == a + Concat([b]) == a + (b + Concat([]));
  }

  lemma SpaceIsLostAt(content: string, j: nat)
    requires j < |content| && StrBlank(content[j])
    requires VisibleIn(StrBlank, content[..j]) && VisibleIn(StrBlank, content[j + 1..])
    ensures var chunks := [content[..j + 1], content[j + 1..]];
            Concat(chunks) == content && FileText.ReadLines(Saved("", chunks)) != FileText.ReadLines(content)
  {
    hide *;
    var a, b := content[..j + 1], content[j + 1..];
    assert content == a + b && a == content[..j] + [content[j]] && a[|a| - 1] == content[j];
    VisibleMore(StrBlank, content[..j], [content[j]]);
    LostAtCut(StrBlank, a, b);
    TwoChunks(a, b);
    TrimLength(StrBlank, Saved("", [a, b]));
    SameLines(Saved("", [a, b]), content);
  }

  lemma VisibleMore(blank: char -> bool, a: string, b: string)
    requires VisibleIn(blank, a)
    ensures VisibleIn(blank, a + b)
  {
  }

  lemma SpaceIsLost(content: string)
    requires SpaceInside(StrBlank, content)
    ensures exists chunks ::
              Concat(chunks) == content && FileText.ReadLines(Saved("", chunks)) != FileText.ReadLines(content)
  {
    hide VisibleIn;
    hide FileText.ReadLines;
    hide Concat;
    hide StrBlank;
    hide Saved;
    var j :| 0 <= j < |content| && StrBlank(content[j])
             && VisibleIn(StrBlank, content[..j]) && VisibleIn(StrBlank, content[j + 1..]);
    SpaceIsLostAt(content, j);
  }

  lemma TrimLength(blank: char -> bool, s: string)
    ensures |Trim(blank, s)| <= |s|
  {
  }

  lemma SameLines(a: string, b: string)
    ensures FileText.ReadLines(a) == FileText.ReadLines(b) <==> Trim(StrBlank, a) == Trim(StrBlank, b)
  {
    hide StrBlank;
    hide Trim;
    JoinSplit(Trim(StrBlank, a), '\n');
    JoinSplit(Trim(StrBlank, b), '\n');
  }

  /** A file is read as it is, however its output is cut into chunks, if and only if it has no white space inside. */
  lemma ArrivesWholeExactly(content: string)
    ensures (forall chunks | Concat(chunks) == content ::
              FileText.ReadLines(Saved("", chunks)) == FileText.ReadLines(content))
       <==> !SpaceInside(StrBlank, content)
  {
    hide StrBlank;
    hide FileText.ReadLines;
    hide SpaceInside;
    hide Saved;
    hide Trim;
    if SpaceInside(StrBlank, content) {
      SpaceIsLost(content);
    } else {
      TrimmedWord(StrBlank, content);
      VisibleIsVisible(StrBlank, content);
      forall chunks | Concat(chunks) == content
        ensures FileText.ReadLines(Saved("", chunks)) == FileText.ReadLines(content)
      {
        WordArrives("", chunks);
        var word := Visible(StrBlank, content);
        assert "" + word == word;
        TrimIdentity(StrBlank, word);
        SameLines(word, content);
      }
    }
  }

  /** A second file read under the same name comes with the first one in front, unless that was blank. */
  lemma SecondFileExactly(first: string, second: string)
    ensures FileText.ReadLines(Saved(Saved("", [first]), [second])) == FileText.ReadLines(second)
       <==> Trim(StrBlank, first) == ""
  {
    hide StrBlank;
    hide Trim;
    var a, b := Trim(StrBlank, first), Trim(StrBlank, second);
    assert "" + a == a && [first][1..] == [] && [second][1..] == [];
    TrimEnds(StrBlank, first);
    TrimEnds(StrBlank, second);
    TrimIdentity(StrBlank, a + b);
    SameLines(a + b, second);
    assert |a + b| == |a| + |b|;
  }
}
