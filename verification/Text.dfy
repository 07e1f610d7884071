/**
 The string helpers the deployment code relies on: trimming (PHP's own and the framework's
 wider one), searching, and splitting a file into lines and back.
 */
module Text {

  datatype Option<+T> = None | Some(value: T)

  /** A variable's key and value. */
  datatype Pair = Pair(key: string, value: string)

  /** The characters PHP's `trim` and `ltrim` strip by default. */
  predicate PhpBlank(c: char) {
    c == ' ' || c == '\t' || c == '\n' || c == '\r' || c == '\0' || c == '\U{0B}'
  }

  /** The characters the framework's `Str::trim` strips: PHP's, form feed and invisible Unicode characters. */
  predicate StrBlank(c: char) {
    || PhpBlank(c) || c == '\U{0C}' || c == '\U{85}' || c == '\U{A0}' || c == '\U{AD}' || c == '\U{34F}'
    || c == '\U{61C}' || c == '\U{115F}' || c == '\U{1160}' || c == '\U{17B4}' || c == '\U{17B5}' || c == '\U{180E}'
    || '\U{2000}' <= c <= '\U{200F}' || '\U{2028}' <= c <= '\U{202F}' || '\U{205F}' <= c <= '\U{206F}'
    || c == '\U{2800}' || c == '\U{3000}' || c == '\U{3164}' || c == '\U{FEFF}' || c == '\U{FFA0}'
  }

  function TrimStart(blank: char -> bool, s: string): (r: string)
    ensures |r| <= |s| && r == s[|s| - |r|..]
    ensures r != [] ==> !blank(r[0])
  {
    if s != [] && blank(s[0]) then TrimStart(blank, s[1..]) else s
  }

  function TrimEnd(blank: char -> bool, s: string): (r: string)
    ensures r <= s
    ensures r != [] ==> !blank(r[|r| - 1])
  {
    if s != [] && blank(s[|s| - 1]) then TrimEnd(blank, s[..|s| - 1]) else s
  }

  function Trim(blank: char -> bool, s: string): string {
    TrimEnd(blank, TrimStart(blank, s))
  }

  /** The wider trim first strips everything the narrower one strips. */
  lemma {:induction false} TrimStartWider(narrow: char -> bool, wide: char -> bool, s: string)
    requires forall c :: narrow(c) ==> wide(c)
    ensures TrimStart(wide, s) == TrimStart(wide, TrimStart(narrow, s))
  {
    if s != [] && narrow(s[0]) {
      TrimStartWider(narrow, wide, s[1..]);
    }
  }

  /** A string whose two ends are visible is not changed by trimming. */
  lemma TrimIdentity(blank: char -> bool, s: string)
    requires s != [] ==> !blank(s[0]) && !blank(s[|s| - 1])
    ensures Trim(blank, s) == s
  {
  }

  lemma TrimEnds(blank: char -> bool, s: string)
    ensures var t := Trim(blank, s);
            t != "" ==> !blank(t[0]) && !blank(t[|t| - 1])
  {
  }

  /** Trimming the end leaves alone what stands before something that stays. */
  lemma {:induction false} TrimEndConcat(blank: char -> bool, a: string, b: string)
    requires TrimEnd(blank, b) != ""
    ensures TrimEnd(blank, a + b) == a + TrimEnd(blank, b)
  {
    var n := |b| - 1;
    assert (a + b)[|a| + n] == b[n];
    if blank(b[n]) {
      assert (a + b)[..|a| + n] == a + b[..n];
      TrimEndConcat(blank, a, b[..n]);
    }
  }

  predicate Contains(s: string, sub: string) {
    sub <= s || (s != [] && Contains(s[1..], sub))
  }

  lemma {:induction false} ContainsInside(left: string, sub: string, right: string)
    ensures Contains(left + sub + right, sub)
  {
    var s := left + sub + right;
    if left == [] {
      assert s == sub + right;
    } else {
      ContainsInside(left[1..], sub, right);
      assert s[1..] == left[1..] + sub + right;
    }
  }

  /** The part of s before the first c, or all of s. */
  function Before(s: string, c: char): (r: string)
    ensures c !in r && r <= s
    ensures r == s || (|r| < |s| && s[|r|] == c)
  {
    if s == [] || s[0] == c then [] else [s[0]] + Before(s[1..], c)
  }

  /** The part of s after the first c, if there is one. */
  function AfterChar(s: string, c: char): (r: Option<string>)
    ensures r.None? <==> c !in s
    ensures r.Some? ==> s == Before(s, c) + [c] + r.value
  {
    if s == [] then None
    else if s[0] == c then Some(s[1..])
    else AfterChar(s[1..], c)
  }

  /** The part of s after the first occurrence of sep, or all of s (the framework's `Str::after`). */
  function After(s: string, sep: string): string {
    match FindAfter(s, sep)
    case None => s
    case Some(rest) => rest
  }

  function FindAfter(s: string, sep: string): Option<string> {
    if sep <= s then Some(s[|sep|..])
    else if s == [] then None
    else FindAfter(s[1..], sep)
  }

  /** Splits at every separator, as `explode` does: the empty string gives one empty piece. */
  function Split(s: string, sep: char): (r: seq<string>)
    ensures r != []
    ensures forall piece | piece in r :: sep !in piece
    decreases |s|
  {
    match AfterChar(s, sep)
    case None => [s]
    case Some(rest) => [Before(s, sep)] + Split(rest, sep)
  }

  function Join(pieces: seq<string>, sep: string): string {
    if pieces == [] then ""
    else if |pieces| == 1 then pieces[0]
    else pieces[0] + sep + Join(pieces[1..], sep)
  }

  /** Splitting what was joined gives the pieces back, when no piece holds the separator. */
  lemma {:induction false} SplitJoin(pieces: seq<string>, sep: char)
    requires pieces != []
    requires forall piece | piece in pieces :: sep !in piece
    ensures Split(Join(pieces, [sep]), sep) == pieces
  {
    var s := Join(pieces, [sep]);
    if |pieces| == 1 {
      assert AfterChar(s, sep).None?;
      assert pieces == [pieces[0]];
    } else {
      var rest := Join(pieces[1..], [sep]);
      assert s == pieces[0] + [sep] + rest;
      SplitAtFirst(pieces[0], sep, rest);
      SplitJoin(pieces[1..], sep);
      assert pieces == [pieces[0]] + pieces[1..];
    }
  }

  lemma {:induction false} SplitAtFirst(head: string, sep: char, rest: string)
    requires sep !in head
    ensures Before(head + [sep] + rest, sep) == head
    ensures AfterChar(head + [sep] + rest, sep) == Some(rest)
  {
    var s := head + [sep] + rest;
    if head != [] {
      assert s[1..] == head[1..] + [sep] + rest;
      SplitAtFirst(head[1..], sep, rest);
    }
  }

  /** Joining what was split gives the string back. */
  lemma {:induction false} JoinSplit(s: string, sep: char)
    ensures Join(Split(s, sep), [sep]) == s
    decreases |s|
  {
    match AfterChar(s, sep) {
      case None =>
      case Some(rest) =>
        JoinSplit(rest, sep);
        var tail := Split(rest, sep);
        assert ([Before(s, sep)] + tail)[1..] == tail;
    }
  }

  /** The first and last characters of a joined text come from its first and last pieces. */
  lemma {:induction false} JoinEnds(pieces: seq<string>, sep: string)
    requires pieces != []
    requires pieces[0] != [] && pieces[|pieces| - 1] != []
    ensures var s := Join(pieces, sep);
            s != [] && s[0] == pieces[0][0]
            && s[|s| - 1] == pieces[|pieces| - 1][|pieces[|pieces| - 1]| - 1]
  {
    if |pieces| > 1 {
      JoinLast(pieces[1..], sep);
    }
  }

  lemma {:induction false} JoinLast(pieces: seq<string>, sep: string)
    requires pieces != []
    requires pieces[|pieces| - 1] != []
    ensures var s := Join(pieces, sep);
            s != [] && s[|s| - 1] == pieces[|pieces| - 1][|pieces[|pieces| - 1]| - 1]
  {
    if |pieces| > 1 {
      JoinLast(pieces[1..], sep);
    }
  }
}
