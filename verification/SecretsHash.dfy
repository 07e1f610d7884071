/**
 The text that is hashed for the build secrets: the variables sorted by key, written KEY=VALUE and
 joined by bars. The keyed hash itself is not modelled; only its input matters for caching.
 */
module SecretsHash {
  import opened Text
  import opened PhpCompare

  function Piece(p: Pair): string {
    p.key + "=" + p.value
  }

  function Pieces(pairs: seq<Pair>): (r: seq<string>)
    ensures |r| == |pairs| && forall i | 0 <= i < |r| :: r[i] == Piece(pairs[i])
  {
    seq(|pairs|, i requires 0 <= i < |pairs| => Piece(pairs[i]))
  }

  function Joined(pairs: seq<Pair>): string {
    Join(Pieces(pairs), "|")
  }

  predicate DistinctKeys(pairs: seq<Pair>) {
    forall i, j | 0 <= i < j < |pairs| :: pairs[i].key != pairs[j].key
  }

  predicate KeysIn(pairs: seq<Pair>, keys: set<string>) {
    forall p | p in pairs :: p.key in keys
  }

  // ------------------------------------------------------------------ sorting by keys

  /** Every pair is less than all that follow. */
  predicate Sorted(pairs: seq<Pair>) {
    forall i, j | 0 <= i < j < |pairs| :: KeyLess(pairs[i].key, pairs[j].key)
  }

  /** No pair is less than the one before it. */
  predicate InStep(pairs: seq<Pair>) {
    forall i | 0 < i < |pairs| :: !KeyLess(pairs[i].key, pairs[i - 1].key)
  }

  /** The order arranges these keys in one way: none are taken for the same, and it never goes round in a circle. */
  predicate Orderable(keys: set<string>) {
    && (forall a, b | a in keys && b in keys && LooselyEqual(a, b) :: a == b)
    && (forall a, b, c | a in keys && b in keys && c in keys && KeyLess(a, b) && KeyLess(b, c) :: KeyLess(a, c))
  }

  type Sorter = seq<Pair> -> seq<Pair>

  /**
   What any stable sort by keys does, however it proceeds: it keeps the pairs, leaves three that are in
   step as they are, and sorts pairs whose keys can be arranged in one way.
   */
  ghost predicate Sorts(f: Sorter) {
    forall pairs | DistinctKeys(pairs) ::
      && multiset(f(pairs)) == multiset(pairs)
      && (|pairs| <= 3 && InStep(pairs) ==> f(pairs) == pairs)
      && (forall keys | KeysIn(pairs, keys) && Orderable(keys) :: Sorted(f(pairs)))
  }

  /** Insertion before the first pair that is not less. */
  function Insert(p: Pair, sorted: seq<Pair>): (r: seq<Pair>)
    ensures multiset(r) == multiset(sorted) + multiset{p}
  {
    hide KeyLess;
    if sorted == [] || !KeyLess(sorted[0].key, p.key) then [p] + sorted
    else
      assert sorted == [sorted[0]] + sorted[1..];
      [sorted[0]] + Insert(p, sorted[1..])
  }

  function SortKeys(pairs: seq<Pair>): (r: seq<Pair>)
    ensures multiset(r) == multiset(pairs)
  {
    if pairs == [] then []
    else
      assert pairs == [pairs[0]] + pairs[1..];
      Insert(pairs[0], SortKeys(pairs[1..]))
  }

  function HashedText(variables: seq<Pair>): string {
    Joined(SortKeys(variables))
  }

  lemma InStepCons(head: Pair, tail: seq<Pair>)
    requires InStep(tail) && (tail != [] ==> !KeyLess(tail[0].key, head.key))
    ensures InStep([head] + tail)
  {
    hide KeyLess;
  }

  lemma InStepTail(pairs: seq<Pair>)
    requires InStep(pairs) && pairs != []
    ensures InStep(pairs[1..])
  {
    hide KeyLess;
    assert forall i | 0 < i < |pairs[1..]| :: pairs[1..][i] == pairs[i + 1] && pairs[1..][i - 1] == pairs[i];
  }

  lemma {:induction false} InsertInStep(p: Pair, sorted: seq<Pair>)
    requires InStep(sorted)
    ensures InStep(Insert(p, sorted))
    ensures Insert(p, sorted) != []
    ensures Insert(p, sorted)[0] == p || (sorted != [] && Insert(p, sorted)[0] == sorted[0])
  {
    hide KeyLess;
    hide InStep;
    if sorted == [] || !KeyLess(sorted[0].key, p.key) {
      InStepCons(p, sorted);
    } else {
      var head, rest := sorted[0], sorted[1..];
      assert sorted == [head] + rest;
      KeyOrder(head.key, p.key);
      InStepTail(sorted);
      InsertInStep(p, rest);
      if rest != [] {
        HeadInStep(sorted);
      }
      InStepCons(head, Insert(p, rest));
    }
  }

  lemma HeadInStep(pairs: seq<Pair>)
    requires InStep(pairs) && |pairs| > 1
    ensures !KeyLess(pairs[1..][0].key, pairs[0].key)
  {
    hide KeyLess;
  }

  lemma {:induction false} SortKeysInStep(pairs: seq<Pair>)
    ensures InStep(SortKeys(pairs))
  {
    if pairs != [] {
      SortKeysInStep(pairs[1..]);
      InsertInStep(pairs[0], SortKeys(pairs[1..]));
    }
  }

  /** Pairs in step stay as they are, however many. */
  lemma {:induction false} InStepStays(pairs: seq<Pair>)
    requires InStep(pairs)
    ensures SortKeys(pairs) == pairs
  {
    hide KeyLess;
    if pairs != [] {
      var rest := pairs[1..];
      InStepTail(pairs);
      InStepStays(rest);
      assert pairs == [pairs[0]] + rest;
    }
  }

  lemma {:induction false} InsertSorted(p: Pair, sorted: seq<Pair>, keys: set<string>)
    requires Orderable(keys) && KeysIn([p] + sorted, keys)
    requires Sorted(sorted) && forall q | q in sorted :: q.key != p.key
    ensures Sorted(Insert(p, sorted))
  {
    hide KeyLess;
    hide LooselyEqual;
    if sorted != [] {
      var head, rest := sorted[0], sorted[1..];
      assert p in [p] + sorted && head in [p] + sorted && head in sorted;
      assert forall q | q in rest :: q in sorted && q in [p] + sorted;
      KeyOrder(p.key, head.key);
      if KeyLess(head.key, p.key) {
        InsertSorted(p, rest, keys);
        AfterHead(p, head, rest);
      } else {
        BeforeAll(p, sorted, keys);
      }
    }
  }

  lemma BeforeAll(p: Pair, sorted: seq<Pair>, keys: set<string>)
    requires Orderable(keys) && KeysIn([p] + sorted, keys)
    requires sorted != [] && Sorted(sorted) && KeyLess(p.key, sorted[0].key)
    ensures Sorted([p] + sorted)
  {
    hide KeyLess;
    hide LooselyEqual;
    assert forall q | q in [p] + sorted :: q.key in keys;
    forall j | 0 <= j < |sorted|
      ensures KeyLess(p.key, sorted[j].key)
    {
      assert p in [p] + sorted && sorted[0] in [p] + sorted && sorted[j] in [p] + sorted;
    }
  }

  lemma AfterHead(p: Pair, head: Pair, rest: seq<Pair>)
    requires Sorted([head] + rest) && Sorted(Insert(p, rest)) && KeyLess(head.key, p.key)
    ensures Sorted([head] + Insert(p, rest))
  {
    hide KeyLess;
    var tail := Insert(p, rest);
    assert ([head] + rest)[0] == head;
    forall j | 0 <= j < |tail|
      ensures KeyLess(head.key, tail[j].key)
    {
      assert tail[j] in multiset(tail);
      if tail[j] != p {
        assert tail[j] in rest;
        var k :| 0 <= k < |rest| && rest[k] == tail[j];
        assert ([head] + rest)[k + 1] == rest[k];
      }
    }
  }

  lemma {:induction false} SortKeysSorted(pairs: seq<Pair>, keys: set<string>)
    requires DistinctKeys(pairs) && KeysIn(pairs, keys) && Orderable(keys)
    ensures Sorted(SortKeys(pairs))
  {
    hide Orderable;
    hide KeyLess;
    if pairs != [] {
      var rest := pairs[1..];
      SortKeysSorted(rest, keys);
      forall q | q in SortKeys(rest)
        ensures q.key != pairs[0].key && q.key in keys
      {
        assert q in multiset(rest);
        var k :| 0 <= k < |rest| && rest[k] == q;
        assert pairs[k + 1] == q;
      }
      InsertSorted(pairs[0], SortKeys(rest), keys);
    }
  }

  /** Sorting by insertion is such a sort. */
  lemma SortKeysSorts()
    ensures Sorts(SortKeys)
  {
    hide Orderable;
    hide Sorted;
    hide InStep;
    forall pairs | DistinctKeys(pairs)
      ensures InStep(pairs) ==> SortKeys(pairs) == pairs
      ensures forall keys | KeysIn(pairs, keys) && Orderable(keys) :: Sorted(SortKeys(pairs))
    {
      if InStep(pairs) {
        InStepStays(pairs);
      }
      forall keys | KeysIn(pairs, keys) && Orderable(keys)
        ensures Sorted(SortKeys(pairs))
      {
        SortKeysSorted(pairs, keys);
      }
    }
  }

  // ------------------------------------------------------------------ one arrangement

  lemma SameLeast(a: seq<Pair>, b: seq<Pair>)
    requires a != [] && b != [] && Sorted(a) && Sorted(b) && multiset(a) == multiset(b)
    ensures a[0] == b[0]
  {
    hide KeyLess;
    assert a[0] in multiset(b) && b[0] in multiset(a);
    KeyOrder(a[0].key, b[0].key);
  }

  /** There is one way to sort given pairs. */
  lemma {:induction false} SortedUnique(a: seq<Pair>, b: seq<Pair>)
    requires Sorted(a) && Sorted(b) && multiset(a) == multiset(b)
    ensures a == b
  {
    hide KeyLess;
    assert |a| == |multiset(a)| && |b| == |multiset(b)|;
    if a != [] {
      SameLeast(a, b);
      SameTails(a, b);
      SortedUnique(a[1..], b[1..]);
      assert a == [a[0]] + a[1..] && b == [b[0]] + b[1..];
    }
  }

  lemma SameTails(a: seq<Pair>, b: seq<Pair>)
    requires a != [] && b != [] && a[0] == b[0] && multiset(a) == multiset(b)
    ensures multiset(a[1..]) == multiset(b[1..])
  {
    assert a == [a[0]] + a[1..] && b == [b[0]] + b[1..];
    assert multiset(a) == multiset{a[0]} + multiset(a[1..]);
    assert multiset(b) == multiset{b[0]} + multiset(b[1..]);
    assert multiset(a[1..]) == multiset(a) - multiset{a[0]};
    assert multiset(b[1..]) == multiset(b) - multiset{b[0]};
  }

  lemma SameDistinct(s: seq<Pair>, t: seq<Pair>)
    requires DistinctKeys(s) && multiset(s) == multiset(t)
    ensures DistinctKeys(t)
  {
    forall i, j | 0 <= i < j < |t|
      ensures t[i].key != t[j].key
    {
      assert t[i] in multiset(t) && t[j] in multiset(t);
      assert t[i] in s && t[j] in s;
      if t[i] == t[j] {
        TwoCopies(t, i, j);
        DistinctOnce(s, t[i]);
      }
    }
  }

  lemma TwoCopies(t: seq<Pair>, i: nat, j: nat)
    requires i < j < |t| && t[i] == t[j]
    ensures multiset(t)[t[i]] >= 2
  {
    assert t == t[..j] + t[j..];
    assert t[i] in t[..j] && t[j] in t[j..];
  }

  lemma {:induction false} DistinctOnce(s: seq<Pair>, p: Pair)
    requires DistinctKeys(s)
    ensures multiset(s)[p] <= 1
  {
    if s != [] {
      assert s == [s[0]] + s[1..];
      DistinctOnce(s[1..], p);
    }
  }

  lemma SameKeysIn(s: seq<Pair>, t: seq<Pair>, keys: set<string>)
    requires multiset(s) == multiset(t) && KeysIn(s, keys)
    ensures KeysIn(t, keys)
  {
    forall p | p in t
      ensures p.key in keys
    {
      assert p in multiset(t);
    }
  }

  // ------------------------------------------------------------------ when the order of insertion matters

  /** Variables over the given keys have one text, in whatever order they were inserted. */
  ghost predicate Canonical(f: Sorter, keys: set<string>) {
    forall s, t | DistinctKeys(s) && KeysIn(s, keys) && multiset(s) == multiset(t) :: Joined(f(s)) == Joined(f(t))
  }

  lemma OrderableIsCanonical(f: Sorter, keys: set<string>)
    requires Sorts(f) && Orderable(keys)
    ensures Canonical(f, keys)
  {
    hide Orderable;
    hide Sorted;
    hide Joined;
    forall s, t | DistinctKeys(s) && KeysIn(s, keys) && multiset(s) == multiset(t)
      ensures f(s) == f(t)
    {
      SameDistinct(s, t);
      SameKeysIn(s, t, keys);
      SortedUnique(f(s), f(t));
    }
  }

  /** A text that starts with a numeric key shows that key. */
  lemma NumericFirst(p: Pair, rest: seq<Pair>)
    requires Numeric(p.key)
    ensures Before(Joined([p] + rest), '=') == p.key
  {
    hide Numeric;
    assert '=' !in p.key by {
      NumbersHaveNoEquals(p.key);
    }
    assert Pieces([p] + rest)[0] == Piece(p);
    var tail := Pieces([p] + rest)[1..];
    var after := if tail == [] then "" else "|" + Join(tail, "|");
    assert Joined([p] + rest) == p.key + ['='] + (p.value + after);
    SplitAtFirst(p.key, '=', p.value + after);
  }

  lemma NumbersHaveNoEquals(key: string)
    requires Numeric(key)
    ensures '=' !in key
  {
    assert !NumberChar('=');
    hide NumberChar;
    hide Numeric;
    NumericChars(key);
  }

  lemma StaysInStep(f: Sorter, pairs: seq<Pair>)
    requires Sorts(f) && DistinctKeys(pairs) && |pairs| <= 3 && InStep(pairs)
    ensures f(pairs) == pairs
  {
    hide Sorted;
    hide Orderable;
    hide InStep;
    hide DistinctKeys;
  }

  lemma TwoInStep(p: Pair, q: Pair)
    requires !KeyLess(q.key, p.key) && p.key != q.key
    ensures InStep([p, q]) && DistinctKeys([p, q])
  {
    hide KeyLess;
  }

  lemma ThreeInStep(p: Pair, q: Pair, r: Pair)
    requires !KeyLess(q.key, p.key) && !KeyLess(r.key, q.key)
    requires p.key != q.key && q.key != r.key && r.key != p.key
    ensures InStep([p, q, r]) && DistinctKeys([p, q, r])
  {
    hide KeyLess;
  }

  lemma SpellingsAreNumeric(a: string, b: string)
    requires LooselyEqual(a, b) && a != b
    ensures Numeric(a) && Numeric(b) && LooselyEqual(b, a)
  {
    hide NumberOf;
    hide SameNumber;
    SameBothWays(NumberOf(a).value, NumberOf(b).value);
  }

  lemma SameBothWays(m: Number, n: Number)
    requires SameNumber(m, n)
    ensures SameNumber(n, m)
  {
    assert Power(0) == 1;
  }

  /** Two spellings of one number stay in the order in which they were inserted, whatever the values. */
  lemma TieFollowsInsertion(f: Sorter, p: Pair, q: Pair)
    requires Sorts(f) && LooselyEqual(p.key, q.key) && p.key != q.key
    ensures Joined(f([p, q])) != Joined(f([q, p]))
  {
    hide *;
    KeyOrder(p.key, q.key);
    SpellingsAreNumeric(p.key, q.key);
    TwoInStep(p, q);
    TwoInStep(q, p);
    StaysInStep(f, [p, q]);
    StaysInStep(f, [q, p]);
    assert [p] + [q] == [p, q] && [q] + [p] == [q, p];
    NumericFirst(p, [q]);
    NumericFirst(q, [p]);
  }

  predicate Circle(a: string, b: string, c: string) {
    KeyLess(a, b) && KeyLess(b, c) && KeyLess(c, a)
  }

  lemma CircleInStep(p: Pair, q: Pair, r: Pair)
    requires Circle(p.key, q.key, r.key)
    ensures InStep([p, q, r]) && DistinctKeys([p, q, r])
    ensures InStep([q, r, p]) && DistinctKeys([q, r, p])
  {
    hide KeyLess;
    hide InStep;
    hide DistinctKeys;
    KeyOrder(p.key, q.key);
    KeyOrder(q.key, r.key);
    KeyOrder(r.key, p.key);
    ThreeInStep(p, q, r);
    ThreeInStep(q, r, p);
  }

  /** Three keys of which each is less than the next, and the last less than the first, are never rearranged. */
  lemma CircleFollowsInsertion(f: Sorter, p: Pair, q: Pair, r: Pair)
    requires Sorts(f) && Circle(p.key, q.key, r.key) && Numeric(p.key) && Numeric(q.key)
    ensures Joined(f([p, q, r])) != Joined(f([q, r, p]))
  {
    hide *;
    CircleInStep(p, q, r);
    StaysInStep(f, [p, q, r]);
    StaysInStep(f, [q, r, p]);
    assert [p] + [q, r] == [p, q, r] && [q] + [r, p] == [q, r, p];
    NumericFirst(p, [q, r]);
    NumericFirst(q, [r, p]);
    CircleApart(p.key, q.key, r.key);
  }

  lemma CircleApart(a: string, b: string, c: string)
    requires Circle(a, b, c)
    ensures a != b
  {
    hide KeyLess;
    KeyOrder(a, b);
  }

  lemma TieNotCanonical(f: Sorter, keys: set<string>, a: string, b: string)
    requires Sorts(f) && a in keys && b in keys && LooselyEqual(a, b) && a != b
    ensures !Canonical(f, keys)
  {
    hide Sorts;
    hide LooselyEqual;
    hide Joined;
    var p, q := Pair(a, ""), Pair(b, "");
    TieFollowsInsertion(f, p, q);
    assert multiset([p, q]) == multiset([q, p]) && DistinctKeys([p, q]) && KeysIn([p, q], keys);
  }

  lemma Rotated(p: Pair, q: Pair, r: Pair, keys: set<string>)
    requires p.key in keys && q.key in keys && r.key in keys
    ensures multiset([p, q, r]) == multiset([q, r, p]) && KeysIn([p, q, r], keys)
  {
    assert multiset([p, q, r]) == multiset{p, q, r};
    assert multiset([q, r, p]) == multiset{q, r, p};
  }

  lemma CircleNotCanonical(f: Sorter, keys: set<string>, a: string, b: string, c: string)
    requires Sorts(f) && a in keys && b in keys && c in keys
    requires Circle(a, b, c) && Numeric(a) && Numeric(b)
    ensures !Canonical(f, keys)
  {
    hide Sorts;
    hide Numeric;
    hide Circle;
    hide Joined;
    hide KeysIn;
    hide DistinctKeys;
    var p, q, r := Pair(a, ""), Pair(b, ""), Pair(c, "");
    CircleFollowsInsertion(f, p, q, r);
    CircleInStep(p, q, r);
    Rotated(p, q, r, keys);
  }

  /**
   The same variables in any order of insertion give the same text, for all values, if and only if no
   two keys are spellings of one number and the order never goes round in a circle on the keys.
   */
  lemma CanonicalExactly(f: Sorter, keys: set<string>)
    requires Sorts(f)
    ensures Canonical(f, keys) <==> Orderable(keys)
  {
    hide Sorts;
    hide Canonical;
    hide KeyLess;
    hide LooselyEqual;
    hide Numeric;
    if Orderable(keys) {
      OrderableIsCanonical(f, keys);
    } else if a, b :| a in keys && b in keys && LooselyEqual(a, b) && a != b {
      TieNotCanonical(f, keys, a, b);
    } else {
      var a, b, c :| a in keys && b in keys && c in keys && KeyLess(a, b) && KeyLess(b, c) && !KeyLess(a, c);
      KeyOrder(a, c);
      KeyOrder(a, b);
      CircleHasNumbers(a, b, c);
      if Numeric(a) && Numeric(b) {
        CircleNotCanonical(f, keys, a, b, c);
      } else if Numeric(b) && Numeric(c) {
        CircleNotCanonical(f, keys, b, c, a);
      } else {
        CircleNotCanonical(f, keys, c, a, b);
      }
    }
  }

  /** With at most one numeric key the order of insertion never matters. */
  lemma OneNumberIsOrderable(keys: set<string>)
    requires forall a, b | a in keys && b in keys && Numeric(a) && Numeric(b) :: a == b
    ensures Orderable(keys)
  {
    hide Numeric;
    hide SameNumber;
    hide KeyLess;
    forall a, b, c | a in keys && b in keys && c in keys && KeyLess(a, b) && KeyLess(b, c)
      ensures KeyLess(a, c)
    {
      KeyOrder(a, b);
      KeyOrder(a, c);
      if KeyLess(c, a) {
        CircleHasNumbers(a, b, c);
        KeyOrder(b, c);
      }
    }
  }

  /** Nine, ten and "5x" have a text that depends on the order of insertion, whatever their values. */
  lemma NineTenFiveX(f: Sorter, nine: string, ten: string, fiveX: string)
    requires Sorts(f)
    ensures var p, q, r := Pair("9", nine), Pair("10", ten), Pair("5x", fiveX);
            Joined(f([p, q, r])) != Joined(f([q, r, p]))
  {
    hide *;
    CircleOfThree();
    CircleChars();
    DigitsAreANumber("9");
    DigitsAreANumber("10");
    NumberIsNumeric("9");
    NumberIsNumeric("10");
    NineTenFiveXCircle();
    CircleFollowsInsertion(f, Pair("9", nine), Pair("10", ten), Pair("5x", fiveX));
  }

  lemma NineTenFiveXCircle()
    requires KeyLess("9", "10") && KeyLess("10", "5x") && KeyLess("5x", "9")
    ensures Circle("9", "10", "5x")
  {
    hide KeyLess;
  }

  lemma NumberIsNumeric(s: string)
    ensures NumberOf(s).Some? <==> Numeric(s)
  {
    hide NumberOf;
  }

  // ------------------------------------------------------------------ what the text says about the variables

  /** A variable whose text cannot be confused with a separator. */
  predicate Plain(p: Pair) {
    PlainKey(p.key) && '|' !in p.value
  }

  predicate PlainKey(key: string) {
    '=' !in key && '|' !in key
  }

  predicate AllPlain(pairs: seq<Pair>) {
    forall p | p in pairs :: Plain(p)
  }

  predicate PlainKeys(pairs: seq<Pair>) {
    forall p | p in pairs :: PlainKey(p.key)
  }

  lemma PieceInjective(p: Pair, q: Pair)
    requires PlainKey(p.key) && PlainKey(q.key) && Piece(p) == Piece(q)
    ensures p == q
  {
    assert Piece(p) == p.key + ['='] + p.value && Piece(q) == q.key + ['='] + q.value;
    SplitAtFirst(p.key, '=', p.value);
    SplitAtFirst(q.key, '=', q.value);
  }

  lemma NonEmptyText(pairs: seq<Pair>)
    ensures Joined(pairs) == "" <==> pairs == []
  {
  }

  lemma SamePieces(a: seq<Pair>, b: seq<Pair>)
    requires AllPlain(a) && AllPlain(b) && Joined(a) == Joined(b)
    ensures a == b
  {
    assert forall p | p in a + b :: '|' !in Piece(p);
    if a == [] || b == [] {
      NonEmptyText(a);
      NonEmptyText(b);
    } else {
      SplitJoin(Pieces(a), '|');
      SplitJoin(Pieces(b), '|');
      assert |a| == |b| && Pieces(a) == Pieces(b);
      forall i | 0 <= i < |a|
        ensures a[i] == b[i]
      {
        assert Pieces(a)[i] == Pieces(b)[i] && a[i] in a && b[i] in b;
        PieceInjective(a[i], b[i]);
      }
    }
  }

  lemma StillPlain(s: seq<Pair>, t: seq<Pair>)
    requires multiset(s) == multiset(t) && AllPlain(s)
    ensures AllPlain(t)
  {
    forall p | p in t
      ensures Plain(p)
    {
      assert p in multiset(t);
    }
  }

  /**
   Equal texts of plain variables come from equal variables; where the order of insertion does not
   matter, the text and the variables determine each other.
   */
  lemma TextDeterminesVariables(f: Sorter, keys: set<string>, s: seq<Pair>, t: seq<Pair>)
    requires Sorts(f) && DistinctKeys(s) && DistinctKeys(t) && AllPlain(s) && AllPlain(t)
    ensures Joined(f(s)) == Joined(f(t)) ==> multiset(s) == multiset(t)
    ensures Orderable(keys) && KeysIn(s, keys) && multiset(s) == multiset(t) ==> Joined(f(s)) == Joined(f(t))
  {
    hide Sorted;
    hide InStep;
    hide Orderable;
    hide Joined;
    hide AllPlain;
    StillPlain(s, f(s));
    StillPlain(t, f(t));
    if Joined(f(s)) == Joined(f(t)) {
      SamePieces(f(s), f(t));
    }
    if Orderable(keys) {
      OrderableIsCanonical(f, keys);
    }
  }

  // ------------------------------------------------------------------ what a bar in a value does

  /** No other variables with such keys have the same text. */
  ghost predicate Determined(s: seq<Pair>) {
    forall t | DistinctKeys(t) && PlainKeys(t) && HashedText(t) == HashedText(s) :: multiset(t) == multiset(s)
  }

  /** The text after a bar reads as a further variable that the sort leaves behind the first. */
  predicate Hides(key: string, rest: string) {
    var k := Before(rest, '=');
    '=' in rest && '|' !in k && k != key && !KeyLess(k, key)
  }

  predicate Splits(p: Pair) {
    exists i | 0 <= i < |p.value| :: p.value[i] == '|' && Hides(p.key, p.value[i + 1..])
  }

  /** The last two pairs as one whose value holds a bar. */
  function Merged(pairs: seq<Pair>): seq<Pair>
    requires |pairs| >= 2
  {
    var n := |pairs| - 2;
    pairs[..n] + [Pair(pairs[n].key, pairs[n].value + "|" + Piece(pairs[n + 1]))]
  }

  lemma TextOfOne(p: Pair)
    ensures Joined([p]) == Piece(p)
  {
  }

  lemma TextOfMore(pairs: seq<Pair>)
    requires |pairs| >= 2
    ensures Joined(pairs) == Piece(pairs[0]) + "|" + Joined(pairs[1..])
  {
    assert Pieces(pairs)[1..] == Pieces(pairs[1..]);
  }

  lemma TextOfTwo(p: Pair, q: Pair)
    ensures Joined([p, q]) == Piece(p) + "|" + Piece(q)
  {
    hide Joined;
    TextOfMore([p, q]);
    TextOfOne(q);
    assert [p, q][1..] == [q];
  }

  lemma {:induction false} MergedText(pairs: seq<Pair>)
    requires |pairs| >= 2
    ensures Joined(Merged(pairs)) == Joined(pairs)
  {
    hide Joined;
    TextOfMore(pairs);
    if |pairs| == 2 {
      var p, q := pairs[0], pairs[1];
      var m := Pair(p.key, p.value + "|" + Piece(q));
      assert pairs == [p, q] && Merged(pairs) == [m];
      TextOfTwo(p, q);
      TextOfOne(m);
      assert Piece(m) == Piece(p) + "|" + Piece(q);
    } else {
      MergedText(pairs[1..]);
      TextOfMore(Merged(pairs));
      assert Merged(pairs)[1..] == Merged(pairs[1..]);
    }
  }

  lemma MergedInStep(pairs: seq<Pair>)
    requires |pairs| >= 2 && InStep(pairs)
    ensures InStep(Merged(pairs))
  {
    hide KeyLess;
    var m := Merged(pairs);
    forall i | 0 < i < |m|
      ensures !KeyLess(m[i].key, m[i - 1].key)
    {
      assert m[i].key == pairs[i].key && m[i - 1].key == pairs[i - 1].key;
    }
  }

  lemma MergedKeys(pairs: seq<Pair>)
    requires |pairs| >= 2 && DistinctKeys(pairs) && PlainKeys(pairs)
    ensures DistinctKeys(Merged(pairs)) && PlainKeys(Merged(pairs))
  {
    hide PlainKey;
    var m := Merged(pairs);
    assert forall i | 0 <= i < |m| :: m[i].key == pairs[i].key;
    assert forall i | 0 <= i < |m| :: pairs[i] in pairs;
  }

  lemma SameKeys(s: seq<Pair>)
    requires DistinctKeys(s) && PlainKeys(s)
    ensures DistinctKeys(SortKeys(s)) && PlainKeys(SortKeys(s))
  {
    hide PlainKey;
    SameDistinct(s, SortKeys(s));
    forall p | p in SortKeys(s)
      ensures PlainKey(p.key)
    {
      assert p in multiset(s);
    }
  }

  /** Two or more variables share their text with one variable less. */
  lemma MergedCollides(s: seq<Pair>)
    requires DistinctKeys(s) && PlainKeys(s) && |s| >= 2
    ensures !Determined(s)
  {
    hide InStep;
    hide Joined;
    hide Merged;
    hide DistinctKeys;
    hide PlainKeys;
    var a := SortKeys(s);
    assert |a| == |multiset(a)| == |multiset(s)| == |s|;
    var t := Merged(a);
    SameKeys(s);
    SortKeysInStep(s);
    MergedInStep(a);
    MergedKeys(a);
    InStepStays(t);
    MergedText(a);
    MergedSize(a);
    assert |multiset(t)| == |t|;
  }

  lemma MergedSize(pairs: seq<Pair>)
    requires |pairs| >= 2
    ensures |Merged(pairs)| == |pairs| - 1
  {
  }

  lemma SplitPiece(p: Pair, v: string, rest: string)
    requires p.value == v + "|" + rest && '=' in rest
    ensures Piece(p) == Piece(Pair(p.key, v)) + "|" + Piece(Pair(Before(rest, '='), AfterChar(rest, '=').value))
  {
    hide Before;
    hide AfterChar;
    var q := Pair(Before(rest, '='), AfterChar(rest, '=').value);
    assert Piece(q) == rest;
    assert Piece(p) == (p.key + "=" + v) + "|" + rest;
  }

  lemma SecondKey(key: string, rest: string)
    requires Hides(key, rest)
    ensures var k := Before(rest, '=');
            '=' in rest && PlainKey(k) && k != key && !KeyLess(k, key)
  {
    hide KeyLess;
  }

  lemma SplitAtBar(p: Pair, i: nat)
    requires PlainKey(p.key) && i < |p.value| && p.value[i] == '|' && Hides(p.key, p.value[i + 1..])
    ensures !Determined([p])
  {
    hide *;
    var v, rest := p.value[..i], p.value[i + 1..];
    assert p.value == v + "|" + rest;
    SecondKey(p.key, rest);
    SplitPiece(p, v, rest);
    CollidesWithTwo(p, Pair(p.key, v), Pair(Before(rest, '='), AfterChar(rest, '=').value));
  }

  /** A value that splits hides a second variable. */
  lemma SplitCollides(p: Pair)
    requires PlainKey(p.key) && Splits(p)
    ensures !Determined([p])
  {
    hide Hides;
    hide PlainKey;
    hide Determined;
    var i :| 0 <= i < |p.value| && p.value[i] == '|' && Hides(p.key, p.value[i + 1..]);
    SplitAtBar(p, i);
  }

  lemma CollidesWithTwo(p: Pair, first: Pair, second: Pair)
    requires PlainKey(first.key) && PlainKey(second.key)
    requires first.key != second.key && !KeyLess(second.key, first.key)
    requires Piece(p) == Piece(first) + "|" + Piece(second)
    ensures !Determined([p])
  {
    hide KeyLess;
    hide PlainKey;
    hide Joined;
    hide Piece;
    hide InStep;
    hide DistinctKeys;
    var t := [first, second];
    TextOfTwo(first, second);
    TextOfOne(p);
    TwoInStep(first, second);
    OneInStep(p);
    InStepStays(t);
    InStepStays([p]);
    assert PlainKeys(t);
    assert |multiset(t)| == 2 && |multiset([p])| == 1;
  }

  /** A collection of more than one that has the text of one variable is hidden in its value. */
  lemma HiddenInValue(p: Pair, a: seq<Pair>)
    requires PlainKey(p.key) && PlainKeys(a) && DistinctKeys(a) && InStep(a) && |a| >= 2
    requires Joined(a) == Piece(p)
    ensures Splits(p)
  {
    hide KeyLess;
    hide Joined;
    var i := |a[0].value|;
    var rest := Joined(a[1..]);
    TextOfMore(a);
    assert a[0] in a && a[1] in a;
    assert Piece(p) == p.key + ['='] + p.value;
    assert Piece(p) == a[0].key + ['='] + (a[0].value + "|" + rest);
    SplitAtFirst(p.key, '=', p.value);
    SplitAtFirst(a[0].key, '=', a[0].value + "|" + rest);
    assert p.value == a[0].value + "|" + rest;
    assert p.value[i] == '|' && p.value[i + 1..] == rest;
    StartsWithKey(a[1..]);
    assert a[1..][0] == a[1];
    assert Hides(p.key, p.value[i + 1..]);
  }

  lemma StartsWithKey(a: seq<Pair>)
    requires a != [] && PlainKey(a[0].key)
    ensures '=' in Joined(a) && Before(Joined(a), '=') == a[0].key
  {
    hide Joined;
    if |a| == 1 {
      assert a == [a[0]];
      TextOfOne(a[0]);
      SplitAtFirst(a[0].key, '=', a[0].value);
      assert Piece(a[0]) == a[0].key + ['='] + a[0].value;
    } else {
      TextOfMore(a);
      var after := a[0].value + "|" + Joined(a[1..]);
      assert Joined(a) == a[0].key + ['='] + after;
      SplitAtFirst(a[0].key, '=', after);
    }
  }

  lemma SameTextAsOne(p: Pair, t: seq<Pair>)
    requires PlainKey(p.key) && !Splits(p)
    requires DistinctKeys(t) && PlainKeys(t) && HashedText(t) == HashedText([p])
    ensures multiset(t) == multiset([p])
  {
    hide Splits;
    hide InStep;
    hide Joined;
    hide PlainKey;
    var a := SortKeys(t);
    SameKeys(t);
    SortKeysInStep(t);
    OneInStep(p);
    InStepStays([p]);
    TextOfOne(p);
    NonEmptyText(a);
    NonEmptyText([p]);
    if |a| >= 2 {
      HiddenInValue(p, a);
    } else {
      assert a == [a[0]] && a[0] in a;
      TextOfOne(a[0]);
      PieceInjective(a[0], p);
    }
  }

  lemma OneInStep(p: Pair)
    ensures InStep([p])
  {
  }

  /**
   Among variables whose keys hold no separator, the text determines none of two or more, and a single
   one exactly when its value does not split.
   */
  lemma DeterminedExactly(s: seq<Pair>)
    requires DistinctKeys(s) && PlainKeys(s)
    ensures Determined(s) <==> s == [] || (|s| == 1 && !Splits(s[0]))
  {
    hide DistinctKeys;
    hide Splits;
    hide Joined;
    if |s| >= 2 {
      MergedCollides(s);
    } else if |s| == 1 {
      assert s == [s[0]] && PlainKey(s[0].key);
      if Splits(s[0]) {
        SplitCollides(s[0]);
      } else {
        forall t | DistinctKeys(t) && PlainKeys(t) && HashedText(t) == HashedText(s)
          ensures multiset(t) == multiset(s)
        {
          SameTextAsOne(s[0], t);
        }
      }
    } else {
      forall t | DistinctKeys(t) && PlainKeys(t) && HashedText(t) == HashedText(s)
        ensures multiset(t) == multiset(s)
      {
        NonEmptyText(SortKeys(t));
        NonEmptyText(SortKeys(s));
        assert |multiset(SortKeys(t))| == 0;
      }
    }
  }
}
