/** The list object: its iterator and its in-place shuffle.  The shuffle takes `rand() % i` below i, so it
    is Sattolo's algorithm: it never leaves an element where it was. */
module Shuffle {
  import opened Values

  // ----- cyclic arrangements -----

  /** Entry k of choices is the j that is drawn at step k + 1, below k + 1. */
  predicate Choices(ch: seq<nat>) {
    forall k :: 0 <= k < |ch| ==> ch[k] <= k
  }

  /** Where the shuffle takes each element from: result[k] is the element that was at Arrangement[k]. */
  function Arrangement(ch: seq<nat>): (p: seq<nat>)
    requires Choices(ch)
    ensures |p| == |ch| + 1
    ensures forall k :: 0 <= k < |p| ==> p[k] < |p|
  {
    if ch == [] then [0] else
    var n := |ch|;
    Insert(Arrangement(ch[..n - 1]), ch[n - 1])
  }

  /** Make room for a new last element n: n takes the place of j, and j moves to the end. */
  function Insert(q: seq<nat>, j: nat): (p: seq<nat>)
    ensures |p| == |q| + 1
    ensures (forall k :: 0 <= k < |q| ==> q[k] < |q|) && j <= |q| ==> forall k :: 0 <= k < |p| ==> p[k] < |p|
  {
    seq(|q|, k requires 0 <= k < |q| => if q[k] == j then |q| else q[k]) + [j]
  }

  /** p goes once around through the elements of c, in this order. */
  predicate Around(p: seq<nat>, c: seq<nat>) {
    && |c| == |p|
    && (forall t :: 0 <= t < |c| ==> c[t] < |p|)
    && (forall t, u :: 0 <= t < u < |c| ==> c[t] != c[u])
    && (forall t :: 0 <= t < |c| - 1 ==> p[c[t]] == c[t + 1])
    && (c != [] ==> p[c[|c| - 1]] == c[0])
  }

  /** A single cycle through all positions. */
  ghost predicate SingleCycle(p: seq<nat>) {
    exists c :: Around(p, c)
  }

  /** Every position is on the cycle. */
  lemma {:induction false} Covers(n: nat, c: seq<nat>, x: nat)
    requires |c| == n && x < n
    requires forall t :: 0 <= t < |c| ==> c[t] < n
    requires forall t, u :: 0 <= t < u < |c| ==> c[t] != c[u]
    ensures x in c
    decreases n
  {
    if x !in c {
      // Leave out position n - 1, or x in its stead.
      if x == n - 1 {
        Pigeon(n - 1, c);
      } else {
        var d := seq(n, t requires 0 <= t < n => if c[t] == n - 1 then x else c[t]);
        Pigeon(n - 1, d);
      }
    }
  }

  /** There are not more than m different numbers below m. */
  lemma {:induction false} Pigeon(m: nat, c: seq<nat>)
    requires forall t :: 0 <= t < |c| ==> c[t] < m
    requires forall t, u :: 0 <= t < u < |c| ==> c[t] != c[u]
    ensures |c| <= m
    decreases m
  {
    if c == [] { return; }
    assert 0 <= c[0] < m;
    if t :| 0 <= t < |c| && c[t] == m - 1 {
      Pigeon(m - 1, c[..t] + c[t + 1..]);
    } else {
      Pigeon(m - 1, c);
    }
  }

  lemma InsertAround(q: seq<nat>, j: nat, c: seq<nat>) returns (d: seq<nat>)
    requires j < |q| && Around(q, c)
    ensures Around(Insert(q, j), d)
  {
    Covers(|q|, c, j);
    var t :| 0 <= t < |c| && c[t] == j;
    var n := |q|;
    d := c[..t] + [n] + c[t..];
    var p := Insert(q, j);
    InsertedDistinct(c, t, n);
    hide Insert;
    forall u | 0 <= u < |d| ensures p[d[u]] == d[if u < n then u + 1 else 0] {
      Follows(q, j, c, t, u);
    }
  }

  lemma InsertedDistinct(c: seq<nat>, t: nat, n: nat)
    requires t <= |c| && forall u :: 0 <= u < |c| ==> c[u] < n
    requires forall u, v :: 0 <= u < v < |c| ==> c[u] != c[v]
    ensures var d := c[..t] + [n] + c[t..];
            (forall u, v :: 0 <= u < v < |d| ==> d[u] != d[v]) && forall u :: 0 <= u < |d| ==> d[u] <= n
  {
    var d := c[..t] + [n] + c[t..];
    forall u, v | 0 <= u < v < |d| ensures d[u] != d[v] {
      assert d[u] == if u < t then c[u] else if u == t then n else c[u - 1];
      assert d[v] == if v < t then c[v] else if v == t then n else c[v - 1];
    }
  }

  /** The step from place u of the longer cycle. */
  lemma Follows(q: seq<nat>, j: nat, c: seq<nat>, t: nat, u: nat)
    requires j < |q| && Around(q, c) && t < |c| && c[t] == j && u <= |q|
    ensures var d := c[..t] + [|q|] + c[t..];
            && d[u] <= |q| && Insert(q, j)[d[u]] == d[if u < |q| then u + 1 else 0]
  {
    var n, p, d := |q|, Insert(q, j), c[..t] + [|q|] + c[t..];
    if u == t {
      assert d[u] == n && d[u + 1] == j;
    } else {
      var v := if u < t then u else u - 1;
      var w := if v < n - 1 then v + 1 else 0;
      assert d[u] == c[v] && q[c[v]] == c[w];
      assert (c[w] == j) == (w == t);
    }
  }

  /** Whatever is drawn, the shuffle is one cycle through all positions. */
  lemma {:induction false} ArrangementCycle(ch: seq<nat>)
    requires Choices(ch)
    ensures SingleCycle(Arrangement(ch))
  {
    if ch == [] {
      assert Around(Arrangement(ch), [0]);
    } else {
      var n := |ch|;
      ArrangementCycle(ch[..n - 1]);
      var q := Arrangement(ch[..n - 1]);
      var c :| Around(q, c);
      var d := InsertAround(q, ch[n - 1], c);
    }
  }

  /** No position keeps its element. */
  lemma NoFixedPoint(p: seq<nat>, k: nat)
    requires SingleCycle(p) && |p| >= 2 && k < |p|
    ensures p[k] != k
  {
    var c :| Around(p, c);
    Covers(|p|, c, k);
    var t :| 0 <= t < |c| && c[t] == k;
    assert p[k] == c[if t < |c| - 1 then t + 1 else 0];
  }

  // ----- each cycle arises in exactly one way -----

  /** Undo the insertion of the last position. */
  function Remove(p: seq<nat>): (q: seq<nat>)
    requires p != []
    ensures |q| == |p| - 1
  {
    var n := |p| - 1;
    seq(n, k requires 0 <= k < n => if p[k] == n then p[n] else p[k])
  }

  lemma RemoveInsert(q: seq<nat>, j: nat)
    requires forall k :: 0 <= k < |q| ==> q[k] < |q|
    ensures Remove(Insert(q, j)) == q
  {
  }

  /** Different draws give different arrangements. */
  lemma {:induction false} Injective(a: seq<nat>, b: seq<nat>)
    requires Choices(a) && Choices(b) && Arrangement(a) == Arrangement(b)
    ensures a == b
  {
    assert |a| == |b|;
    var n := |a|;
    if n > 0 {
      var p, q := Arrangement(a[..n - 1]), Arrangement(b[..n - 1]);
      RemoveInsert(p, a[n - 1]);
      RemoveInsert(q, b[n - 1]);
      assert Arrangement(a)[n] == a[n - 1] && Arrangement(b)[n] == b[n - 1];
      Injective(a[..n - 1], b[..n - 1]);
      assert a == a[..n - 1] + [a[n - 1]] && b == b[..n - 1] + [b[n - 1]];
    }
  }

  /** Start the walk around the cycle somewhere else. */
  lemma Rotate(p: seq<nat>, c: seq<nat>, t: nat) returns (d: seq<nat>)
    requires Around(p, c) && t < |c|
    ensures Around(p, d) && d[0] == c[t]
  {
    d := c[t..] + c[..t];
    forall u | 0 <= u < |d| - 1 ensures p[d[u]] == d[u + 1] {
      if u < |c| - t - 1 {
        assert d[u] == c[t + u] && d[u + 1] == c[t + u + 1];
      } else if u >= |c| - t {
        assert d[u] == c[u - (|c| - t)];
      }
    }
  }

  lemma RemoveAround(p: seq<nat>, c: seq<nat>)
    requires |p| >= 2 && Around(p, c) && c[0] == |p| - 1
    ensures Around(Remove(p), c[1..])
    ensures p[|p| - 1] < |p| - 1 && Insert(Remove(p), p[|p| - 1]) == p
  {
    var n, q, d := |p| - 1, Remove(p), c[1..];
    assert p[n] == c[1];
    forall t | 0 <= t < |d| ensures d[t] < n { assert c[0] != c[t + 1]; }
    forall t | 0 <= t < |d| - 1 ensures q[d[t]] == d[t + 1] {
      assert p[c[t + 1]] == c[t + 2] && c[0] != c[t + 2];
    }
    var r := Insert(q, p[n]);
    forall k | 0 <= k < n ensures r[k] == p[k] {
      Covers(|p|, c, k);
      var t :| 0 <= t < |c| && c[t] == k;
      // Only n is followed by p[n].
      assert t > 0 && p[k] == c[if t < |c| - 1 then t + 1 else 0];
      assert p[k] != c[1];
    }
    assert r == p;
  }

  /** Every cyclic arrangement is drawn by some choices. */
  lemma {:induction false} Onto(p: seq<nat>) returns (ch: seq<nat>)
    requires p != [] && SingleCycle(p)
    ensures Choices(ch) && Arrangement(ch) == p
    decreases |p|
  {
    var c :| Around(p, c);
    var n := |p| - 1;
    if n == 0 {
      assert p[0] == 0 by { assert c[0] == 0; }
      ch := [];
    } else {
      Covers(|p|, c, n);
      var t :| 0 <= t < |c| && c[t] == n;
      var d := Rotate(p, c, t);
      RemoveAround(p, d);
      var rest := Onto(Remove(p));
      ch := rest + [p[n]];
      assert ch[..|rest|] == rest;
    }
  }

  // ----- the list object -----

  /** The draws for positions n - 1 down to 1, in the order in which they are made, as choices. */
  function Draws(rand: seq<nat>, n: nat): (ch: seq<nat>)
    requires n - 1 <= |rand|
    ensures Choices(ch) && |ch| == if n == 0 then 0 else n - 1
  {
    seq(if n == 0 then 0 else n - 1, k requires 0 <= k < n - 1 => Draw(rand[n - 2 - k], k + 1))
  }

  /** A random number cut down to below i. */
  function Draw(r: nat, i: nat): (j: nat)
    requires i > 0
    ensures j < i
  {
    r % i
  }

  lemma DrawsAt(rand: seq<nat>, n: nat, i: nat)
    requires n - 1 <= |rand| && 1 <= i < n
    ensures Draws(rand, n)[i - 1] == Draw(rand[n - 1 - i], i)
  {
    hide Draw;
  }

  /** The draw for position i is below i, and is its random number but for a multiple q of i. */
  lemma Drawn(rand: seq<nat>, n: nat, i: nat) returns (q: nat)
    requires n - 1 <= |rand| && 1 <= i < n
    ensures Draws(rand, n)[i - 1] < i && rand[n - 1 - i] == q * i + Draws(rand, n)[i - 1]
    ensures rand[n - 1 - i] < i ==> Draws(rand, n)[i - 1] == rand[n - 1 - i]
  {
    DrawsAt(rand, n, i);
    q := rand[n - 1 - i] / i;
  }

  /** Random numbers that make given choices: they are asked for from the last position down. */
  function Asked(ch: seq<nat>): (rand: seq<nat>)
    ensures |rand| == |ch|
  {
    seq(|ch|, k requires 0 <= k < |ch| => ch[|ch| - 1 - k])
  }

  lemma AskedDrawn(ch: seq<nat>)
    requires Choices(ch)
    ensures Draws(Asked(ch), |ch| + 1) == ch
  {
    hide Draws;
    var n, rand := |ch| + 1, Asked(ch);
    forall k | 0 <= k < |ch| ensures Draws(rand, n)[k] == ch[k] {
      var q := Drawn(rand, n, k + 1);
    }
  }

  /** Every cyclic arrangement is what a shuffle makes of some random numbers. */
  lemma EveryCycleDrawn(p: seq<nat>) returns (rand: seq<nat>)
    requires p != [] && SingleCycle(p)
    ensures |rand| == |p| - 1 && Arrangement(Draws(rand, |p|)) == p
  {
    hide Draws;
    var ch := Onto(p);
    rand := Asked(ch);
    AskedDrawn(ch);
  }

  /** The elements taken from where an arrangement says. */
  function Arranged<T>(s: seq<T>, p: seq<nat>): (r: seq<T>)
    requires forall k :: 0 <= k < |p| ==> p[k] < |s|
    ensures |r| == |p|
  {
    seq(|p|, k requires 0 <= k < |p| => s[p[k]])
  }

  class ListObject<T> {
    var table: array<T>
    var idx: nat

    constructor (table: array<T>)
      ensures this.table == table && idx == 0
    {
      this.table, idx := table, 0;
    }

    method Rewind()
      modifies this`idx
      ensures idx == 0
    {
      idx := 0;
    }

    method Key() returns (key: nat)
      ensures key == idx
    {
      key := idx;
    }

    /** The element at the cursor; nothing past the end. */
    method Value() returns (value: Option<T>)
      ensures value == if idx < table.Length then Some(table[idx]) else None
    {
      value := if idx < table.Length then Some(table[idx]) else None;
    }

    method HasNext() returns (more: bool)
      ensures more == (idx < table.Length)
    {
      more := idx < table.Length;
    }

    method Next()
      modifies this`idx
      ensures idx == old(idx) + 1
    {
      idx := idx + 1;
    }

    /** One fetch of an iteration: value and key first, then the question whether they are there, then the
        step.  It stops at the end however often it is repeated. */
    method Fetch() returns (value: Option<T>, key: nat, more: bool)
      modifies this`idx
      ensures Turn(value, key, more, idx) == TurnAt(table[..], old(idx))
    {
      value := Value();
      key := Key();
      more := HasNext();
      if more { Next(); }
    }

    /** `rand` holds the results of the successive calls of rand(). */
    method Shuffle(rand: seq<nat>)
      requires table.Length - 1 <= |rand|
      modifies table
      ensures table.Length > 0 ==> table[..] == Arranged(old(table[..]), Arrangement(Draws(rand, table.Length)))
      ensures multiset(table[..]) == multiset(old(table[..]))
    {
      hide Arrangement, Arranged, Choices, Remaining, Draw, Draws;
      var n := table.Length;
      ghost var ch := Draws(rand, n);
      ghost var goal := if n == 0 then [] else Arranged(table[..], Arrangement(ch));
      if n > 0 { RemainingAll(table[..], ch, goal); }
      var i := n - 1;
      while i >= 1
        invariant n == 0 || 0 <= i <= n - 1
        invariant multiset(table[..]) == multiset(old(table[..]))
        invariant n > 0 ==> Remaining(table[..], ch, i, goal)
      {
        var j := Draw(rand[n - 1 - i], i);
        ghost var before := table[..];
        var obj1, obj2 := table[i], table[j];
        table[i] := obj2;
        table[j] := obj1;
        assert table[..] == Swapped(before, i, j);
        DrawsAt(rand, n, i);
        SwappedSame(before, i, j);
        RemainingStep(before, ch, i, goal);
        i := i - 1;
      }
      if n > 0 { RemainingNone(table[..], ch, goal); }
    }
  }

  /** What is still to be done for positions 0 to i turns s into goal. */
  ghost predicate Remaining<T>(s: seq<T>, ch: seq<nat>, i: nat, goal: seq<T>) {
    && Choices(ch) && |s| == |goal| == |ch| + 1 && i <= |ch|
    && (forall k :: 0 <= k <= i ==> goal[k] == s[Arrangement(ch[..i])[k]])
    && (forall k :: i < k < |s| ==> goal[k] == s[k])
  }

  lemma RemainingAll<T>(s: seq<T>, ch: seq<nat>, goal: seq<T>)
    requires Choices(ch) && |s| == |ch| + 1 && goal == Arranged(s, Arrangement(ch))
    ensures Remaining(s, ch, |ch|, goal)
  {
    assert ch[..|ch|] == ch;
  }

  function Swapped<T>(s: seq<T>, i: nat, j: nat): seq<T>
    requires i < |s| && j < |s|
  {
    s[i := s[j]][j := s[i]]
  }

  lemma SwappedSame<T>(s: seq<T>, i: nat, j: nat)
    requires i < |s| && j < |s|
    ensures multiset(Swapped(s, i, j)) == multiset(s)
  {
  }

  lemma RemainingStep<T>(s: seq<T>, ch: seq<nat>, i: nat, goal: seq<T>)
    requires i > 0 && Remaining(s, ch, i, goal)
    ensures Remaining(Swapped(s, i, ch[i - 1]), ch, i - 1, goal)
  {
    var j := ch[i - 1];
    var t := Swapped(s, i, j);
    assert ch[..i][..i - 1] == ch[..i - 1];
    var q := Arrangement(ch[..i - 1]);
    var p := Arrangement(ch[..i]);
    assert p == Insert(q, j);
    hide Arrangement;
    forall k | 0 <= k <= i - 1 ensures goal[k] == t[q[k]] {
      assert goal[k] == s[p[k]];
    }
    assert goal[i] == s[p[i]] == t[i];
  }

  lemma RemainingNone<T>(s: seq<T>, ch: seq<nat>, goal: seq<T>)
    requires Remaining(s, ch, 0, goal)
    ensures s == goal
  {
    assert Arrangement(ch[..0]) == [0];
  }

  /** After a shuffle of two or more elements, no position holds the element it held before. */
  lemma Deranged<T>(s: seq<T>, rand: seq<nat>, k: nat)
    requires 2 <= |s| && |s| - 1 <= |rand| && k < |s|
    requires forall a, b :: 0 <= a < b < |s| ==> s[a] != s[b]
    ensures Arranged(s, Arrangement(Draws(rand, |s|)))[k] != s[k]
  {
    var p := Arrangement(Draws(rand, |s|));
    ArrangementCycle(Draws(rand, |s|));
    NoFixedPoint(p, k);
  }
}
