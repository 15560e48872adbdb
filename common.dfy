/** Vocabulary shared by every stage: tallies, exact percentages, insertion-ordered
    topic tables, and the sequence operations Python lists and pandas frames provide. */
module Common {

  datatype Option<T> = None | Some(value: T)

  /** A `{'correct': c, 'total': t}` counter. */
  datatype Tally = Tally(correct: nat, total: nat)

  /** `correct / total * 100`, computed exactly (the source guards `total > 0` at every use). */
  function Percent(correct: nat, total: nat): (r: real)
    requires total > 0
    ensures r >= 0.0
    ensures correct <= total ==> r <= 100.0
    ensures r * (total as real) == (correct as real) * 100.0
  {
    (correct as real) / (total as real) * 100.0
  }

  /** Scaling by a positive factor keeps the order of two reals. */
  lemma ScaleOrder(a: real, b: real, t: real)
    requires t > 0.0
    ensures a >= b <==> a * t >= b * t
  {
    assert a * t - b * t == (a - b) * t;
  }

  /** A threshold test on a percentage is the same as a test on cross-multiplied counts. */
  lemma PercentAtLeast(correct: nat, total: nat, k: int)
    requires total > 0
    ensures Percent(correct, total) >= k as real <==> correct * 100 >= k * total
  {
    var t := total as real;
    ScaleOrder(Percent(correct, total), k as real, t);
    assert ((k * total) as real) == (k as real) * t;
    assert ((correct * 100) as real) == (correct as real) * 100.0;
  }

  /** More correct answers out of the same total never lower the percentage. */
  lemma PercentMonotone(c1: nat, c2: nat, total: nat)
    requires total > 0 && c1 <= c2
    ensures Percent(c1, total) <= Percent(c2, total)
  {
    var t := total as real;
    assert Percent(c2, total) - Percent(c1, total) == ((c2 - c1) as real) / t * 100.0;
  }

  /** No element occurs twice. */
  ghost predicate Distinct<T>(s: seq<T>)
  {
    forall i, j :: 0 <= i < j < |s| ==> s[i] != s[j]
  }

  /** The position of the first occurrence of `x` in `s`. */
  function FirstIndex<T(==)>(s: seq<T>, x: T): (k: nat)
    requires x in s
    ensures k < |s| && s[k] == x && x !in s[..k]
  {
    if s[0] == x then 0 else 1 + FirstIndex(s[1..], x)
  }

  /** The distinct elements of `s`, each where it first appears (pandas `unique()`, dict insertion order). */
  function Unique<T(==,!new)>(s: seq<T>): (r: seq<T>)
    ensures Distinct(r)
    ensures forall x :: x in r <==> x in s
    ensures |r| <= |s|
  {
    if |s| == 0 then []
    else
      var u := Unique(s[..|s| - 1]);
      if s[|s| - 1] in u then u else u + [s[|s| - 1]]
  }

  /** Appending one element adds it to `Unique` exactly when it is new. */
  lemma UniqueSnoc<T(!new)>(s: seq<T>, x: T)
    ensures Unique(s + [x]) == if x in s then Unique(s) else Unique(s) + [x]
  {
    assert (s + [x])[..|s|] == s;
  }

  lemma FirstIndexPrefix<T>(s: seq<T>, n: nat, x: T)
    requires n <= |s| && x in s[..n]
    ensures FirstIndex(s[..n], x) == FirstIndex(s, x)
  {
    var k := FirstIndex(s[..n], x);
    assert s[..n][..k] == s[..k];
    assert s[k] == x;
  }

  /** Every element of `ts` occurs in `s`, and they are listed in the order of their first
      occurrences there. */
  ghost predicate Ordered<T>(s: seq<T>, ts: seq<T>)
  {
    (forall t :: t in ts ==> t in s)
    && forall i, j :: 0 <= i < j < |ts| ==> FirstIndex(s, ts[i]) < FirstIndex(s, ts[j])
  }

  /** An order relative to a prefix of `s` is one relative to `s`, ahead of everything after the prefix. */
  lemma OrderedPrefix<T>(s: seq<T>, n: nat, ts: seq<T>)
    requires n <= |s| && Ordered(s[..n], ts)
    ensures Ordered(s, ts)
    ensures forall t :: t in ts ==> FirstIndex(s, t) < n
  {
    forall t | t in ts ensures FirstIndex(s, t) == FirstIndex(s[..n], t) < n {
      FirstIndexPrefix(s, n, t);
    }
  }

  /** Appending an element that first occurs after all listed ones keeps the order. */
  lemma OrderedSnoc<T>(s: seq<T>, ts: seq<T>, x: T)
    requires Ordered(s, ts) && x in s
    requires forall t :: t in ts ==> FirstIndex(s, t) < FirstIndex(s, x)
    ensures Ordered(s, ts + [x])
  {
    var r := ts + [x];
    forall i, j | 0 <= i < j < |r| ensures FirstIndex(s, r[i]) < FirstIndex(s, r[j]) {
      assert r[i] == ts[i] && ts[i] in ts;
      if j < |ts| {
        assert r[j] == ts[j];
      }
    }
  }

  /** `Unique` lists the elements in the order of their first appearance. */
  lemma {:induction false} UniqueFirstAppearance<T(!new)>(s: seq<T>)
    ensures forall i, j :: 0 <= i < j < |Unique(s)| ==> FirstIndex(s, Unique(s)[i]) < FirstIndex(s, Unique(s)[j])
  {
    if |s| > 0 {
      var p := s[..|s| - 1];
      var x := s[|s| - 1];
      var u := Unique(p);
      UniqueFirstAppearance(p);
      forall y | y in u ensures FirstIndex(s, y) == FirstIndex(p, y) && FirstIndex(s, y) < |s| - 1 {
        FirstIndexPrefix(s, |s| - 1, y);
      }
      if x !in u {
        assert FirstIndex(s, x) == |s| - 1 by {
          assert s[..|s| - 1] == p;
        }
        assert forall i :: 0 <= i < |u| ==> Unique(s)[i] == u[i];
      }
    }
  }

  /** Python's slice `s[:n]`. */
  function Take<T>(s: seq<T>, n: nat): (r: seq<T>)
    ensures |r| == if n < |s| then n else |s|
    ensures r <= s
    ensures multiset(r) <= multiset(s)
  {
    if n < |s| then
      assert s == s[..n] + s[n..];
      s[..n]
    else s
  }

  /** Exchange two positions. */
  function Swap<T>(s: seq<T>, i: nat, j: nat): (r: seq<T>)
    requires i < |s| && j < |s|
    ensures |r| == |s| && multiset(r) == multiset(s)
  {
    s[i := s[j]][j := s[i]]
  }

  /** The Fisher-Yates pass of `random.shuffle` (and of numpy's permutation) over positions
      `i` down to 1: position `i` is exchanged with position `draw(i) % (i + 1)`, where
      `draw` stands for the random number generator and is supplied by the caller. */
  function ShuffleDown<T>(s: seq<T>, i: nat, draw: nat -> nat): (r: seq<T>)
    requires i < |s|
    ensures |r| == |s| && multiset(r) == multiset(s)
    decreases i
  {
    if i == 0 then s else ShuffleDown(Swap(s, i, draw(i) % (i + 1)), i - 1, draw)
  }

  /** `random.shuffle(s)`: a permutation of `s` chosen by the draws. */
  function Shuffled<T>(s: seq<T>, draw: nat -> nat): (r: seq<T>)
    ensures |r| == |s| && multiset(r) == multiset(s)
  {
    if |s| == 0 then s else ShuffleDown(s, |s| - 1, draw)
  }

  /** Sum of a sequence of naturals. */
  function Sum(s: seq<nat>): nat
  {
    if |s| == 0 then 0 else Sum(s[..|s| - 1]) + s[|s| - 1]
  }

  /** An insertion-ordered `dict` from topic to tally, as `topic_performance` is. */
  datatype TopicTable = TopicTable(order: seq<string>, tallies: map<string, Tally>)
  {
    /** The keys in `order` are the dictionary's keys, each once. */
    ghost predicate Valid()
    {
      Distinct(order) && forall t :: t in tallies <==> t in order
    }
  }
}
