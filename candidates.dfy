/** The two operations the processors apply to a jagged collection of
    candidates within one event: forming the pairs of distinct candidates
    (`distincts()`) and picking the leading one (`argmax()` of pt). */
module Candidates {

  /** The pairs of candidates at positions a < b, listed as distincts() lists
      them: the first candidate with every later one, then the same for the
      rest. */
  function Distincts<T>(xs: seq<T>): (ps: seq<(T, T)>)
    ensures |xs| < 2 ==> ps == []
  {
    if |xs| < 2 then []
    else seq(|xs| - 1, j requires 0 <= j < |xs| - 1 => (xs[0], xs[j + 1])) + Distincts(xs[1..])
  }

  /** A pair is listed exactly when it is made of the candidates at two
      positions a < b. */
  lemma {:induction false} DistinctsMembership<T>(xs: seq<T>, p: (T, T))
    ensures p in Distincts(xs) <==> exists a, b :: 0 <= a < b < |xs| && p == (xs[a], xs[b])
  {
    if |xs| >= 2 {
      var head := seq(|xs| - 1, j requires 0 <= j < |xs| - 1 => (xs[0], xs[j + 1]));
      assert Distincts(xs) == head + Distincts(xs[1..]);
      DistinctsMembership(xs[1..], p);
      if p in Distincts(xs) {
        if p in head {
          var j :| 0 <= j < |xs| - 1 && head[j] == p;
          assert p == (xs[0], xs[j + 1]);
        } else {
          var a, b :| 0 <= a < b < |xs| - 1 && p == (xs[1..][a], xs[1..][b]);
          assert p == (xs[a + 1], xs[b + 1]);
        }
      }
      if exists a, b :: 0 <= a < b < |xs| && p == (xs[a], xs[b]) {
        var a, b :| 0 <= a < b < |xs| && p == (xs[a], xs[b]);
        if a == 0 {
          assert head[b - 1] == p;
        } else {
          assert p == (xs[1..][a - 1], xs[1..][b - 1]);
        }
      }
    }
  }

  /** Some listed pair satisfies `ok` exactly when the candidates at some
      positions a < b do. */
  lemma DistinctsSome<T>(xs: seq<T>, ok: (T, T) -> bool)
    ensures (exists p :: p in Distincts(xs) && ok(p.0, p.1)) <==> exists a, b :: 0 <= a < b < |xs| && ok(xs[a], xs[b])
  {
    if exists p :: p in Distincts(xs) && ok(p.0, p.1) {
      var p :| p in Distincts(xs) && ok(p.0, p.1);
      DistinctsMembership(xs, p);
    }
    if exists a, b :: 0 <= a < b < |xs| && ok(xs[a], xs[b]) {
      var a, b :| 0 <= a < b < |xs| && ok(xs[a], xs[b]);
      DistinctsMembership(xs, (xs[a], xs[b]));
    }
  }

  /** The first two candidates of an event, or all of them when it has fewer (`[:, :2]`). */
  function LeadingTwo<T>(xs: seq<T>): (ys: seq<T>)
    ensures |ys| == if |xs| < 2 then |xs| else 2
    ensures ys <= xs
  {
    if |xs| < 2 then xs else xs[..2]
  }

  /** Restricted to the first two candidates, distincts() yields the one pair
      of the two leading candidates, or nothing when there are fewer than two. */
  lemma {:induction false} DistinctsOfLeadingTwo<T>(xs: seq<T>)
    ensures Distincts(LeadingTwo(xs)) == if |xs| >= 2 then [(xs[0], xs[1])] else []
  {
    if |xs| >= 2 {
      var two := LeadingTwo(xs);
      assert Distincts(two[1..]) == [];
      assert Distincts(two) == [(two[0], two[1])];
    }
  }

  /** `abseta`: the absolute value of a pseudorapidity. */
  function Abs(x: real): real
  {
    if x < 0.0 then -x else x
  }

  /** The position of the first largest value, as argmax() picks it. */
  function ArgMax(xs: seq<real>): (k: nat)
    requires |xs| > 0
    ensures k < |xs|
    ensures forall j :: 0 <= j < |xs| ==> xs[j] <= xs[k]
    ensures forall j :: 0 <= j < k ==> xs[j] < xs[k]
  {
    if |xs| == 1 then 0
    else
      var k := ArgMax(xs[..|xs| - 1]);
      if xs[|xs| - 1] > xs[k] then |xs| - 1 else k
  }

  /** `.any()` over one event's per-candidate booleans. */
  function Any(bs: seq<bool>): bool
  {
    |bs| > 0 && (bs[0] || Any(bs[1..]))
  }

  lemma {:induction false} AnyExists(bs: seq<bool>)
    ensures Any(bs) <==> exists k :: 0 <= k < |bs| && bs[k]
  {
    if |bs| > 0 {
      AnyExists(bs[1..]);
      if exists k :: 0 <= k < |bs| && bs[k] {
        var k :| 0 <= k < |bs| && bs[k];
        if k > 0 {
          assert bs[1..][k - 1];
        }
      }
      if Any(bs[1..]) {
        var k :| 0 <= k < |bs| - 1 && bs[1..][k];
        assert bs[k + 1];
      }
    }
  }
}
