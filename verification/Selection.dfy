/** Results of ordered, bounded queries: ORDER BY up to two columns and then the id, LIMIT n. */
module Selection {
  import opened Basics

  type Id = nat

  /** The columns a query orders by, before the id. */
  datatype Rank = Rank(first: int, second: int)

  predicate Precedes(rank: Id -> Rank, a: Id, b: Id) {
    var p, q := rank(a), rank(b);
    p.first < q.first
    || (p.first == q.first && (p.second < q.second || (p.second == q.second && a <= b)))
  }

  lemma PrecedesIsAnOrder(rank: Id -> Rank, a: Id, b: Id, c: Id)
    ensures Precedes(rank, a, b) || Precedes(rank, b, a)
    ensures Precedes(rank, a, b) && Precedes(rank, b, c) ==> Precedes(rank, a, c)
  {
  }

  lemma {:induction false} LeastExists(ids: set<Id>, rank: Id -> Rank)
    requires ids != {}
    ensures exists f :: f in ids && forall x | x in ids :: Precedes(rank, f, x)
  {
    var x :| x in ids;
    var f := x;
    PrecedesIsAnOrder(rank, x, x, x);
    if ids != {x} {
      LeastExists(ids - {x}, rank);
      var g :| g in ids - {x} && forall y | y in ids - {x} :: Precedes(rank, g, y);
      if Precedes(rank, g, x) {
        f := g;
      }
      hide Precedes;
      forall y | y in ids ensures Precedes(rank, f, y) {
        assert y == x || y in ids - {x};
        PrecedesIsAnOrder(rank, x, g, y);
      }
    }
    assert f in ids && forall y | y in ids :: Precedes(rank, f, y);
  }

  /** The first row of the result. */
  function Least(ids: set<Id>, rank: Id -> Rank): (f: Id)
    requires ids != {}
    ensures f in ids && forall x | x in ids :: Precedes(rank, f, x)
  {
    LeastExists(ids, rank);
    var f :| f in ids && forall x | x in ids :: Precedes(rank, f, x);
    f
  }

  /** A sequence of as many distinct members as the set has holds them all. */
  lemma {:induction false} AllTaken(ids: set<Id>, r: seq<Id>)
    requires |r| == |ids| && forall x | x in r :: x in ids
    requires forall i, j | 0 <= i < j < |r| :: r[i] != r[j]
    ensures forall x | x in ids :: x in r
    decreases |r|
  {
    if r != [] {
      var rest := r[1..];
      assert forall x | x in rest :: x in r && x != r[0];
      assert r[0] in ids && |ids - {r[0]}| == |ids| - 1;
      AllTaken(ids - {r[0]}, rest);
      assert forall x | x in ids :: x == r[0] || x in ids - {r[0]};
    }
  }

  /** As many distinct rows as the limit allows, in order, each before every row left out. */
  ghost predicate IsSelection(ids: set<Id>, rank: Id -> Rank, n: nat, r: seq<Id>) {
    && |r| == Min(n, |ids|)
    && (forall x | x in r :: x in ids)
    && (forall i, j | 0 <= i < j < |r| :: r[i] != r[j] && Precedes(rank, r[i], r[j]))
    && (forall x, y | x in r && y in ids && y !in r :: Precedes(rank, x, y))
    && (forall y | y in ids && y !in r :: |r| == n)
  }

  lemma Prepended(ids: set<Id>, rank: Id -> Rank, n: nat, f: Id, rest: seq<Id>)
    requires n >= 1 && f in ids && forall x | x in ids :: Precedes(rank, f, x)
    requires IsSelection(ids - {f}, rank, n - 1, rest)
    ensures IsSelection(ids, rank, n, [f] + rest)
  {
    hide Precedes;
    var r := [f] + rest;
    assert |ids - {f}| == |ids| - 1;
    forall x | x in r ensures x in ids && (x == f || x in rest) {
    }
    forall i, j | 0 <= i < j < |r| ensures r[i] != r[j] && Precedes(rank, r[i], r[j]) {
      assert rest[j - 1] in rest && rest[j - 1] in ids - {f};
      if i > 0 {
        assert r[i] == rest[i - 1];
      }
    }
    forall y | y in ids && y !in r ensures |r| == n && forall x | x in r :: Precedes(rank, x, y) {
      assert r[0] == f && y in ids - {f};
      assert forall k | 0 <= k < |rest| :: rest[k] == r[k + 1] && r[k + 1] in r;
    }
  }

  function Select(ids: set<Id>, rank: Id -> Rank, n: nat): (r: seq<Id>)
    ensures IsSelection(ids, rank, n, r)
    decreases n
  {
    hide Precedes;
    if n == 0 || ids == {} then []
    else
      var f := Least(ids, rank);
      var rest := Select(ids - {f}, rank, n - 1);
      Prepended(ids, rank, n, f, rest);
      hide IsSelection;
      [f] + rest
  }
}
