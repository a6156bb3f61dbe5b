/** What a queue holds for one reader of it: every element contributes a few items. */
module Projection {

  function Collect<M, T>(q: seq<M>, f: M -> seq<T>): seq<T> {
    if q == [] then [] else f(q[0]) + Collect(q[1..], f)
  }

  lemma CollectOne<M, T>(m: M, f: M -> seq<T>)
    ensures Collect([m], f) == f(m)
  {
    assert [m][1..] == [];
  }

  lemma {:induction false} CollectAppend<M, T>(a: seq<M>, b: seq<M>, f: M -> seq<T>)
    ensures Collect(a + b, f) == Collect(a, f) + Collect(b, f)
  {
    if a == [] {
      assert a + b == b;
    } else {
      var ab := a + b;
      CollectAppend(a[1..], b, f);
      assert ab[0] == a[0] && ab[1..] == a[1..] + b;
      calc {
        Collect(ab, f);
        f(a[0]) + Collect(ab[1..], f);
        f(a[0]) + (Collect(a[1..], f) + Collect(b, f));
        (f(a[0]) + Collect(a[1..], f)) + Collect(b, f);
      }
    }
  }

  lemma CollectSnoc<M, T>(q: seq<M>, m: M, f: M -> seq<T>)
    ensures Collect(q + [m], f) == Collect(q, f) + f(m)
  {
    CollectAppend(q, [m], f);
    CollectOne(m, f);
  }

  lemma CollectJoin<M, T>(a: seq<M>, m: M, b: seq<M>, f: M -> seq<T>)
    ensures Collect(a + [m] + b, f) == Collect(a, f) + f(m) + Collect(b, f)
  {
    CollectAppend(a + [m], b, f);
    CollectSnoc(a, m, f);
  }

  lemma SplitAt<M>(q: seq<M>, i: nat)
    requires i < |q|
    ensures q[..i] + [q[i]] + q[i + 1..] == q
  {
  }

  /** The part one element contributes. */
  lemma CollectSplit<M, T>(q: seq<M>, i: nat, f: M -> seq<T>)
    requires i < |q|
    ensures Collect(q, f) == Collect(q[..i], f) + f(q[i]) + Collect(q[i + 1..], f)
  {
    CollectJoin(q[..i], q[i], q[i + 1..], f);
    SplitAt(q, i);
  }

  lemma {:induction false} CollectNothing<M, T>(q: seq<M>, f: M -> seq<T>)
    requires forall j :: 0 <= j < |q| ==> f(q[j]) == []
    ensures Collect(q, f) == []
  {
    if q != [] {
      CollectNothing(q[1..], f);
    }
  }

  lemma CollectNonempty<M, T>(q: seq<M>, i: nat, f: M -> seq<T>)
    requires i < |q| && f(q[i]) != []
    ensures Collect(q, f) != []
  {
    CollectSplit(q, i, f);
  }

  /** An element that is not the last contributor is not last in the projection. */
  lemma CollectEarlier<M, T>(q: seq<M>, i: nat, j: nat, f: M -> seq<T>, x: T)
    requires i < j < |q| && f(q[i]) == [x] && f(q[j]) != []
    ensures exists p :: 0 <= p < |Collect(q, f)| - 1 && Collect(q, f)[p] == x
  {
    CollectSplit(q, i, f);
    assert q[i + 1..][j - i - 1] == q[j];
    CollectNonempty(q[i + 1..], j - i - 1, f);
    var before := Collect(q[..i], f);
    assert Collect(q, f)[|before|] == x;
  }
}
