/** `SELECT id ... ORDER BY first, second, id LIMIT n`: the one query shape that the
    claim, the recovery, the relay, the feed scheduler and the feed pages share. */
module Query {
  import opened Types

  /** The sort columns of every candidate row, by row id. */
  type Keys = map<Uuid, (int, int)>

  predicate Before(keys: Keys, x: Uuid, y: Uuid)
    requires x in keys && y in keys
  {
    var a, b := keys[x], keys[y];
    a.0 < b.0 || (a.0 == b.0 && (a.1 < b.1 || (a.1 == b.1 && x < y)))
  }

  predicate IsFirst(keys: Keys, x: Uuid) {
    x in keys && forall y :: y in keys && y != x ==> Before(keys, x, y)
  }

  lemma {:induction false} FirstExists(keys: Keys)
    requires keys != map[]
    ensures exists x :: IsFirst(keys, x)
    decreases |keys|
  {
    var z :| z in keys;
    var rest := keys - {z};
    if rest == map[] {
      assert keys.Keys == {z} by { assert keys.Keys == rest.Keys + {z}; }
      assert IsFirst(keys, z);
    } else {
      assert rest.Keys == keys.Keys - {z};
      FirstExists(rest);
      var x :| IsFirst(rest, x);
      if Before(keys, z, x) {
        forall y | y in keys && y != z ensures Before(keys, z, y) {
          assert y == x || Before(rest, x, y);
        }
        assert IsFirst(keys, z);
      } else {
        forall y | y in keys && y != x ensures Before(keys, x, y) {
          assert y == z || y in rest;
        }
        assert IsFirst(keys, x);
      }
    }
  }

  function First(keys: Keys): (x: Uuid)
    requires keys != map[]
    ensures IsFirst(keys, x)
  {
    FirstExists(keys);
    var x :| IsFirst(keys, x);
    x
  }

  lemma FirstIn(keys: Keys)
    requires keys != map[]
    ensures First(keys) in keys
  {
  }

  /** The ids the query returns, in the order it returns them. */
  function Select(keys: Keys, n: nat): (ids: seq<Uuid>)
    ensures forall i :: 0 <= i < |ids| ==> ids[i] in keys
    decreases n
  {
    if n == 0 || keys == map[] then []
    else var x := First(keys); [x] + Select(keys - {x}, n - 1)
  }

  /** The loop over the query's rows. */
  method Fetch(keys: Keys, limit: nat) returns (ids: seq<Uuid>)
    ensures ids == Select(keys, limit)
  {
    hide First, IsFirst;
    ids := [];
    var rest := keys;
    while |ids| < limit && rest != map[]
      invariant |ids| <= limit
      invariant ids + Select(rest, limit - |ids|) == Select(keys, limit)
      decreases |rest.Keys|
    {
      var id := First(rest);
      FirstIn(rest);
      assert Select(rest, limit - |ids|) == [id] + Select(rest - {id}, limit - |ids| - 1);
      assert (rest - {id}).Keys == rest.Keys - {id};
      ids, rest := ids + [id], rest - {id};
    }
    assert Select(rest, limit - |ids|) == [];
  }

  /** The rows that sort before x. */
  function Ahead(keys: Keys, x: Uuid): set<Uuid>
    requires x in keys
  {
    set y | y in keys && Before(keys, y, x)
  }

  ghost predicate Ordered(keys: Keys, ids: seq<Uuid>) {
    && (forall i :: 0 <= i < |ids| ==> ids[i] in keys)
    && (forall i, j :: 0 <= i < j < |ids| ==> Before(keys, ids[i], ids[j]))
  }

  /** The result is sorted, has exactly min(n, rows) rows, and leaves out only
      rows that sort after every row it returns. */
  lemma {:induction false} SelectIsTop(keys: Keys, n: nat)
    ensures Ordered(keys, Select(keys, n))
    ensures |Select(keys, n)| == Min(n, |keys|)
    ensures forall i, y :: 0 <= i < |Select(keys, n)| && y in keys && y !in Select(keys, n) ==>
              Before(keys, Select(keys, n)[i], y)
    decreases n
  {
    if n == 0 || keys == map[] {
    } else {
      var x := First(keys);
      var rest := keys - {x};
      assert |rest| == |keys| - 1 by { assert rest.Keys == keys.Keys - {x}; }
      SelectIsTop(rest, n - 1);
      var ids := Select(keys, n);
      var tail := Select(rest, n - 1);
      assert ids == [x] + tail;
      forall i, j | 0 <= i < j < |ids| ensures Before(keys, ids[i], ids[j]) {
        if i > 0 { assert Before(rest, tail[i - 1], tail[j - 1]); }
      }
      forall i, y | 0 <= i < |ids| && y in keys && y !in ids ensures Before(keys, ids[i], y) {
        assert y != x by { assert ids[0] == x; }
        assert y !in tail by { assert ids[1..] == tail; }
        if i > 0 { assert Before(rest, tail[i - 1], y); }
      }
    }
  }

  /** A row is returned exactly when fewer than n rows sort before it. */
  lemma {:induction false} SelectedIffFewAhead(keys: Keys, n: nat, x: Uuid)
    requires x in keys
    ensures x in Select(keys, n) <==> |Ahead(keys, x)| < n
    decreases n
  {
    if n > 0 {
      var f := First(keys);
      var rest := keys - {f};
      assert Select(keys, n) == [f] + Select(rest, n - 1);
      if x == f {
        assert Ahead(keys, x) == {};
      } else {
        SelectedIffFewAhead(rest, n - 1, x);
        assert Before(keys, f, x);
        assert Ahead(keys, x) == Ahead(rest, x) + {f};
      }
    }
  }

  /** Reading on after the first a rows gives the next b rows of the same order. */
  lemma {:induction false} SelectContinues(keys: Keys, a: nat, b: nat)
    ensures Select(keys, a) + Select(keys - Elements(Select(keys, a)), b) == Select(keys, a + b)
    decreases a
  {
    hide First, IsFirst;
    if a == 0 {
      assert keys - Elements(Select(keys, 0)) == keys;
    } else if keys == map[] {
      assert keys - Elements(Select(keys, a)) == keys;
    } else {
      var f := First(keys);
      var rest := keys - {f};
      var head := Select(rest, a - 1);
      assert Select(keys, a) == [f] + head;
      SelectContinues(rest, a - 1, b);
      assert keys - Elements(Select(keys, a)) == rest - Elements(head);
    }
  }

  /** Each returned row is the first of those not returned before it. */
  lemma {:induction false} SelectNth(keys: Keys, m: nat, n: nat)
    requires n < |Select(keys, m)|
    ensures var rest := keys - Elements(Select(keys, m)[..n]);
            rest != map[] && Select(keys, m)[n] == First(rest)
    decreases n
  {
    var f := First(keys);
    var tail := Select(keys - {f}, m - 1);
    assert Select(keys, m) == [f] + tail;
    if n == 0 {
      assert keys - Elements(Select(keys, m)[..0]) == keys;
    } else {
      SelectNth(keys - {f}, m - 1, n - 1);
      assert Select(keys, m)[..n] == [f] + tail[..n - 1];
      assert Elements(Select(keys, m)[..n]) == {f} + Elements(tail[..n - 1]);
      assert keys - Elements(Select(keys, m)[..n]) == (keys - {f}) - Elements(tail[..n - 1]);
    }
  }

  /** Without a limit, every row is returned, once. */
  lemma {:induction false} SelectAll(keys: Keys)
    ensures |Select(keys, |keys|)| == |keys|
    ensures forall x :: x in keys <==> x in Select(keys, |keys|)
    ensures forall i, j :: 0 <= i < j < |Select(keys, |keys|)| ==> Select(keys, |keys|)[i] != Select(keys, |keys|)[j]
  {
    var ids := Select(keys, |keys|);
    SelectIsTop(keys, |keys|);
    forall x | x in keys ensures x in ids {
      var others := keys.Keys - {x};
      assert Ahead(keys, x) <= others;
      Subset(Ahead(keys, x), others);
      SelectedIffFewAhead(keys, |keys|, x);
    }
  }

  lemma {:induction false} Subset(a: set<Uuid>, b: set<Uuid>)
    requires a <= b
    ensures |a| <= |b|
  {
    if a != {} {
      var x :| x in a;
      Subset(a - {x}, b - {x});
    }
  }
}
