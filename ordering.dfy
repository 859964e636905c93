/** What the SQL engine contributes to the queries over keyed rows: a deterministic
    `ORDER BY value` (ascending or descending) and `SUM(value)`.
    A row is a pair (key, value); a table scope is a map from key to value. */
module Ordering {

  /** Row a may come before row b: ordered by value, ties broken by ascending key
      (SQL leaves the order of ties unspecified; this model fixes one). */
  predicate Before(descending: bool, a: (nat, nat), b: (nat, nat))
  {
    if a.1 == b.1 then a.0 <= b.0
    else if descending then a.1 > b.1
    else a.1 < b.1
  }

  /** k is the row of m that an ordered scan returns first. */
  predicate IsFirst(m: map<nat, nat>, descending: bool, k: nat)
  {
    k in m && forall j | j in m :: Before(descending, (k, m[k]), (j, m[j]))
  }

  lemma BeforeTotal(descending: bool, a: (nat, nat), b: (nat, nat))
    ensures Before(descending, a, b) || Before(descending, b, a)
  {
  }

  lemma BeforeTransitive(descending: bool, a: (nat, nat), b: (nat, nat), c: (nat, nat))
    requires Before(descending, a, b) && Before(descending, b, c)
    ensures Before(descending, a, c)
  {
  }

  lemma {:induction false} FirstExists(m: map<nat, nat>, descending: bool)
    requires m != map[]
    ensures exists k :: IsFirst(m, descending, k)
    decreases |m|
  {
    var y :| y in m;
    var rest := m - {y};
    if rest == map[] {
      forall j | j in m ensures Before(descending, (y, m[y]), (j, m[j])) {
        assert j !in rest;
      }
      assert IsFirst(m, descending, y);
    } else {
      assert |rest| < |m| by {
        assert rest.Keys == m.Keys - {y};
      }
      FirstExists(rest, descending);
      var k :| IsFirst(rest, descending, k);
      if Before(descending, (k, m[k]), (y, m[y])) {
        forall j | j in m ensures Before(descending, (k, m[k]), (j, m[j])) {
          if j != y {
            assert j in rest;
          }
        }
        assert IsFirst(m, descending, k);
      } else {
        BeforeTotal(descending, (k, m[k]), (y, m[y]));
        forall j | j in m ensures Before(descending, (y, m[y]), (j, m[j])) {
          if j != y {
            assert j in rest && Before(descending, (k, m[k]), (j, m[j]));
            BeforeTransitive(descending, (y, m[y]), (k, m[k]), (j, m[j]));
          }
        }
        assert IsFirst(m, descending, y);
      }
    }
  }

  /** The key of the first row in the ordering (unique, since keys are distinct). */
  function First(m: map<nat, nat>, descending: bool): (k: nat)
    requires m != map[]
    ensures IsFirst(m, descending, k)
  {
    FirstExists(m, descending);
    var k :| IsFirst(m, descending, k);
    k
  }

  /** r lists exactly the rows of m, each once, in the order `ORDER BY value [DESC], key`. */
  predicate ListsInOrder(m: map<nat, nat>, descending: bool, r: seq<(nat, nat)>)
  {
    && |r| == |m|
    && (forall i | 0 <= i < |r| :: r[i].0 in m && r[i].1 == m[r[i].0])
    && (forall k | k in m :: (k, m[k]) in r)
    && (forall i, j | 0 <= i < j < |r| :: r[i].0 != r[j].0 && Before(descending, r[i], r[j]))
  }

  /** Putting the first row in front of an ordered listing of the others orders them all. */
  lemma ConsInOrder(m: map<nat, nat>, descending: bool, k: nat, tail: seq<(nat, nat)>)
    requires IsFirst(m, descending, k)
    requires ListsInOrder(m - {k}, descending, tail)
    ensures ListsInOrder(m, descending, [(k, m[k])] + tail)
  {
    var rest := m - {k};
    assert rest.Keys == m.Keys - {k};
    var r := [(k, m[k])] + tail;
    ConsRowsFromMap(m, k, tail);
    forall j | j in m ensures (j, m[j]) in r {
      if j != k {
        assert j in rest && (j, rest[j]) in tail;
      }
    }
    ConsSorted(m, descending, k, tail);
  }

  lemma ConsRowsFromMap(m: map<nat, nat>, k: nat, tail: seq<(nat, nat)>)
    requires k in m
    requires forall i | 0 <= i < |tail| :: tail[i].0 in m - {k} && tail[i].1 == (m - {k})[tail[i].0]
    ensures forall i | 0 <= i < |tail| + 1 :: ([(k, m[k])] + tail)[i].0 in m && ([(k, m[k])] + tail)[i].1 == m[([(k, m[k])] + tail)[i].0]
  {
    var r := [(k, m[k])] + tail;
    forall i | 0 <= i < |r| ensures r[i].0 in m && r[i].1 == m[r[i].0] {
      if i > 0 {
        assert r[i] == tail[i - 1];
      }
    }
  }

  lemma ConsSorted(m: map<nat, nat>, descending: bool, k: nat, tail: seq<(nat, nat)>)
    requires IsFirst(m, descending, k)
    requires forall i | 0 <= i < |tail| :: tail[i].0 in m && tail[i].0 != k
    requires forall i, j | 0 <= i < j < |tail| :: tail[i].0 != tail[j].0 && Before(descending, tail[i], tail[j])
    requires forall i | 0 <= i < |tail| :: tail[i].1 == m[tail[i].0]
    ensures forall i, j | 0 <= i < j < |tail| + 1 ::
      ([(k, m[k])] + tail)[i].0 != ([(k, m[k])] + tail)[j].0 && Before(descending, ([(k, m[k])] + tail)[i], ([(k, m[k])] + tail)[j])
  {
    var r := [(k, m[k])] + tail;
    forall i, j | 0 <= i < j < |r| ensures r[i].0 != r[j].0 && Before(descending, r[i], r[j]) {
      assert r[j] == tail[j - 1];
      if i > 0 {
        assert r[i] == tail[i - 1];
      } else {
        var t := tail[j - 1];
        assert t.0 in m && t.1 == m[t.0];
        assert Before(descending, (k, m[k]), (t.0, m[t.0]));
      }
    }
  }

  /** The rows of m in the order `ORDER BY value [DESC], key` returns them. */
  function Ordered(m: map<nat, nat>, descending: bool): (r: seq<(nat, nat)>)
    decreases |m|
  {
    if m == map[] then []
    else
      var k := First(m, descending);
      assert (m - {k}).Keys == m.Keys - {k};
      [(k, m[k])] + Ordered(m - {k}, descending)
  }

  /** The ordered scan lists every row of m exactly once, in order. */
  lemma {:induction false} OrderedListsInOrder(m: map<nat, nat>, descending: bool)
    ensures ListsInOrder(m, descending, Ordered(m, descending))
    decreases |m|
  {
    if m != map[] {
      var k := First(m, descending);
      assert (m - {k}).Keys == m.Keys - {k};
      OrderedListsInOrder(m - {k}, descending);
      ConsInOrder(m, descending, k, Ordered(m - {k}, descending));
    }
  }

  /** SUM(value) over a scope; an empty scope sums to 0 (the caller decides about NULL). */
  function SumValues(m: map<nat, nat>): (s: nat)
    ensures m == map[] ==> s == 0
    ensures forall k | k in m :: m[k] <= s
    decreases |m|
  {
    if m == map[] then 0
    else
      var k := First(m, false);
      var rest := m - {k};
      assert rest.Keys == m.Keys - {k};
      assert forall j | j in rest :: rest[j] == m[j];
      m[k] + SumValues(rest)
  }

  /** The sum does not depend on the row the recursion starts from. */
  lemma {:induction false} SumRemove(m: map<nat, nat>, k: nat)
    requires k in m
    ensures SumValues(m) == m[k] + SumValues(m - {k})
    decreases |m|
  {
    var j := First(m, false);
    if j != k {
      var mj, mk := m - {j}, m - {k};
      assert mj.Keys == m.Keys - {j} && mk.Keys == m.Keys - {k};
      SumRemove(mj, k);
      SumRemove(mk, j);
      assert mj - {k} == mk - {j};
    }
  }

  /** Writing one key changes the sum by the difference at that key. */
  lemma SumUpdate(m: map<nat, nat>, k: nat, v: nat)
    ensures SumValues(m[k := v]) == v + SumValues(m - {k})
    ensures k in m ==> SumValues(m) == m[k] + SumValues(m - {k})
  {
    SumRemove(m[k := v], k);
    assert m[k := v] - {k} == m - {k};
    if k in m {
      SumRemove(m, k);
    }
  }
}
