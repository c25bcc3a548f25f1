/** ID/Score tables and pandas' `groupby(['ID'], as_index=False).mean()`
    over them (comcollect.py:241, 256, 266, 270): one row per key present,
    in ascending key order, holding the mean of that key's values. */
module Grouping {
  import opened Outcomes
  import opened Registry
  import opened Stats

  /** One row of an ID/Score table. */
  datatype Row = Row(key: Key, value: real)

  /** The values of the rows whose key is k, in table order: the group of k. */
  function Values(rows: seq<Row>, k: Key): (r: seq<real>)
    ensures |r| <= |rows|
  {
    if |rows| == 0 then []
    else (if rows[0].key == k then [rows[0].value] else []) + Values(rows[1..], k)
  }

  lemma {:induction false} ValuesAppend(a: seq<Row>, b: seq<Row>, k: Key)
    ensures Values(a + b, k) == Values(a, k) + Values(b, k)
  {
    if |a| == 0 {
      assert a + b == b;
    } else {
      var h := if a[0].key == k then [a[0].value] else [];
      assert (a + b)[0] == a[0];
      assert (a + b)[1..] == a[1..] + b;
      assert Values(a + b, k) == h + Values(a[1..] + b, k);
      ValuesAppend(a[1..], b, k);
      assert h + (Values(a[1..], k) + Values(b, k)) == (h + Values(a[1..], k)) + Values(b, k);
    }
  }

  /** The value of the first row whose key is k, if there is one; in a
      grouped table it is the only such row. */
  function ValueAt(rows: seq<Row>, k: Key): Option<real>
  {
    if |rows| == 0 then None
    else if rows[0].key == k then Some(rows[0].value)
    else ValueAt(rows[1..], k)
  }

  /** ValueAt finds a row exactly when some row has the key, and the value
      it finds is that of a row with the key. */
  lemma {:induction false} ValueAtFinds(rows: seq<Row>, k: Key)
    ensures ValueAt(rows, k).None? <==> forall i :: 0 <= i < |rows| ==> rows[i].key != k
    ensures ValueAt(rows, k).Some? ==> exists i :: 0 <= i < |rows| && rows[i] == Row(k, ValueAt(rows, k).value)
  {
    if |rows| > 0 && rows[0].key != k {
      ValueAtFinds(rows[1..], k);
      forall i | 0 < i < |rows| ensures rows[i] == rows[1..][i - 1] { }
      if ValueAt(rows, k).Some? {
        var i :| 0 <= i < |rows[1..]| && rows[1..][i] == Row(k, ValueAt(rows, k).value);
        assert rows[i + 1] == rows[1..][i];
      }
    }
  }

  /** Keys strictly increase down the table, so each key has at most one row. */
  ghost predicate KeysIncreasing(rows: seq<Row>)
  {
    forall i, j :: 0 <= i < j < |rows| ==> rows[i].key < rows[j].key
  }

  /** A running sum and count for one key. */
  datatype Acc = Acc(total: real, count: nat)

  /** The mean an accumulator stands for. */
  function AccMean(a: Acc): real
    requires a.count > 0
  {
    a.total / (a.count as real)
  }

  /** One pass over the table that accumulates, per key, the sum and the
      number of its values. */
  function Tally(rows: seq<Row>): map<Key, Acc>
  {
    if |rows| == 0 then map[]
    else
      var t := Tally(rows[1..]);
      var x := rows[0];
      if x.key in t then t[x.key := Acc(x.value + t[x.key].total, t[x.key].count + 1)]
      else t[x.key := Acc(x.value, 1)]
  }

  /** The tally holds exactly the keys that have values, each with the sum
      and the number of its values. */
  lemma {:induction false} TallyFacts(rows: seq<Row>)
    ensures forall k :: k in Tally(rows) <==> |Values(rows, k)| > 0
    ensures forall k :: k in Tally(rows) ==> Tally(rows)[k] == Acc(Sum(Values(rows, k)), |Values(rows, k)|)
  {
    if |rows| > 0 {
      TallyFacts(rows[1..]);
      TallyStep(rows, Tally(rows[1..]), Tally(rows));
    }
  }

  /** Adding the head row to the tally of the tail gives the tally of the
      whole table. */
  lemma TallyStep(rows: seq<Row>, t: map<Key, Acc>, t': map<Key, Acc>)
    requires |rows| > 0
    requires forall k :: k in t <==> |Values(rows[1..], k)| > 0
    requires forall k :: k in t ==> t[k] == Acc(Sum(Values(rows[1..], k)), |Values(rows[1..], k)|)
    requires t' == if rows[0].key in t then t[rows[0].key := Acc(rows[0].value + t[rows[0].key].total, t[rows[0].key].count + 1)]
                   else t[rows[0].key := Acc(rows[0].value, 1)]
    ensures forall k :: k in t' <==> |Values(rows, k)| > 0
    ensures forall k :: k in t' ==> t'[k] == Acc(Sum(Values(rows, k)), |Values(rows, k)|)
  {
    forall k
      ensures k in t' <==> |Values(rows, k)| > 0
      ensures k in t' ==> t'[k] == Acc(Sum(Values(rows, k)), |Values(rows, k)|)
    {
      TallyAt(rows, t, t', k);
    }
  }

  /** TallyStep for one key. */
  lemma TallyAt(rows: seq<Row>, t: map<Key, Acc>, t': map<Key, Acc>, k: Key)
    requires |rows| > 0
    requires k in t <==> |Values(rows[1..], k)| > 0
    requires k in t ==> t[k] == Acc(Sum(Values(rows[1..], k)), |Values(rows[1..], k)|)
    requires t' == if rows[0].key in t then t[rows[0].key := Acc(rows[0].value + t[rows[0].key].total, t[rows[0].key].count + 1)]
                   else t[rows[0].key := Acc(rows[0].value, 1)]
    ensures k in t' <==> |Values(rows, k)| > 0
    ensures k in t' ==> t'[k] == Acc(Sum(Values(rows, k)), |Values(rows, k)|)
  {
    if k == rows[0].key {
      TallyAtHead(rows, t, t', k);
    } else {
      TallyAtOther(rows, t, t', k);
    }
  }

  /** The head row's key: one more value in its group. */
  lemma TallyAtHead(rows: seq<Row>, t: map<Key, Acc>, t': map<Key, Acc>, k: Key)
    requires |rows| > 0
    requires k == rows[0].key
    requires k in t <==> |Values(rows[1..], k)| > 0
    requires k in t ==> t[k] == Acc(Sum(Values(rows[1..], k)), |Values(rows[1..], k)|)
    requires t' == if rows[0].key in t then t[rows[0].key := Acc(rows[0].value + t[rows[0].key].total, t[rows[0].key].count + 1)]
                   else t[rows[0].key := Acc(rows[0].value, 1)]
    ensures k in t' <==> |Values(rows, k)| > 0
    ensures k in t' ==> t'[k] == Acc(Sum(Values(rows, k)), |Values(rows, k)|)
  {
    var rest := Values(rows[1..], k);
    var v := Values(rows, k);
    assert v == [rows[0].value] + rest;
    assert v[0] == rows[0].value && v[1..] == rest;
    assert Sum(v) == rows[0].value + Sum(rest);
    if k !in t {
      assert |rest| == 0;
    }
  }

  /** Any other key: its group and its tally entry are unchanged. */
  lemma TallyAtOther(rows: seq<Row>, t: map<Key, Acc>, t': map<Key, Acc>, k: Key)
    requires |rows| > 0
    requires k != rows[0].key
    requires k in t <==> |Values(rows[1..], k)| > 0
    requires k in t ==> t[k] == Acc(Sum(Values(rows[1..], k)), |Values(rows[1..], k)|)
    requires t' == if rows[0].key in t then t[rows[0].key := Acc(rows[0].value + t[rows[0].key].total, t[rows[0].key].count + 1)]
                   else t[rows[0].key := Acc(rows[0].value, 1)]
    ensures k in t' <==> |Values(rows, k)| > 0
    ensures k in t' ==> t'[k] == Acc(Sum(Values(rows, k)), |Values(rows, k)|)
  {
    var rest := Values(rows[1..], k);
    assert Values(rows, k) == [] + rest;
    assert [] + rest == rest;
    assert k in t' <==> k in t;
    if k in t {
      assert t'[k] == t[k];
    }
  }

  /** A key bound: one more than the largest key in the table. */
  function Bound(rows: seq<Row>): nat
  {
    if |rows| == 0 then 0
    else
      var b := Bound(rows[1..]);
      if rows[0].key < b then b else rows[0].key + 1
  }

  lemma {:induction false} BoundFacts(rows: seq<Row>)
    ensures forall k: Key :: |Values(rows, k)| > 0 ==> k < Bound(rows)
  {
    if |rows| > 0 {
      BoundFacts(rows[1..]);
      forall k: Key | |Values(rows, k)| > 0 ensures k < Bound(rows) {
        if k != rows[0].key {
          assert Values(rows, k) == [] + Values(rows[1..], k);
        }
      }
    }
  }

  /** The rows of the keys k, k+1, ..., n-1 that the tally holds, each with
      its mean, in ascending key order. */
  function Emit(t: map<Key, Acc>, k: nat, n: nat): seq<Row>
    requires forall j :: j in t ==> t[j].count > 0
    decreases n - k
  {
    if n <= k then []
    else if k in t then [Row(k, AccMean(t[k]))] + Emit(t, k + 1, n)
    else Emit(t, k + 1, n)
  }

  /** Emit lists the tallied keys of [k, n) in increasing order, each with
      its mean, and nothing else. */
  lemma {:induction false} EmitFacts(t: map<Key, Acc>, k: nat, n: nat)
    requires forall j :: j in t ==> t[j].count > 0
    ensures forall i :: 0 <= i < |Emit(t, k, n)| ==> k <= Emit(t, k, n)[i].key < n
    ensures KeysIncreasing(Emit(t, k, n))
    ensures forall j: Key :: ValueAt(Emit(t, k, n), j) == if k <= j < n && j in t then Some(AccMean(t[j])) else None
    decreases n - k
  {
    if k < n {
      EmitFacts(t, k + 1, n);
      var rest := Emit(t, k + 1, n);
      if k in t {
        var r := [Row(k, AccMean(t[k]))] + rest;
        assert r == Emit(t, k, n);
        forall i | 0 <= i < |r| ensures k <= r[i].key < n {
          if i > 0 {
            assert r[i] == rest[i - 1];
          }
        }
        forall i, i' | 0 <= i < i' < |r| ensures r[i].key < r[i'].key {
          assert r[i'] == rest[i' - 1];
          if i > 0 {
            assert r[i] == rest[i - 1];
          }
        }
        forall j: Key ensures ValueAt(r, j) == if k <= j < n && j in t then Some(AccMean(t[j])) else None {
          if j != k {
            assert r[1..] == rest;
          }
        }
      }
    }
  }

  /** `groupby(['ID'], as_index=False).mean()`: one row per key of the table,
      in ascending key order, holding the arithmetic mean of that key's values;
      keys without rows get none. */
  function GroupMean(rows: seq<Row>): (r: seq<Row>)
    ensures KeysIncreasing(r)
    ensures forall k :: ValueAt(r, k) == MeanOpt(Values(rows, k))
  {
    TallyFacts(rows);
    BoundFacts(rows);
    EmitFacts(Tally(rows), 0, Bound(rows));
    Emit(Tally(rows), 0, Bound(rows))
  }

  /** A table with one row per key is its own group: its group of k is the
      single value of k's row, or empty. */
  lemma {:induction false} ValuesOfIncreasing(rows: seq<Row>, k: Key)
    requires KeysIncreasing(rows)
    ensures Values(rows, k) == match ValueAt(rows, k) case None => [] case Some(v) => [v]
  {
    if |rows| > 0 {
      ValuesOfIncreasing(rows[1..], k);
      if rows[0].key == k {
        assert ValueAt(rows[1..], k).None? by {
          ValueAtFinds(rows[1..], k);
          forall i | 0 <= i < |rows[1..]| ensures rows[1..][i].key != k {
            assert rows[1..][i] == rows[i + 1];
          }
        }
      }
    }
  }

  /** Dropping the first row of a table with increasing keys forgets
      exactly the first row's key. */
  lemma TailValueAt(a: seq<Row>, k: Key)
    requires KeysIncreasing(a) && |a| > 0
    ensures ValueAt(a[1..], k) == if k == a[0].key then None else ValueAt(a, k)
  {
    if k == a[0].key {
      ValueAtFinds(a[1..], k);
      forall x | 0 <= x < |a[1..]| ensures a[1..][x].key != k {
        assert a[1..][x] == a[x + 1];
      }
    }
  }

  /** The first row of a table with increasing keys holds its least key. */
  lemma HeadKeyLeast(a: seq<Row>, k: Key)
    requires KeysIncreasing(a) && |a| > 0 && ValueAt(a, k).Some?
    ensures a[0].key <= k
  {
  }

  /** Two tables with increasing keys that agree on every key's value are
      the same table. */
  lemma {:induction false} IncreasingExtensional(a: seq<Row>, b: seq<Row>)
    requires KeysIncreasing(a) && KeysIncreasing(b)
    requires forall k :: ValueAt(a, k) == ValueAt(b, k)
    ensures a == b
    decreases |a| + |b|
  {
    if |a| == 0 {
      if |b| > 0 {
        assert ValueAt(a, b[0].key) != ValueAt(b, b[0].key);
      }
    } else if |b| == 0 {
      assert ValueAt(a, a[0].key) != ValueAt(b, a[0].key);
    } else {
      assert ValueAt(a, a[0].key).Some? && ValueAt(b, b[0].key).Some?;
      HeadKeyLeast(b, a[0].key);
      HeadKeyLeast(a, b[0].key);
      assert a[0] == b[0];
      forall k ensures ValueAt(a[1..], k) == ValueAt(b[1..], k) {
        TailValueAt(a, k);
        TailValueAt(b, k);
      }
      IncreasingExtensional(a[1..], b[1..]);
      assert a == [a[0]] + a[1..] && b == [b[0]] + b[1..];
    }
  }

  /** Grouping a table that already has one row per key, in ascending key
      order, gives it back unchanged. */
  lemma GroupMeanOfGrouped(rows: seq<Row>)
    requires KeysIncreasing(rows)
    ensures GroupMean(rows) == rows
  {
    var g := GroupMean(rows);
    forall k ensures ValueAt(g, k) == ValueAt(rows, k) {
      ValuesOfIncreasing(rows, k);
      if ValueAt(rows, k).Some? {
        MeanSingle(ValueAt(rows, k).value);
      }
    }
    IncreasingExtensional(g, rows);
  }

  /** Grouping twice is grouping once: the final `groupby().mean()` of
      comcollect.py:270 leaves an already grouped table as it is. */
  lemma GroupMeanIdempotent(rows: seq<Row>)
    ensures GroupMean(GroupMean(rows)) == GroupMean(rows)
  {
    GroupMeanOfGrouped(GroupMean(rows));
  }

  lemma MeanSingle(v: real)
    ensures MeanOpt([v]) == Some(v)
  {
    assert [v][1..] == [];
    assert Sum([v]) == v;
    assert (|[v]| as real) == 1.0;
    assert Mean([v]) == v / 1.0;
  }
}
