/** The final ranking (comcollect.py:270-271): the table is grouped by id
    and averaged, then sorted by score, highest first. */
module Ranker {
  import opened Outcomes
  import opened Registry
  import opened Stats
  import opened Grouping

  /** Scores never increase down the table. */
  ghost predicate Descending(rows: seq<Row>)
  {
    forall i, j :: 0 <= i < j < |rows| ==> rows[i].value >= rows[j].value
  }

  /** No two rows share a key. */
  ghost predicate OneRowPerKey(rows: seq<Row>)
  {
    forall i, j :: 0 <= i < j < |rows| ==> rows[i].key != rows[j].key
  }

  /** Places x in a table sorted highest first, keeping it sorted. */
  function Insert(x: Row, s: seq<Row>): (r: seq<Row>)
    requires Descending(s)
    ensures Descending(r)
    ensures multiset(r) == multiset(s) + multiset{x}
  {
    if |s| == 0 then [x]
    else if x.value >= s[0].value then [x] + s
    else
      var t := Insert(x, s[1..]);
      assert s == [s[0]] + s[1..];
      ConsDescending(s[0], s[1..], x, t);
      [s[0]] + t
  }

  /** A head at least as high as everything below it stays on top of a
      sorted reordering of its tail plus a lower row. */
  lemma ConsDescending(h: Row, rest: seq<Row>, x: Row, t: seq<Row>)
    requires Descending([h] + rest) && x.value <= h.value
    requires Descending(t) && multiset(t) == multiset(rest) + multiset{x}
    ensures Descending([h] + t)
  {
    forall y | y in rest ensures y.value <= h.value {
      var m :| 0 <= m < |rest| && rest[m] == y;
      assert ([h] + rest)[0] == h && ([h] + rest)[m + 1] == y;
    }
    forall i, j | 0 <= i < j < |[h] + t| ensures ([h] + t)[i].value >= ([h] + t)[j].value {
      assert ([h] + t)[j] == t[j - 1];
      if i == 0 {
        assert t[j - 1] in multiset(t);
      } else {
        assert ([h] + t)[i] == t[i - 1];
      }
    }
  }

  /** `sort_values('Score', ascending=False)`: the same rows, highest score
      first. Rows with equal scores may come in any order. */
  function SortDescending(rows: seq<Row>): (r: seq<Row>)
    ensures Descending(r)
    ensures multiset(r) == multiset(rows)
  {
    if |rows| == 0 then []
    else
      assert rows == [rows[0]] + rows[1..];
      Insert(rows[0], SortDescending(rows[1..]))
  }

  lemma ConsOneRowPerKey(y: Row, t: seq<Row>)
    requires OneRowPerKey(t)
    requires forall z :: z in t ==> z.key != y.key
    ensures OneRowPerKey([y] + t)
  {
  }

  lemma TailOneRowPerKey(s: seq<Row>)
    requires OneRowPerKey(s) && |s| > 0
    ensures OneRowPerKey(s[1..])
    ensures forall z :: z in s[1..] ==> z.key != s[0].key
  {
  }

  lemma {:induction false} InsertKeepsOneRowPerKey(x: Row, s: seq<Row>)
    requires Descending(s) && OneRowPerKey(s)
    requires forall y :: y in s ==> y.key != x.key
    ensures OneRowPerKey(Insert(x, s))
  {
    if |s| == 0 {
    } else if x.value >= s[0].value {
      ConsOneRowPerKey(x, s);
    } else {
      TailOneRowPerKey(s);
      assert forall y :: y in s[1..] ==> y in s;
      InsertKeepsOneRowPerKey(x, s[1..]);
      var t := Insert(x, s[1..]);
      assert forall y :: y in t ==> y in multiset(s[1..]) + multiset{x};
      assert s[0] in s;
      ConsOneRowPerKey(s[0], t);
    }
  }

  /** Sorting keeps a table with one row per key so. */
  lemma {:induction false} SortKeepsOneRowPerKey(rows: seq<Row>)
    requires OneRowPerKey(rows)
    ensures OneRowPerKey(SortDescending(rows))
  {
    if |rows| > 0 {
      TailOneRowPerKey(rows);
      SortKeepsOneRowPerKey(rows[1..]);
      var t := SortDescending(rows[1..]);
      forall y | y in t ensures y.key != rows[0].key {
        assert y in multiset(rows[1..]);
      }
      InsertKeepsOneRowPerKey(rows[0], t);
    }
  }

  /** In a table with one row per key, ValueAt finds v for k exactly when
      the row (k, v) is in the table. */
  lemma ValueAtMember(rows: seq<Row>, k: Key, v: real)
    requires OneRowPerKey(rows)
    ensures ValueAt(rows, k) == Some(v) <==> Row(k, v) in rows
  {
  }

  /** Two tables with one row per key holding the same rows agree on every
      key's value. */
  lemma ValueAtPermutation(a: seq<Row>, b: seq<Row>, k: Key)
    requires OneRowPerKey(a) && OneRowPerKey(b)
    requires multiset(a) == multiset(b)
    ensures ValueAt(a, k) == ValueAt(b, k)
  {
    assert forall x :: x in a <==> x in b by {
      forall x ensures x in a <==> x in b {
        assert x in a <==> x in multiset(a);
        assert x in b <==> x in multiset(b);
      }
    }
    ValueAtFinds(a, k);
    ValueAtFinds(b, k);
    if ValueAt(a, k).Some? {
      ValueAtMember(a, k, ValueAt(a, k).value);
      ValueAtMember(b, k, ValueAt(a, k).value);
    } else if ValueAt(b, k).Some? {
      ValueAtMember(b, k, ValueAt(b, k).value);
      ValueAtMember(a, k, ValueAt(b, k).value);
    }
  }

  lemma IncreasingOneRowPerKey(rows: seq<Row>)
    requires KeysIncreasing(rows)
    ensures OneRowPerKey(rows)
  {
  }

  /** comcollect.py:270-271: group by id, average, sort highest first. The
      result holds exactly one row per id present, each with the mean of that
      id's values, and is a reordering of the grouped rows. */
  function Rank(rows: seq<Row>): (r: seq<Row>)
    ensures Descending(r)
    ensures OneRowPerKey(r)
    ensures multiset(r) == multiset(GroupMean(rows))
    ensures forall k :: ValueAt(r, k) == MeanOpt(Values(rows, k))
  {
    var g := GroupMean(rows);
    var r := SortDescending(g);
    IncreasingOneRowPerKey(g);
    SortKeepsOneRowPerKey(g);
    assert forall k :: ValueAt(r, k) == ValueAt(g, k) by {
      forall k ensures ValueAt(r, k) == ValueAt(g, k) {
        ValueAtPermutation(r, g, k);
      }
    }
    r
  }
}
