/** The pairwise difference builder (comcollect.py:200-218): the outer
    subtraction of a profile's score vector with itself, walked row by row,
    turned into directed entries keyed `[other, anchor]`; cells whose two
    ids are equal are skipped. */
module Differences {
  import opened Registry
  import opened Normalizer

  /** A difference entry: the table ID `[other, anchor]` and the anchor's
      score minus the other's score. */
  datatype Entry = Entry(other: Key, anchor: Key, delta: real)

  /** Cell (d, o) of the outer difference, row d being the anchor and
      column o the other, yields entry e. */
  ghost predicate FromCell(p: Profile, e: Entry, d: int, o: int)
  {
    && 0 <= d < |p| && 0 <= o < |p|
    && p[o].key != p[d].key
    && e == Entry(p[o].key, p[d].key, p[d].score - p[o].score)
  }

  /** Columns o, o+1, ... of row d. */
  function RowEntries(p: Profile, d: nat, o: nat): seq<Entry>
    requires d < |p| && o <= |p|
    decreases |p| - o
  {
    if o == |p| then []
    else
      (if p[o].key == p[d].key then [] else [Entry(p[o].key, p[d].key, p[d].score - p[o].score)])
      + RowEntries(p, d, o + 1)
  }

  /** Rows d, d+1, ... in order. */
  function RowsFrom(p: Profile, d: nat): seq<Entry>
    requires d <= |p|
    decreases |p| - d
  {
    if d == |p| then [] else RowEntries(p, d, 0) + RowsFrom(p, d + 1)
  }

  /** All entries of a profile, in the order the row-major walk appends them. */
  function Build(p: Profile): seq<Entry>
  {
    RowsFrom(p, 0)
  }

  lemma {:induction false} RowEntriesMembers(p: Profile, d: nat, o: nat, e: Entry)
    requires d < |p| && o <= |p|
    ensures e in RowEntries(p, d, o) <==> exists c :: o <= c && FromCell(p, e, d, c)
    decreases |p| - o
  {
    if o < |p| {
      RowEntriesMembers(p, d, o + 1, e);
      var head := if p[o].key == p[d].key then [] else [Entry(p[o].key, p[d].key, p[d].score - p[o].score)];
      assert RowEntries(p, d, o) == head + RowEntries(p, d, o + 1);
      assert e in head <==> FromCell(p, e, d, o);
      if e in RowEntries(p, d, o) {
        if e in head {
          assert FromCell(p, e, d, o);
        } else {
          assert e in RowEntries(p, d, o + 1);
        }
      }
      if exists c :: o <= c && FromCell(p, e, d, c) {
        var c :| o <= c && FromCell(p, e, d, c);
        if c == o {
          assert e in head;
        } else {
          assert o + 1 <= c;
        }
      }
    }
  }

  lemma {:induction false} RowsFromMembers(p: Profile, d: nat, e: Entry)
    requires d <= |p|
    ensures e in RowsFrom(p, d) <==> exists r, c :: d <= r && FromCell(p, e, r, c)
    decreases |p| - d
  {
    if d < |p| {
      RowsFromMembers(p, d + 1, e);
      RowEntriesMembers(p, d, 0, e);
      assert RowsFrom(p, d) == RowEntries(p, d, 0) + RowsFrom(p, d + 1);
      if e in RowsFrom(p, d) {
        if e in RowEntries(p, d, 0) {
          var c :| 0 <= c && FromCell(p, e, d, c);
          assert d <= d && FromCell(p, e, d, c);
        } else {
          assert e in RowsFrom(p, d + 1);
        }
      }
      if exists r, c :: d <= r && FromCell(p, e, r, c) {
        var r, c :| d <= r && FromCell(p, e, r, c);
        if r == d {
          assert e in RowEntries(p, d, 0);
        } else {
          assert e in RowsFrom(p, d + 1);
        }
      }
    }
  }

  /** An entry is built exactly when it comes from a cell whose row and
      column hold different items; its delta is the row's score minus the
      column's. */
  lemma BuildMembers(p: Profile, e: Entry)
    ensures e in Build(p) <==> exists d, o :: FromCell(p, e, d, o)
  {
    RowsFromMembers(p, 0, e);
  }

  /** No entry pairs an item with itself, and both keys of every entry are
      items the profile rated. */
  lemma BuildNoSelfPairs(p: Profile, e: Entry)
    requires e in Build(p)
    ensures e.anchor != e.other
    ensures exists i :: 0 <= i < |p| && p[i].key == e.anchor
    ensures exists i :: 0 <= i < |p| && p[i].key == e.other
  {
    BuildMembers(p, e);
    var d, o :| FromCell(p, e, d, o);
    assert p[d].key == e.anchor && p[o].key == e.other;
  }

  /** Antisymmetry: the entry keyed `[x, y]` with delta v comes with the
      entry keyed `[y, x]` with delta -v. */
  lemma Antisymmetric(p: Profile, e: Entry)
    requires e in Build(p)
    ensures Entry(e.anchor, e.other, -e.delta) in Build(p)
  {
    BuildMembers(p, e);
    var d, o :| FromCell(p, e, d, o);
    assert FromCell(p, Entry(e.anchor, e.other, -e.delta), o, d);
    BuildMembers(p, Entry(e.anchor, e.other, -e.delta));
  }

  /** Every item of the profile occurs once. */
  ghost predicate DistinctItems(p: Profile)
  {
    forall i, j :: 0 <= i < j < |p| ==> p[i].key != p[j].key
  }

  lemma {:induction false} RowEntriesCount(p: Profile, d: nat, o: nat)
    requires DistinctItems(p) && d < |p| && o <= |p|
    ensures |RowEntries(p, d, o)| == |p| - o - (if o <= d then 1 else 0)
    decreases |p| - o
  {
    if o < |p| {
      RowEntriesCount(p, d, o + 1);
    }
  }

  lemma {:induction false} RowsFromCount(p: Profile, d: nat)
    requires DistinctItems(p) && d <= |p|
    ensures |RowsFrom(p, d)| == (|p| - d) * (|p| - 1)
    decreases |p| - d
  {
    if d < |p| {
      RowEntriesCount(p, d, 0);
      RowsFromCount(p, d + 1);
      assert (|p| - d) * (|p| - 1) == (|p| - 1) + (|p| - (d + 1)) * (|p| - 1);
    }
  }

  /** A profile of n distinct items yields exactly n*(n-1) entries. */
  lemma BuildCount(p: Profile)
    requires DistinctItems(p)
    ensures |Build(p)| == |p| * (|p| - 1)
  {
    RowsFromCount(p, 0);
  }

  /** A profile with at most one rating yields no entries. */
  lemma BuildSingle(p: Profile)
    requires |p| <= 1
    ensures Build(p) == []
  {
    BuildCount(p);
  }

  /** The profile's score column, `np.array(df.Score)`. */
  function Scores(p: Profile): (a: seq<real>)
    ensures |a| == |p| && forall i :: 0 <= i < |p| ==> a[i] == p[i].score
  {
    seq(|p|, i requires 0 <= i < |p| => p[i].score)
  }

  /** `np.subtract.outer(a, b)`: cell (i, j) holds a[i] - b[j]. */
  function Outer(a: seq<real>, b: seq<real>): (m: seq<seq<real>>)
    ensures |m| == |a|
    ensures forall i :: 0 <= i < |a| ==> |m[i]| == |b|
    ensures forall i, j :: 0 <= i < |a| && 0 <= j < |b| ==> m[i][j] == a[i] - b[j]
  {
    seq(|a|, i requires 0 <= i < |a| => seq(|b|, j requires 0 <= j < |b| => a[i] - b[j]))
  }

  /** The inner loop of comcollect.py:210-216 over one row of the outer
      difference, the row of anchor d: it appends one entry per column whose
      id differs from the anchor's, exactly row d of Build. */
  method DifferenceRow(p: Profile, d: nat, row: seq<real>) returns (es: seq<Entry>)
    requires d < |p| && |row| == |p|
    requires forall o :: 0 <= o < |p| ==> row[o] == p[d].score - p[o].score
    ensures es == RowEntries(p, d, 0)
  {
    es := [];
    var ocount := 0;
    while ocount < |row|
      invariant |row| == |p| && 0 <= ocount <= |p|
      invariant es + RowEntries(p, d, ocount) == RowEntries(p, d, 0)
    {
      var cell := Entry(p[ocount].key, p[d].key, p[d].score - p[ocount].score);
      var head := if p[ocount].key == p[d].key then [] else [cell];
      var later := RowEntries(p, d, ocount + 1);
      assert RowEntries(p, d, ocount) == head + later;
      assert (es + head) + later == es + (head + later);
      if p[ocount].key != p[d].key {
        assert row[ocount] == p[d].score - p[ocount].score;
        es := es + [Entry(p[ocount].key, p[d].key, row[ocount])];
        assert es + later == RowEntries(p, d, 0);
      } else {
        assert es + head == es;
      }
      ocount := ocount + 1;
    }
  }

  /** The loop of comcollect.py:205-218: walks the outer difference matrix
      row by row, skipping cells whose two ids are equal; it appends exactly
      the entries Build describes, in the same order. */
  method DifferenceTable(p: Profile) returns (es: seq<Entry>)
    ensures es == Build(p)
  {
    var a := Scores(p);
    var diff := Outer(a, a);
    es := [];
    var dcount := 0;
    while dcount < |diff|
      invariant 0 <= dcount <= |p|
      invariant es + RowsFrom(p, dcount) == Build(p)
    {
      assert forall o :: 0 <= o < |p| ==> diff[dcount][o] == p[dcount].score - p[o].score;
      var row := DifferenceRow(p, dcount, diff[dcount]);
      var later := RowsFrom(p, dcount + 1);
      assert RowsFrom(p, dcount) == row + later;
      assert (es + row) + later == es + (row + later);
      es := es + row;
      dcount := dcount + 1;
    }
  }
}
