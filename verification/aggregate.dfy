/** The three aggregation modes selected by `compare_type`
    (comcollect.py:220-267). Each turns the collected profiles into the
    table `final_df` holds just before its last `groupby().mean()`
    (comcollect.py:270). */
module Aggregate {
  import opened Outcomes
  import opened Registry
  import opened Stats
  import opened Normalizer
  import opened Differences
  import opened Grouping

  /** Type 0 (direct), type 1 (intra-profile) and type 2 (cross-profile). */
  datatype Mode = Direct | IntraProfile | CrossProfile

  /** The mode a `compare_type` value selects; any other value selects none,
      and then no branch adds a row. */
  function ModeOf(compareType: int): (m: Option<Mode>)
    ensures m == Some(Direct) <==> compareType == 0
    ensures m == Some(IntraProfile) <==> compareType == 1
    ensures m == Some(CrossProfile) <==> compareType == 2
  {
    if compareType == 0 then Some(Direct)
    else if compareType == 1 then Some(IntraProfile)
    else if compareType == 2 then Some(CrossProfile)
    else None
  }

  // ---------------------------------------------------------------------
  // Type 0: direct

  /** A profile's ratings as ID/Score rows. */
  function RatingRows(p: Profile): (r: seq<Row>)
    ensures |r| == |p|
  {
    if |p| == 0 then [] else [Row(p[0].key, p[0].score)] + RatingRows(p[1..])
  }

  /** `out_df` for type 0: every profile's ratings, one after another
      (comcollect.py:224-227). */
  function DirectRows(ps: seq<Profile>): seq<Row>
  {
    if |ps| == 0 then [] else RatingRows(ps[0]) + DirectRows(ps[1..])
  }

  /** `final_df` for type 0 (comcollect.py:255-256). */
  function DirectTable(ps: seq<Profile>): seq<Row>
  {
    GroupMean(DirectRows(ps))
  }

  /** The scores one profile gave item k, in page order. */
  function ScoresOf(p: Profile, k: Key): seq<real>
  {
    if |p| == 0 then []
    else (if p[0].key == k then [p[0].score] else []) + ScoresOf(p[1..], k)
  }

  /** Every score item k received, over all profiles. */
  function AllScores(ps: seq<Profile>, k: Key): seq<real>
  {
    if |ps| == 0 then [] else ScoresOf(ps[0], k) + AllScores(ps[1..], k)
  }

  lemma {:induction false} RatingRowsValues(p: Profile, k: Key)
    ensures Values(RatingRows(p), k) == ScoresOf(p, k)
  {
    if |p| > 0 {
      RatingRowsValues(p[1..], k);
      ValuesAppend([Row(p[0].key, p[0].score)], RatingRows(p[1..]), k);
    }
  }

  lemma {:induction false} DirectRowsValues(ps: seq<Profile>, k: Key)
    ensures Values(DirectRows(ps), k) == AllScores(ps, k)
  {
    if |ps| > 0 {
      DirectRowsValues(ps[1..], k);
      RatingRowsValues(ps[0], k);
      ValuesAppend(RatingRows(ps[0]), DirectRows(ps[1..]), k);
    }
  }

  /** Type 0: an item's value is the mean of every score it received, over
      every observation in every profile; an item nobody scored has no row. */
  lemma DirectMean(ps: seq<Profile>, k: Key)
    ensures ValueAt(DirectTable(ps), k) == MeanOpt(AllScores(ps, k))
  {
    DirectRowsValues(ps, k);
  }

  // ---------------------------------------------------------------------
  // Entries anchored at one item

  /** The deltas of the entries whose anchor is k, in order. */
  function AnchorDeltas(es: seq<Entry>, k: Key): seq<real>
  {
    if |es| == 0 then []
    else (if es[0].anchor == k then [es[0].delta] else []) + AnchorDeltas(es[1..], k)
  }

  lemma {:induction false} AnchorDeltasAppend(a: seq<Entry>, b: seq<Entry>, k: Key)
    ensures AnchorDeltas(a + b, k) == AnchorDeltas(a, k) + AnchorDeltas(b, k)
  {
    if |a| == 0 {
      assert a + b == b;
    } else {
      var h := if a[0].anchor == k then [a[0].delta] else [];
      assert (a + b)[0] == a[0];
      assert (a + b)[1..] == a[1..] + b;
      assert AnchorDeltas(a + b, k) == h + AnchorDeltas(a[1..] + b, k);
      AnchorDeltasAppend(a[1..], b, k);
      assert h + (AnchorDeltas(a[1..], k) + AnchorDeltas(b, k)) == (h + AnchorDeltas(a[1..], k)) + AnchorDeltas(b, k);
    }
  }

  /** Entries anchored at an item that no entry has as anchor are none. */
  lemma {:induction false} AnchorDeltasEmpty(es: seq<Entry>, k: Key)
    requires forall e :: e in es ==> e.anchor != k
    ensures AnchorDeltas(es, k) == []
  {
    if |es| > 0 {
      assert es[0] in es;
      assert forall e :: e in es[1..] ==> e in es;
      AnchorDeltasEmpty(es[1..], k);
    }
  }

  /** The rows `[key, delta]` for the entries anchored at key, in order:
      one pass of the inner loops of comcollect.py:236-239 and 262-264. */
  function MatchRows(key: Key, es: seq<Entry>): (r: seq<Row>)
  {
    if |es| == 0 then []
    else (if es[0].anchor == key then [Row(key, es[0].delta)] else []) + MatchRows(key, es[1..])
  }

  lemma {:induction false} MatchRowsValues(key: Key, es: seq<Entry>, k: Key)
    ensures Values(MatchRows(key, es), k) == if key == k then AnchorDeltas(es, k) else []
  {
    if |es| > 0 {
      MatchRowsValues(key, es[1..], k);
      var head := if es[0].anchor == key then [Row(key, es[0].delta)] else [];
      ValuesAppend(head, MatchRows(key, es[1..]), k);
    }
  }

  // ---------------------------------------------------------------------
  // Type 1: intra-profile

  /** `sub_list` of comcollect.py:235-239: for each rating of the profile,
      in order, the rows of the entries anchored at its item. An item rated
      twice contributes its entries twice. */
  function IntraRows(p: Profile, es: seq<Entry>): seq<Row>
  {
    if |p| == 0 then [] else MatchRows(p[0].key, es) + IntraRows(p[1..], es)
  }

  /** How many ratings of the profile are for item k. */
  function Occurrences(p: Profile, k: Key): (n: nat)
    ensures n == 0 <==> forall i :: 0 <= i < |p| ==> p[i].key != k
  {
    if |p| == 0 then 0
    else (if p[0].key == k then 1 else 0) + Occurrences(p[1..], k)
  }

  lemma {:induction false} IntraRowsValues(p: Profile, es: seq<Entry>, k: Key)
    ensures Values(IntraRows(p, es), k) == Repeat(AnchorDeltas(es, k), Occurrences(p, k))
  {
    if |p| > 0 {
      IntraRowsValues(p[1..], es, k);
      MatchRowsValues(p[0].key, es, k);
      ValuesAppend(MatchRows(p[0].key, es), IntraRows(p[1..], es), k);
      if p[0].key != k {
        assert AnchorDeltas(es, k) + [] == AnchorDeltas(es, k);
      }
    }
  }

  /** The per-profile table of type 1 (comcollect.py:240-241). */
  function IntraProfileTable(p: Profile): seq<Row>
  {
    GroupMean(IntraRows(p, Build(p)))
  }

  /** Type 1 within one profile: an anchor's value is the mean of the
      profile's deltas anchored at it; an item with no such entry (the only
      item the profile rated, say) has no row. */
  lemma IntraProfileMean(p: Profile, k: Key)
    ensures ValueAt(IntraProfileTable(p), k) == MeanOpt(AnchorDeltas(Build(p), k))
  {
    var ds := AnchorDeltas(Build(p), k);
    IntraRowsValues(p, Build(p), k);
    if Occurrences(p, k) == 0 {
      forall e | e in Build(p) ensures e.anchor != k {
        BuildNoSelfPairs(p, e);
      }
      AnchorDeltasEmpty(Build(p), k);
    } else if |ds| > 0 {
      MeanRepeat(ds, Occurrences(p, k));
    }
  }

  /** `final_df` for type 1: the per-profile tables one after another
      (comcollect.py:242). */
  function IntraRowsAll(ps: seq<Profile>): seq<Row>
  {
    if |ps| == 0 then [] else IntraProfileTable(ps[0]) + IntraRowsAll(ps[1..])
  }

  /** Item k's per-profile type 1 values, over the profiles that produced one. */
  function ProfileMeans(ps: seq<Profile>, k: Key): seq<real>
  {
    if |ps| == 0 then []
    else
      (match MeanOpt(AnchorDeltas(Build(ps[0]), k)) case None => [] case Some(v) => [v])
      + ProfileMeans(ps[1..], k)
  }

  lemma {:induction false} IntraRowsAllValues(ps: seq<Profile>, k: Key)
    ensures Values(IntraRowsAll(ps), k) == ProfileMeans(ps, k)
  {
    if |ps| > 0 {
      IntraRowsAllValues(ps[1..], k);
      ValuesOfIncreasing(IntraProfileTable(ps[0]), k);
      IntraProfileMean(ps[0], k);
      ValuesAppend(IntraProfileTable(ps[0]), IntraRowsAll(ps[1..]), k);
    }
  }

  /** The type 1 result after the final grouping (comcollect.py:270). */
  function IntraTable(ps: seq<Profile>): seq<Row>
  {
    GroupMean(IntraRowsAll(ps))
  }

  /** Type 1 across profiles: after the final grouping, an item's value is
      the mean of its per-profile values over the profiles that produced one. */
  lemma IntraMean(ps: seq<Profile>, k: Key)
    ensures ValueAt(IntraTable(ps), k) == MeanOpt(ProfileMeans(ps, k))
  {
    IntraRowsAllValues(ps, k);
  }

  // ---------------------------------------------------------------------
  // Type 2: cross-profile

  /** `out_df` for type 2: every profile's entries pooled (comcollect.py:250). */
  function Pool(ps: seq<Profile>): seq<Entry>
  {
    if |ps| == 0 then [] else Build(ps[0]) + Pool(ps[1..])
  }

  /** `sub_list` of comcollect.py:261-264: for each registry key j, j+1, ...,
      n-1 in order, the rows of the pooled entries anchored at it. */
  function CrossRows(j: nat, n: nat, es: seq<Entry>): seq<Row>
    decreases n - j
  {
    if n <= j then [] else MatchRows(j, es) + CrossRows(j + 1, n, es)
  }

  /** `final_df` for type 2 (comcollect.py:265-267). */
  function CrossTable(reg: seq<Pair>, ps: seq<Profile>): seq<Row>
  {
    GroupMean(CrossRows(0, |reg|, Pool(ps)))
  }

  /** Item k's deltas as an anchor, profile after profile. */
  function PooledDeltas(ps: seq<Profile>, k: Key): seq<real>
  {
    if |ps| == 0 then [] else AnchorDeltas(Build(ps[0]), k) + PooledDeltas(ps[1..], k)
  }

  lemma {:induction false} PoolDeltas(ps: seq<Profile>, k: Key)
    ensures AnchorDeltas(Pool(ps), k) == PooledDeltas(ps, k)
  {
    if |ps| > 0 {
      PoolDeltas(ps[1..], k);
      AnchorDeltasAppend(Build(ps[0]), Pool(ps[1..]), k);
    }
  }

  lemma {:induction false} CrossRowsValues(j: nat, n: nat, es: seq<Entry>, k: Key)
    ensures Values(CrossRows(j, n, es), k) == if j <= k < n then AnchorDeltas(es, k) else []
    decreases n - j
  {
    if j < n {
      CrossRowsValues(j + 1, n, es, k);
      MatchRowsValues(j, es, k);
      ValuesAppend(MatchRows(j, es), CrossRows(j + 1, n, es), k);
      if j == k {
        assert AnchorDeltas(es, k) + [] == AnchorDeltas(es, k);
      }
    }
  }

  /** Type 2: an item's value is the mean of every delta anchored at it,
      pooled from all profiles; only registry keys appear. */
  lemma CrossMean(reg: seq<Pair>, ps: seq<Profile>, k: Key)
    ensures ValueAt(CrossTable(reg, ps), k) == if k < |reg| then MeanOpt(PooledDeltas(ps, k)) else None
  {
    CrossRowsValues(0, |reg|, Pool(ps), k);
    PoolDeltas(ps, k);
  }

  // ---------------------------------------------------------------------
  // Dispatch

  /** `final_df` before comcollect.py:270, for the selected mode. */
  function ModeRows(mode: Mode, reg: seq<Pair>, ps: seq<Profile>): seq<Row>
  {
    match mode
    case Direct => DirectTable(ps)
    case IntraProfile => IntraRowsAll(ps)
    case CrossProfile => CrossTable(reg, ps)
  }

  /** What each mode promises for item k, stated over the profiles alone. */
  function Expected(mode: Mode, reg: seq<Pair>, ps: seq<Profile>, k: Key): Option<real>
  {
    match mode
    case Direct => MeanOpt(AllScores(ps, k))
    case IntraProfile => MeanOpt(ProfileMeans(ps, k))
    case CrossProfile => if k < |reg| then MeanOpt(PooledDeltas(ps, k)) else None
  }

  /** After the final grouping, every mode gives each item the value it
      promises, and gives no row to an item it has no value for. */
  lemma ModeValue(mode: Mode, reg: seq<Pair>, ps: seq<Profile>, k: Key)
    ensures ValueAt(GroupMean(ModeRows(mode, reg, ps)), k) == Expected(mode, reg, ps, k)
  {
    match mode
    case Direct =>
      GroupMeanOfGrouped(DirectTable(ps));
      DirectMean(ps, k);
    case IntraProfile =>
      IntraMean(ps, k);
    case CrossProfile =>
      GroupMeanOfGrouped(CrossTable(reg, ps));
      CrossMean(reg, ps, k);
  }

  // ---------------------------------------------------------------------
  // Order of profiles

  /** The sample a mode averages for item k. */
  function Samples(mode: Mode, reg: seq<Pair>, ps: seq<Profile>, k: Key): seq<real>
  {
    match mode
    case Direct => AllScores(ps, k)
    case IntraProfile => ProfileMeans(ps, k)
    case CrossProfile => if k < |reg| then PooledDeltas(ps, k) else []
  }

  /** The sample of two runs of profiles is the first's followed by the
      second's. */
  lemma SamplesAppend(mode: Mode, reg: seq<Pair>, ps: seq<Profile>, qs: seq<Profile>, k: Key)
    ensures Samples(mode, reg, ps + qs, k) == Samples(mode, reg, ps, k) + Samples(mode, reg, qs, k)
  {
    match mode
    case Direct => AllScoresAppend(ps, qs, k);
    case IntraProfile => ProfileMeansAppend(ps, qs, k);
    case CrossProfile => PooledDeltasAppend(ps, qs, k);
  }

  lemma {:induction false} AllScoresAppend(ps: seq<Profile>, qs: seq<Profile>, k: Key)
    ensures AllScores(ps + qs, k) == AllScores(ps, k) + AllScores(qs, k)
  {
    if |ps| == 0 {
      assert ps + qs == qs;
    } else {
      assert (ps + qs)[0] == ps[0];
      assert (ps + qs)[1..] == ps[1..] + qs;
      AllScoresAppend(ps[1..], qs, k);
    }
  }

  lemma {:induction false} ProfileMeansAppend(ps: seq<Profile>, qs: seq<Profile>, k: Key)
    ensures ProfileMeans(ps + qs, k) == ProfileMeans(ps, k) + ProfileMeans(qs, k)
  {
    if |ps| == 0 {
      assert ps + qs == qs;
    } else {
      assert (ps + qs)[0] == ps[0];
      assert (ps + qs)[1..] == ps[1..] + qs;
      ProfileMeansAppend(ps[1..], qs, k);
    }
  }

  lemma {:induction false} PooledDeltasAppend(ps: seq<Profile>, qs: seq<Profile>, k: Key)
    ensures PooledDeltas(ps + qs, k) == PooledDeltas(ps, k) + PooledDeltas(qs, k)
  {
    if |ps| == 0 {
      assert ps + qs == qs;
    } else {
      assert (ps + qs)[0] == ps[0];
      assert (ps + qs)[1..] == ps[1..] + qs;
      PooledDeltasAppend(ps[1..], qs, k);
    }
  }

  lemma RemoveMatched(ps: seq<Profile>, qs: seq<Profile>, j: nat)
    requires multiset(ps) == multiset(qs) && |ps| > 0 && j < |qs| && qs[j] == ps[0]
    ensures multiset(ps[1..]) == multiset(qs[..j] + qs[j + 1..])
  {
    var x, left, right := ps[0], qs[..j], qs[j + 1..];
    assert qs == left + [x] + right;
    assert ps == [x] + ps[1..];
    assert multiset(ps) == multiset([x]) + multiset(ps[1..]);
    assert multiset(qs) == multiset(left + [x]) + multiset(right);
    assert multiset(left + [x]) == multiset(left) + multiset([x]);
    assert multiset(left + right) == multiset(left) + multiset(right);
    assert multiset(ps[1..]) == multiset(ps) - multiset([x]);
    assert multiset(left + right) == multiset(qs) - multiset([x]);
  }

  /** Moving the sample of one profile between two others keeps the sum and
      the size of the whole sample. */
  lemma SamplesMove(mode: Mode, reg: seq<Pair>, x: Profile, rest: seq<Profile>, left: seq<Profile>, right: seq<Profile>, k: Key)
    requires Sum(Samples(mode, reg, rest, k)) == Sum(Samples(mode, reg, left + right, k))
    requires |Samples(mode, reg, rest, k)| == |Samples(mode, reg, left + right, k)|
    ensures Sum(Samples(mode, reg, [x] + rest, k)) == Sum(Samples(mode, reg, left + [x] + right, k))
    ensures |Samples(mode, reg, [x] + rest, k)| == |Samples(mode, reg, left + [x] + right, k)|
  {
    var sx := Samples(mode, reg, [x], k);
    var sl, sr := Samples(mode, reg, left, k), Samples(mode, reg, right, k);
    SamplesAppend(mode, reg, [x], rest, k);
    SamplesAppend(mode, reg, left + [x], right, k);
    SamplesAppend(mode, reg, left, [x], k);
    SamplesAppend(mode, reg, left, right, k);
    SumAppend(sx, Samples(mode, reg, rest, k));
    SumAppend(sl + sx, sr);
    SumAppend(sl, sx);
    SumAppend(sl, sr);
  }

  /** Reordering the profiles changes neither the sum nor the size of any
      sample a mode averages. */
  lemma {:induction false} SamplesPermutation(mode: Mode, reg: seq<Pair>, ps: seq<Profile>, qs: seq<Profile>, k: Key)
    requires multiset(ps) == multiset(qs)
    ensures Sum(Samples(mode, reg, ps, k)) == Sum(Samples(mode, reg, qs, k))
    ensures |Samples(mode, reg, ps, k)| == |Samples(mode, reg, qs, k)|
    decreases |ps|
  {
    if |ps| == 0 {
      assert |qs| == |multiset(qs)| == 0;
      assert qs == [];
    } else {
      assert ps[0] in multiset(qs);
      var j :| 0 <= j < |qs| && qs[j] == ps[0];
      var x, rest, left, right := ps[0], ps[1..], qs[..j], qs[j + 1..];
      assert ps == [x] + rest;
      assert qs == left + [x] + right;
      RemoveMatched(ps, qs, j);
      SamplesPermutation(mode, reg, rest, left + right, k);
      SamplesMove(mode, reg, x, rest, left, right, k);
    }
  }

  /** Whatever the mode, the value it promises for an item does not depend
      on the order in which the profiles are processed. */
  lemma ProfileOrderIrrelevant(mode: Mode, reg: seq<Pair>, ps: seq<Profile>, qs: seq<Profile>, k: Key)
    requires multiset(ps) == multiset(qs)
    ensures Expected(mode, reg, ps, k) == Expected(mode, reg, qs, k)
  {
    SamplesPermutation(mode, reg, ps, qs, k);
  }

  /** Hence the final table gives every item the same value whichever order
      the profiles come in. */
  lemma FinalValueOrderIrrelevant(mode: Mode, reg: seq<Pair>, ps: seq<Profile>, qs: seq<Profile>, k: Key)
    requires multiset(ps) == multiset(qs)
    ensures ValueAt(GroupMean(ModeRows(mode, reg, ps)), k) == ValueAt(GroupMean(ModeRows(mode, reg, qs)), k)
  {
    ModeValue(mode, reg, ps, k);
    ModeValue(mode, reg, qs, k);
    ProfileOrderIrrelevant(mode, reg, ps, qs, k);
  }

  /** A profile with a single rating adds that score to type 0 and nothing
      to types 1 and 2. */
  lemma SingleRatingProfile(p: Profile, k: Key)
    requires |p| == 1
    ensures AllScores([p], k) == if p[0].key == k then [p[0].score] else []
    ensures ProfileMeans([p], k) == []
    ensures PooledDeltas([p], k) == []
  {
    BuildSingle(p);
    assert [p][1..] == [];
    assert p[1..] == [];
    assert ScoresOf(p, k) == (if p[0].key == k then [p[0].score] else []) + ScoresOf([], k);
  }
}
