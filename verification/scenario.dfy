/** A worked example: items X, Y, Z (keys 0, 1, 2); one MyAnimeList profile
    scores X=8, Y=6, Z=7, one Anilist profile scores X=9, Z=9. */
module Scenario {
  import opened Outcomes
  import opened Registry
  import opened Stats
  import opened Normalizer
  import opened Differences
  import opened Grouping
  import opened Aggregate
  import opened Ranker
  import opened Pipeline

  const Reg: seq<Pair> := [Pair(10, 110), Pair(20, 120), Pair(30, 130)]

  /** The MyAnimeList page also lists an unknown show (id 99), and lists Y
      a second time with score text that is not a number. */
  const MalEntries: seq<Observation> := [Observation(10, Some(8.0)), Observation(99, Some(5.0)),
    Observation(20, Some(6.0)), Observation(30, Some(7.0)), Observation(20, None)]

  /** The Anilist page lists Y unscored (score 0). */
  const AnilistEntries: seq<Observation> := [Observation(110, Some(9.0)), Observation(120, Some(0.0)),
    Observation(130, Some(9.0))]

  const Pages: seq<Page> := [MalPage(MalEntries), AnilistPage(AnilistEntries)]

  const P1: Profile := [Rating(0, 8.0), Rating(1, 6.0), Rating(2, 7.0)]
  const P2: Profile := [Rating(0, 9.0), Rating(2, 9.0)]

  lemma ScenarioLookups()
    ensures Lookup(Reg, 10) == Some(0) && Lookup(Reg, 20) == Some(1) && Lookup(Reg, 30) == Some(2)
    ensures Lookup(Reg, 110) == Some(0) && Lookup(Reg, 120) == Some(1) && Lookup(Reg, 130) == Some(2)
    ensures Lookup(Reg, 99) == None
  {
    RegistryShape();
    LookupPairRoundTrip(Reg, 0);
    LookupPairRoundTrip(Reg, 1);
    LookupPairRoundTrip(Reg, 2);
  }

  /** The example registry has no id in two pairs, and 99 is not in it. */
  lemma RegistryShape()
    ensures Unambiguous(Reg)
    ensures Reg[0] == Pair(10, 110) && Reg[1] == Pair(20, 120) && Reg[2] == Pair(30, 130)
    ensures Lookup(Reg, 99) == None
  {
  }

  /** One step of the MyAnimeList filter over a known, scored entry. */
  lemma MalKeep(reg: seq<Pair>, o: Observation, rest: seq<Observation>, k: Key, v: real)
    requires Lookup(reg, o.rawId) == Some(k) && o.score == Some(v)
    ensures CollectMal(reg, [o] + rest) == [Rating(k, v)] + CollectMal(reg, rest)
  {
    assert ([o] + rest)[0] == o && ([o] + rest)[1..] == rest;
  }

  /** One step of the MyAnimeList filter over an entry it skips. */
  lemma MalSkip(reg: seq<Pair>, o: Observation, rest: seq<Observation>)
    requires !Usable(reg, o)
    ensures CollectMal(reg, [o] + rest) == CollectMal(reg, rest)
  {
    assert ([o] + rest)[0] == o && ([o] + rest)[1..] == rest;
  }

  lemma MalShape()
    ensures MalEntries == [MalEntries[0]] + ([MalEntries[1]] + ([MalEntries[2]] + ([MalEntries[3]] + ([MalEntries[4]] + []))))
    ensures P1 == [Rating(0, 8.0)] + ([Rating(1, 6.0)] + ([Rating(2, 7.0)] + []))
  {
  }

  lemma ScenarioMal()
    ensures CollectMal(Reg, MalEntries) == P1
  {
    ScenarioLookups();
    MalShape();
    var o := MalEntries;
    assert CollectMal(Reg, []) == [];
    MalSkip(Reg, o[4], []);
    MalKeep(Reg, o[3], [o[4]] + [], 2, 7.0);
    MalKeep(Reg, o[2], [o[3]] + ([o[4]] + []), 1, 6.0);
    MalSkip(Reg, o[1], [o[2]] + ([o[3]] + ([o[4]] + [])));
    MalKeep(Reg, o[0], [o[1]] + ([o[2]] + ([o[3]] + ([o[4]] + []))), 0, 8.0);
  }

  /** One step of the Anilist filter over a known entry with a non-zero
      score, when the rest of the page succeeds. */
  lemma AnilistKeep(reg: seq<Pair>, o: Observation, rest: seq<Observation>, k: Key, v: real, p: Profile)
    requires Lookup(reg, o.rawId) == Some(k) && o.score == Some(v) && v != 0.0
    requires CollectAnilist(reg, rest) == Success(p)
    ensures CollectAnilist(reg, [o] + rest) == Success([Rating(k, v)] + p)
  {
    assert ([o] + rest)[0] == o && ([o] + rest)[1..] == rest;
  }

  /** One step of the Anilist filter over a known entry scored zero. */
  lemma AnilistZero(reg: seq<Pair>, o: Observation, rest: seq<Observation>, k: Key, p: Profile)
    requires Lookup(reg, o.rawId) == Some(k) && o.score == Some(0.0)
    requires CollectAnilist(reg, rest) == Success(p)
    ensures CollectAnilist(reg, [o] + rest) == Success(p)
  {
    assert ([o] + rest)[0] == o && ([o] + rest)[1..] == rest;
  }

  lemma AnilistShape()
    ensures AnilistEntries == [AnilistEntries[0]] + ([AnilistEntries[1]] + ([AnilistEntries[2]] + []))
    ensures P2 == [Rating(0, 9.0)] + ([Rating(2, 9.0)] + [])
  {
  }

  lemma ScenarioAnilist()
    ensures CollectAnilist(Reg, AnilistEntries) == Success(P2)
  {
    ScenarioLookups();
    AnilistShape();
    var o := AnilistEntries;
    assert CollectAnilist(Reg, []) == Success([]);
    AnilistKeep(Reg, o[2], [], 2, 9.0, []);
    AnilistZero(Reg, o[1], [o[2]] + [], 1, [Rating(2, 9.0)] + []);
    AnilistKeep(Reg, o[0], [o[1]] + ([o[2]] + []), 0, 9.0, [Rating(2, 9.0)] + []);
  }

  lemma CollectTwo(reg: seq<Pair>, a: Page, b: Page, p: Profile, q: Profile)
    requires CollectProfile(reg, a) == Success(p) && CollectProfile(reg, b) == Success(q)
    ensures CollectAll(reg, [a, b]) == Success([p, q])
  {
    var pages := [a, b];
    assert pages[1..] == [b];
    assert [b][1..] == [];
    assert CollectAll(reg, [b]) == Success([q] + []);
    assert [q] + [] == [q];
    assert [p] + [q] == [p, q];
  }

  /** The collector's pages become the two profiles: the unknown id, the
      known MyAnimeList entry whose score is not a number and the zero
      Anilist score are dropped. */
  lemma ScenarioCollect()
    ensures CollectAll(Reg, Pages) == Success([P1, P2])
  {
    ScenarioMal();
    ScenarioAnilist();
    CollectTwo(Reg, MalPage(MalEntries), AnilistPage(AnilistEntries), P1, P2);
  }

  const E1: seq<Entry> := [Entry(1, 0, 2.0), Entry(2, 0, 1.0), Entry(0, 1, -2.0),
                           Entry(2, 1, -1.0), Entry(0, 2, -1.0), Entry(1, 2, 1.0)]
  const E2: seq<Entry> := [Entry(2, 0, 0.0), Entry(0, 2, 0.0)]

  /** The first profile's six entries, row by row: anchor X, then Y, then Z. */
  lemma ScenarioBuild1()
    ensures Build(P1) == E1
  {
    assert RowEntries(P1, 0, 0) == [Entry(1, 0, 2.0), Entry(2, 0, 1.0)];
    assert RowEntries(P1, 1, 0) == [Entry(0, 1, -2.0), Entry(2, 1, -1.0)];
    assert RowEntries(P1, 2, 0) == [Entry(0, 2, -1.0), Entry(1, 2, 1.0)];
  }

  lemma ScenarioBuild2()
    ensures Build(P2) == E2
  {
    assert RowEntries(P2, 0, 0) == [Entry(2, 0, 0.0)];
    assert RowEntries(P2, 1, 0) == [Entry(0, 2, 0.0)];
  }

  /** A two-value sample whose values add up to twice m has mean m. */
  lemma Mean2(s: seq<real>, a: real, b: real, m: real)
    requires s == [a, b] && a + b == 2.0 * m
    ensures MeanOpt(s) == Some(m)
  {
    assert s[1..] == [b];
    assert [b][1..] == [];
    assert Sum([b]) == b;
    assert Sum(s) == a + b;
    assert (|s| as real) == 2.0;
  }

  /** A three-value sample whose values add up to three times m has mean m. */
  lemma Mean3(s: seq<real>, a: real, b: real, c: real, m: real)
    requires s == [a, b, c] && a + b + c == 3.0 * m
    ensures MeanOpt(s) == Some(m)
  {
    assert s[1..] == [b, c];
    assert [b, c][1..] == [c];
    assert [c][1..] == [];
    assert Sum([c]) == c;
    assert Sum([b, c]) == b + c;
    assert Sum(s) == a + b + c;
    assert (|s| as real) == 3.0;
  }

  lemma ScoresOf3(x: Rating, y: Rating, z: Rating, k: Key)
    ensures ScoresOf([x, y, z], k) ==
      (if x.key == k then [x.score] else []) + (if y.key == k then [y.score] else []) + (if z.key == k then [z.score] else [])
  {
    assert [x, y, z][1..] == [y, z];
    assert [y, z][1..] == [z];
    assert [z][1..] == [];
    var sz := if z.key == k then [z.score] else [];
    assert ScoresOf([z], k) == sz + ScoresOf([], k);
    assert ScoresOf([z], k) == sz;
    assert ScoresOf([y, z], k) == (if y.key == k then [y.score] else []) + ScoresOf([z], k);
    assert ScoresOf([x, y, z], k) == (if x.key == k then [x.score] else []) + ScoresOf([y, z], k);
  }

  lemma ScoresOf2(x: Rating, y: Rating, k: Key)
    ensures ScoresOf([x, y], k) == (if x.key == k then [x.score] else []) + (if y.key == k then [y.score] else [])
  {
    assert [x, y][1..] == [y];
    assert [y][1..] == [];
    var sy := if y.key == k then [y.score] else [];
    assert ScoresOf([y], k) == sy + ScoresOf([], k);
    assert ScoresOf([y], k) == sy;
    assert ScoresOf([x, y], k) == (if x.key == k then [x.score] else []) + ScoresOf([y], k);
  }

  lemma AllScores2(p: Profile, q: Profile, k: Key)
    ensures AllScores([p, q], k) == ScoresOf(p, k) + ScoresOf(q, k)
  {
    assert [p, q][1..] == [q];
    assert [q][1..] == [];
    assert AllScores([q], k) == ScoresOf(q, k) + AllScores([], k);
    assert AllScores([q], k) == ScoresOf(q, k);
    assert AllScores([p, q], k) == ScoresOf(p, k) + AllScores([q], k);
  }

  /** The scores each item received: X {8, 9}, Y {6}, Z {7, 9}. */
  lemma ScenarioAllScores(k: Key)
    ensures AllScores([P1, P2], k) ==
      if k == 0 then [8.0, 9.0] else if k == 1 then [6.0] else if k == 2 then [7.0, 9.0] else []
  {
    AllScores2(P1, P2, k);
    ScoresOf3(P1[0], P1[1], P1[2], k);
    ScoresOf2(P2[0], P2[1], k);
  }

  /** Type 0: X = (8+9)/2, Y = 6, Z = (7+9)/2. */
  lemma ScenarioDirect()
    ensures Expected(Direct, Reg, [P1, P2], 0) == Some(8.5)
    ensures Expected(Direct, Reg, [P1, P2], 1) == Some(6.0)
    ensures Expected(Direct, Reg, [P1, P2], 2) == Some(8.0)
    ensures forall k: Key :: k > 2 ==> Expected(Direct, Reg, [P1, P2], k) == None
  {
    assert MeanOpt(AllScores([P1, P2], 0)) == Some(8.5) by {
      ScenarioAllScores(0);
      Mean2(AllScores([P1, P2], 0), 8.0, 9.0, 8.5);
    }
    assert MeanOpt(AllScores([P1, P2], 1)) == Some(6.0) by {
      ScenarioAllScores(1);
      MeanSingle(6.0);
    }
    assert MeanOpt(AllScores([P1, P2], 2)) == Some(8.0) by {
      ScenarioAllScores(2);
      Mean2(AllScores([P1, P2], 2), 7.0, 9.0, 8.0);
    }
    forall k: Key | k > 2 ensures AllScores([P1, P2], k) == [] {
      ScenarioAllScores(k);
    }
  }

  lemma AnchorDeltas2(x: Entry, y: Entry, k: Key)
    ensures AnchorDeltas([x, y], k) == (if x.anchor == k then [x.delta] else []) + (if y.anchor == k then [y.delta] else [])
  {
    assert [x, y][1..] == [y];
    assert [y][1..] == [];
    var dy := if y.anchor == k then [y.delta] else [];
    assert AnchorDeltas([y], k) == dy + AnchorDeltas([], k);
    assert AnchorDeltas([y], k) == dy;
    assert AnchorDeltas([x, y], k) == (if x.anchor == k then [x.delta] else []) + AnchorDeltas([y], k);
  }

  /** The first profile's deltas by anchor: X {2, 1}, Y {-2, -1}, Z {-1, 1}. */
  lemma AnchorDeltasE1(k: Key)
    ensures AnchorDeltas(E1, k) ==
      if k == 0 then [2.0, 1.0] else if k == 1 then [-2.0, -1.0] else if k == 2 then [-1.0, 1.0] else []
  {
    var a, b, c := E1[..2], E1[2..4], E1[4..];
    assert E1 == a + b + c;
    AnchorDeltasAppend(a + b, c, k);
    AnchorDeltasAppend(a, b, k);
    assert a == [a[0], a[1]];
    AnchorDeltas2(a[0], a[1], k);
    assert b == [b[0], b[1]];
    AnchorDeltas2(b[0], b[1], k);
    assert c == [c[0], c[1]];
    AnchorDeltas2(c[0], c[1], k);
  }

  /** The second profile's deltas by anchor: X {0}, Z {0}. */
  lemma AnchorDeltasE2(k: Key)
    ensures AnchorDeltas(E2, k) == if k == 0 || k == 2 then [0.0] else []
  {
    assert E2 == [E2[0], E2[1]];
    AnchorDeltas2(E2[0], E2[1], k);
  }

  lemma ProfileMeans2(p: Profile, q: Profile, k: Key)
    ensures ProfileMeans([p, q], k) ==
      (match MeanOpt(AnchorDeltas(Build(p), k)) case None => [] case Some(v) => [v])
      + (match MeanOpt(AnchorDeltas(Build(q), k)) case None => [] case Some(v) => [v])
  {
    assert [p, q][1..] == [q];
    assert [q][1..] == [];
    var mq := match MeanOpt(AnchorDeltas(Build(q), k)) case None => [] case Some(v) => [v];
    assert ProfileMeans([q], k) == mq + ProfileMeans([], k);
    assert ProfileMeans([q], k) == mq;
  }

  lemma PooledDeltas2(p: Profile, q: Profile, k: Key)
    ensures PooledDeltas([p, q], k) == AnchorDeltas(Build(p), k) + AnchorDeltas(Build(q), k)
  {
    assert [p, q][1..] == [q];
    assert [q][1..] == [];
    assert PooledDeltas([q], k) == AnchorDeltas(Build(q), k) + PooledDeltas([], k);
    assert PooledDeltas([q], k) == AnchorDeltas(Build(q), k);
  }

  /** Per profile, X = mean(2, 1) = 1.5, Y = -1.5, Z = mean(-1, 1) = 0 in
      the first and X = Z = 0 in the second. */
  lemma ScenarioProfileMean1(k: Key)
    ensures MeanOpt(AnchorDeltas(Build(P1), k)) ==
      if k == 0 then Some(1.5) else if k == 1 then Some(-1.5) else if k == 2 then Some(0.0) else None
  {
    ScenarioBuild1();
    AnchorDeltasE1(k);
    if k == 0 {
      Mean2(AnchorDeltas(Build(P1), k), 2.0, 1.0, 1.5);
    } else if k == 1 {
      Mean2(AnchorDeltas(Build(P1), k), -2.0, -1.0, -1.5);
    } else if k == 2 {
      Mean2(AnchorDeltas(Build(P1), k), -1.0, 1.0, 0.0);
    }
  }

  lemma ScenarioProfileMean2(k: Key)
    ensures MeanOpt(AnchorDeltas(Build(P2), k)) == if k == 0 || k == 2 then Some(0.0) else None
  {
    ScenarioBuild2();
    AnchorDeltasE2(k);
    MeanSingle(0.0);
  }

  lemma ScenarioProfileMeans(k: Key)
    ensures ProfileMeans([P1, P2], k) ==
      if k == 0 then [1.5, 0.0] else if k == 1 then [-1.5] else if k == 2 then [0.0, 0.0] else []
  {
    ProfileMeans2(P1, P2, k);
    ScenarioProfileMean1(k);
    ScenarioProfileMean2(k);
    if k == 0 {
      assert ProfileMeans([P1, P2], k) == [1.5] + [0.0];
    } else if k == 1 {
      assert ProfileMeans([P1, P2], k) == [-1.5] + [];
    } else if k == 2 {
      assert ProfileMeans([P1, P2], k) == [0.0] + [0.0];
    } else {
      assert ProfileMeans([P1, P2], k) == [] + [];
    }
  }

  /** Type 1: across profiles X = 0.75, Y = -1.5, Z = 0. */
  lemma ScenarioIntra()
    ensures Expected(IntraProfile, Reg, [P1, P2], 0) == Some(0.75)
    ensures Expected(IntraProfile, Reg, [P1, P2], 1) == Some(-1.5)
    ensures Expected(IntraProfile, Reg, [P1, P2], 2) == Some(0.0)
    ensures forall k: Key :: k > 2 ==> Expected(IntraProfile, Reg, [P1, P2], k) == None
  {
    assert MeanOpt(ProfileMeans([P1, P2], 0)) == Some(0.75) by {
      ScenarioProfileMeans(0);
      Mean2(ProfileMeans([P1, P2], 0), 1.5, 0.0, 0.75);
    }
    assert MeanOpt(ProfileMeans([P1, P2], 1)) == Some(-1.5) by {
      ScenarioProfileMeans(1);
      MeanSingle(-1.5);
    }
    assert MeanOpt(ProfileMeans([P1, P2], 2)) == Some(0.0) by {
      ScenarioProfileMeans(2);
      Mean2(ProfileMeans([P1, P2], 2), 0.0, 0.0, 0.0);
    }
    forall k: Key | k > 2 ensures ProfileMeans([P1, P2], k) == [] {
      ScenarioProfileMeans(k);
    }
  }

  /** The pooled deltas: X = {2, 1, 0}, Y = {-2, -1}, Z = {-1, 1, 0}. */
  lemma ScenarioPooled(k: Key)
    ensures PooledDeltas([P1, P2], k) ==
      if k == 0 then [2.0, 1.0, 0.0] else if k == 1 then [-2.0, -1.0] else if k == 2 then [-1.0, 1.0, 0.0] else []
  {
    ScenarioBuild1();
    ScenarioBuild2();
    PooledDeltas2(P1, P2, k);
    AnchorDeltasE1(k);
    AnchorDeltasE2(k);
    if k == 0 {
      assert PooledDeltas([P1, P2], k) == [2.0, 1.0] + [0.0];
    } else if k == 1 {
      assert PooledDeltas([P1, P2], k) == [-2.0, -1.0] + [];
    } else if k == 2 {
      assert PooledDeltas([P1, P2], k) == [-1.0, 1.0] + [0.0];
    } else {
      assert PooledDeltas([P1, P2], k) == [] + [];
    }
  }

  /** Type 2: X = 1, Y = -1.5, Z = 0. */
  lemma ScenarioCross()
    ensures Expected(CrossProfile, Reg, [P1, P2], 0) == Some(1.0)
    ensures Expected(CrossProfile, Reg, [P1, P2], 1) == Some(-1.5)
    ensures Expected(CrossProfile, Reg, [P1, P2], 2) == Some(0.0)
    ensures forall k: Key :: k > 2 ==> Expected(CrossProfile, Reg, [P1, P2], k) == None
  {
    assert |Reg| == 3;
    assert MeanOpt(PooledDeltas([P1, P2], 0)) == Some(1.0) by {
      ScenarioPooled(0);
      Mean3(PooledDeltas([P1, P2], 0), 2.0, 1.0, 0.0, 1.0);
    }
    assert MeanOpt(PooledDeltas([P1, P2], 1)) == Some(-1.5) by {
      ScenarioPooled(1);
      Mean2(PooledDeltas([P1, P2], 1), -2.0, -1.0, -1.5);
    }
    assert MeanOpt(PooledDeltas([P1, P2], 2)) == Some(0.0) by {
      ScenarioPooled(2);
      Mean3(PooledDeltas([P1, P2], 2), -1.0, 1.0, 0.0, 0.0);
    }
  }

  /** A sorted table with one row per key whose only keys are a, b, c, with
      values va > vb > vc, is exactly those three rows in that order. */
  lemma ThreeRowTable(r: seq<Row>, a: Key, b: Key, c: Key, va: real, vb: real, vc: real)
    requires Descending(r) && OneRowPerKey(r)
    requires a != b && b != c && a != c
    requires va > vb > vc
    requires forall k :: ValueAt(r, k) == if k == a then Some(va) else if k == b then Some(vb) else if k == c then Some(vc) else None
    ensures r == [Row(a, va), Row(b, vb), Row(c, vc)]
  {
    forall i | 0 <= i < |r| ensures r[i] == Row(a, va) || r[i] == Row(b, vb) || r[i] == Row(c, vc) {
      ValueAtFinds(r, r[i].key);
      ValueAtMember(r, r[i].key, r[i].value);
    }
    ValueAtMember(r, a, va);
    ValueAtMember(r, b, vb);
    ValueAtMember(r, c, vc);
    var ia :| 0 <= ia < |r| && r[ia] == Row(a, va);
    var ib :| 0 <= ib < |r| && r[ib] == Row(b, vb);
    var ic :| 0 <= ic < |r| && r[ic] == Row(c, vc);
    assert ia < ib < ic;
    SamePosition(r, 0, ia, ib, ic);
    SamePosition(r, 1, ia, ib, ic);
    SamePosition(r, 2, ia, ib, ic);
    SamePosition(r, |r| - 1, ia, ib, ic);
    assert ia == 0 && ib == 1 && ic == 2;
  }

  lemma SamePosition(r: seq<Row>, i: nat, ia: nat, ib: nat, ic: nat)
    requires OneRowPerKey(r)
    requires i < |r| && ia < |r| && ib < |r| && ic < |r|
    requires r[i].key == r[ia].key || r[i].key == r[ib].key || r[i].key == r[ic].key
    ensures i == ia || i == ib || i == ic
  {
  }

  /** Type 0 end to end: the table ranks X (8.5), Z (8), Y (6). */
  lemma ScenarioRunDirect()
    ensures Run(Reg, 0, Pages) == Success([Row(0, 8.5), Row(2, 8.0), Row(1, 6.0)])
  {
    ScenarioCollect();
    ScenarioDirect();
    forall k: Key ensures ValueAt(Run(Reg, 0, Pages).value, k) == Expected(Direct, Reg, [P1, P2], k) {
      RunValue(Reg, 0, Pages, k);
    }
    ThreeRowTable(Run(Reg, 0, Pages).value, 0, 2, 1, 8.5, 8.0, 6.0);
  }

  /** Type 1 end to end: the table ranks X (0.75), Z (0), Y (-1.5). */
  lemma ScenarioRunIntra()
    ensures Run(Reg, 1, Pages) == Success([Row(0, 0.75), Row(2, 0.0), Row(1, -1.5)])
  {
    ScenarioCollect();
    ScenarioIntra();
    forall k: Key ensures ValueAt(Run(Reg, 1, Pages).value, k) == Expected(IntraProfile, Reg, [P1, P2], k) {
      RunValue(Reg, 1, Pages, k);
    }
    ThreeRowTable(Run(Reg, 1, Pages).value, 0, 2, 1, 0.75, 0.0, -1.5);
  }

  /** Type 2 end to end: the table ranks X (1), Z (0), Y (-1.5). */
  lemma ScenarioRunCross()
    ensures Run(Reg, 2, Pages) == Success([Row(0, 1.0), Row(2, 0.0), Row(1, -1.5)])
  {
    ScenarioCollect();
    ScenarioCross();
    forall k: Key ensures ValueAt(Run(Reg, 2, Pages).value, k) == Expected(CrossProfile, Reg, [P1, P2], k) {
      RunValue(Reg, 2, Pages, k);
    }
    ThreeRowTable(Run(Reg, 2, Pages).value, 0, 2, 1, 1.0, 0.0, -1.5);
  }
}
