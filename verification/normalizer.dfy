/** The per-profile score filters: the collector's scraped (id, score)
    entries are resolved through the registry and filtered into the
    profile's ratings (comcollect.py:133-148 for Anilist, 153-173 and
    176-197 for the two MyAnimeList page layouts). */
module Normalizer {
  import opened Outcomes
  import opened Registry

  /** One scraped list entry: the site's numeric item id, and its score text
      read as a number, None when the text is not a number. */
  datatype Observation = Observation(rawId: int, score: Option<real>)

  /** One kept observation: the item's key and the profile's score for it. */
  datatype Rating = Rating(key: Key, score: real)

  /** A profile: its kept ratings in page order. The same key may occur
      more than once; nothing removes repeats. */
  type Profile = seq<Rating>

  /** The one way a profile aborts the run: an Anilist score text that is not
      a number reaches `float(...)` outside any `try`. */
  datatype ScrapeError = ScoreNotNumeric(rawId: int)

  /** The entry is known to the registry and its score text is a number. */
  predicate Usable(reg: seq<Pair>, o: Observation)
  {
    Lookup(reg, o.rawId).Some? && o.score.Some?
  }

  /** The rating a usable entry becomes. */
  function RatingOf(reg: seq<Pair>, o: Observation): Rating
    requires Usable(reg, o)
  {
    Rating(Lookup(reg, o.rawId).value, o.score.value)
  }

  /** The MyAnimeList filter: an entry whose id no pair contains is skipped,
      an entry whose score text is not a number is skipped without stopping
      the profile, and every other entry is kept with its score, zero
      included. */
  function CollectMal(reg: seq<Pair>, obs: seq<Observation>): (r: Profile)
    ensures |r| <= |obs|
    ensures forall i :: 0 <= i < |r| ==> r[i].key < |reg|
    ensures forall x :: x in r ==> exists o :: o in obs && Usable(reg, o) && x == RatingOf(reg, o)
    ensures forall o :: o in obs && Usable(reg, o) ==> RatingOf(reg, o) in r
  {
    if |obs| == 0 then []
    else
      var rest := CollectMal(reg, obs[1..]);
      assert forall o :: o in obs[1..] ==> o in obs;
      assert forall o :: o in obs ==> o == obs[0] || o in obs[1..];
      match Lookup(reg, obs[0].rawId)
      case None => rest
      case Some(k) =>
        match obs[0].score
        case None => rest
        case Some(s) =>
          assert Usable(reg, obs[0]) && RatingOf(reg, obs[0]) == Rating(k, s);
          [Rating(k, s)] + rest
  }

  /** Skipping an entry never stops the profile: the ratings of two runs of
      entries are those of the first followed by those of the second. */
  lemma {:induction false} CollectMalAppend(reg: seq<Pair>, a: seq<Observation>, b: seq<Observation>)
    ensures CollectMal(reg, a + b) == CollectMal(reg, a) + CollectMal(reg, b)
  {
    if |a| == 0 {
      assert a + b == b;
    } else {
      assert (a + b)[0] == a[0];
      assert (a + b)[1..] == a[1..] + b;
      CollectMalAppend(reg, a[1..], b);
    }
  }

  /** The Anilist filter: an entry whose id no pair contains is skipped
      before its score is read; a known entry whose score text is not a
      number aborts the run; a known entry whose score is 0 (an unscored
      entry) is dropped; every other entry is kept. */
  function CollectAnilist(reg: seq<Pair>, obs: seq<Observation>): (r: Result<Profile, ScrapeError>)
    ensures r.Failure? <==> exists o :: o in obs && Lookup(reg, o.rawId).Some? && o.score.None?
    ensures r.Success? ==> |r.value| <= |obs|
    ensures r.Success? ==> forall i :: 0 <= i < |r.value| ==> r.value[i].key < |reg| && r.value[i].score != 0.0
    ensures r.Success? ==> forall x :: x in r.value ==> exists o :: o in obs && Usable(reg, o) && x == RatingOf(reg, o)
    ensures r.Success? ==> forall o :: o in obs && Usable(reg, o) && o.score.value != 0.0 ==> RatingOf(reg, o) in r.value
  {
    if |obs| == 0 then Success([])
    else
      assert forall o :: o in obs[1..] ==> o in obs;
      assert forall o :: o in obs ==> o == obs[0] || o in obs[1..];
      match Lookup(reg, obs[0].rawId)
      case None => CollectAnilist(reg, obs[1..])
      case Some(k) =>
        match obs[0].score
        case None => Failure(ScoreNotNumeric(obs[0].rawId))
        case Some(s) =>
          match CollectAnilist(reg, obs[1..])
          case Failure(e) => Failure(e)
          case Success(rest) =>
            assert Usable(reg, obs[0]) && RatingOf(reg, obs[0]) == Rating(k, s);
            if s == 0.0 then Success(rest) else Success([Rating(k, s)] + rest)
  }

  /** The ratings of a profile whose score is not zero, in their order. */
  function NonZero(p: Profile): (r: Profile)
    ensures |r| <= |p|
    ensures forall x :: x in r <==> x in p && x.score != 0.0
  {
    if |p| == 0 then []
    else if p[0].score == 0.0 then NonZero(p[1..])
    else [p[0]] + NonZero(p[1..])
  }

  /** A successful Anilist profile is the MyAnimeList filter's profile with
      the zero scores dropped: every other entry is kept, once per listing
      and in page order. */
  lemma {:induction false} CollectAnilistAsMal(reg: seq<Pair>, obs: seq<Observation>)
    requires CollectAnilist(reg, obs).Success?
    ensures CollectAnilist(reg, obs).value == NonZero(CollectMal(reg, obs))
  {
    if |obs| > 0 {
      CollectAnilistAsMal(reg, obs[1..]);
      if Lookup(reg, obs[0].rawId).Some? {
        var x := Rating(Lookup(reg, obs[0].rawId).value, obs[0].score.value);
        var rest := CollectMal(reg, obs[1..]);
        assert CollectMal(reg, obs) == [x] + rest;
        assert ([x] + rest)[0] == x && ([x] + rest)[1..] == rest;
      }
    }
  }

  /** Two partial profiles read one after the other: the first abort wins,
      otherwise the ratings are concatenated. */
  function ThenCollect(x: Result<Profile, ScrapeError>, y: Result<Profile, ScrapeError>): Result<Profile, ScrapeError>
  {
    match x
    case Failure(e) => Failure(e)
    case Success(u) =>
      match y
      case Failure(e) => Failure(e)
      case Success(v) => Success(u + v)
  }

  /** The Anilist filter walks the page in one pass: on two runs of entries
      it aborts where the first run aborts, else where the second does, and
      otherwise keeps the first run's ratings followed by the second's. */
  lemma {:induction false} CollectAnilistAppend(reg: seq<Pair>, a: seq<Observation>, b: seq<Observation>)
    ensures CollectAnilist(reg, a + b) == ThenCollect(CollectAnilist(reg, a), CollectAnilist(reg, b))
  {
    if |a| == 0 {
      assert a + b == b;
      if CollectAnilist(reg, b).Success? {
        assert [] + CollectAnilist(reg, b).value == CollectAnilist(reg, b).value;
      }
    } else {
      CollectAnilistAppend(reg, a[1..], b);
      CollectAnilistAppendCons(reg, a, b);
    }
  }

  /** The inductive step of CollectAnilistAppend: the law for the tail of
      `a` gives it for `a`, by cases on the head entry. */
  lemma CollectAnilistAppendCons(reg: seq<Pair>, a: seq<Observation>, b: seq<Observation>)
    requires |a| > 0
    requires CollectAnilist(reg, a[1..] + b) == ThenCollect(CollectAnilist(reg, a[1..]), CollectAnilist(reg, b))
    ensures CollectAnilist(reg, a + b) == ThenCollect(CollectAnilist(reg, a), CollectAnilist(reg, b))
  {
    if Lookup(reg, a[0].rawId).Some? && a[0].score.Some? {
      CollectAnilistAppendKept(reg, a, b);
    } else {
      CollectAnilistAppendHead(reg, a, b);
    }
  }

  /** The step when the head entry is unknown, or known with a score text
      that is not a number. */
  lemma CollectAnilistAppendHead(reg: seq<Pair>, a: seq<Observation>, b: seq<Observation>)
    requires |a| > 0
    requires !(Lookup(reg, a[0].rawId).Some? && a[0].score.Some?)
    requires CollectAnilist(reg, a[1..] + b) == ThenCollect(CollectAnilist(reg, a[1..]), CollectAnilist(reg, b))
    ensures CollectAnilist(reg, a + b) == ThenCollect(CollectAnilist(reg, a), CollectAnilist(reg, b))
  {
    SplitHead(a, b);
  }

  /** The step when the head entry is known and scored. */
  lemma CollectAnilistAppendKept(reg: seq<Pair>, a: seq<Observation>, b: seq<Observation>)
    requires |a| > 0
    requires Lookup(reg, a[0].rawId).Some? && a[0].score.Some?
    requires CollectAnilist(reg, a[1..] + b) == ThenCollect(CollectAnilist(reg, a[1..]), CollectAnilist(reg, b))
    ensures CollectAnilist(reg, a + b) == ThenCollect(CollectAnilist(reg, a), CollectAnilist(reg, b))
  {
    SplitHead(a, b);
    var x := Rating(Lookup(reg, a[0].rawId).value, a[0].score.value);
    var ct, cb := CollectAnilist(reg, a[1..]), CollectAnilist(reg, b);
    if ct.Success? && cb.Success? && x.score != 0.0 {
      ConsAssoc(x, ct.value, cb.value);
    }
  }

  /** Splitting off the head of a concatenation. */
  lemma SplitHead<T>(a: seq<T>, b: seq<T>)
    requires |a| > 0
    ensures (a + b)[0] == a[0] && (a + b)[1..] == a[1..] + b
  {
  }

  /** Concatenation after a single element is associative. */
  lemma ConsAssoc<T>(x: T, u: seq<T>, v: seq<T>)
    ensures [x] + (u + v) == ([x] + u) + v
  {
  }

  /** The abort names the first known entry whose score text is not a
      number. */
  lemma {:induction false} CollectAnilistFailsAtFirst(reg: seq<Pair>, obs: seq<Observation>)
    requires CollectAnilist(reg, obs).Failure?
    ensures exists j :: (0 <= j < |obs| && Lookup(reg, obs[j].rawId).Some? && obs[j].score.None?
                         && CollectAnilist(reg, obs).error == ScoreNotNumeric(obs[j].rawId)
                         && (forall i :: 0 <= i < j ==> !(Lookup(reg, obs[i].rawId).Some? && obs[i].score.None?)))
  {
    if Lookup(reg, obs[0].rawId).None? || obs[0].score.Some? {
      CollectAnilistFailsAtFirst(reg, obs[1..]);
      var j :| 0 <= j < |obs[1..]| && Lookup(reg, obs[1..][j].rawId).Some? && obs[1..][j].score.None?
        && CollectAnilist(reg, obs[1..]).error == ScoreNotNumeric(obs[1..][j].rawId)
        && (forall i :: 0 <= i < j ==> !(Lookup(reg, obs[1..][i].rawId).Some? && obs[1..][i].score.None?));
      assert obs[j + 1] == obs[1..][j];
      forall i | 1 <= i < j + 1 ensures !(Lookup(reg, obs[i].rawId).Some? && obs[i].score.None?) {
        assert obs[i] == obs[1..][i - 1];
      }
    }
  }
}
