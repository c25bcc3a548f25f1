/** The item registry: the configured MyAnimeList ids paired position by
    position with the configured Anilist ids (comcollect.py:45-52, 99), and
    the lookup that maps a scraped id to the pair holding it
    (comcollect.py:138-142, 160-164, 184-188). */
module Registry {
  import opened Outcomes

  /** The canonical key of an item: the position of its pair in the list. */
  type Key = nat

  /** One item's identifiers on the two sites. */
  datatype Pair = Pair(mal: int, anilist: int)

  /** Python's `id in [mal, anilist]`: the id is either of the pair's two
      identifiers, whichever site it was scraped from. */
  predicate Contains(p: Pair, id: int)
  {
    id == p.mal || id == p.anilist
  }

  /** The pair list `list(map(lambda x, y: [x, y], mal_ids, anilist_ids))`:
      the i-th MyAnimeList id with the i-th Anilist id; like Python's
      two-argument `map`, it stops at the end of the shorter list. */
  function MakePairs(malIds: seq<int>, anilistIds: seq<int>): (r: seq<Pair>)
    ensures |r| == if |malIds| <= |anilistIds| then |malIds| else |anilistIds|
    ensures forall i :: 0 <= i < |r| ==> r[i].mal == malIds[i] && r[i].anilist == anilistIds[i]
  {
    if |malIds| == 0 || |anilistIds| == 0 then []
    else [Pair(malIds[0], anilistIds[0])] + MakePairs(malIds[1..], anilistIds[1..])
  }

  /** The key of the first pair, in list order, that contains id; None when
      no pair contains it (the caller then skips the observation). */
  function Lookup(reg: seq<Pair>, id: int): (r: Option<Key>)
    ensures r.Some? ==> r.value < |reg| && Contains(reg[r.value], id)
    ensures r.Some? ==> forall j :: 0 <= j < r.value ==> !Contains(reg[j], id)
    ensures r.None? <==> forall j :: 0 <= j < |reg| ==> !Contains(reg[j], id)
  {
    if |reg| == 0 then None
    else if Contains(reg[0], id) then Some(0)
    else match Lookup(reg[1..], id)
      case None => None
      case Some(k) => Some(k + 1)
  }

  /** No identifier of a pair also appears in an earlier pair. */
  ghost predicate Unambiguous(reg: seq<Pair>)
  {
    forall j, i :: 0 <= j < i < |reg| ==> !Contains(reg[j], reg[i].mal) && !Contains(reg[j], reg[i].anilist)
  }

  /** In an unambiguous registry, looking up either identifier of the i-th
      pair gives back key i: the two ids at one list position are one item. */
  lemma LookupPairRoundTrip(reg: seq<Pair>, i: nat)
    requires Unambiguous(reg)
    requires i < |reg|
    ensures Lookup(reg, reg[i].mal) == Some(i)
    ensures Lookup(reg, reg[i].anilist) == Some(i)
  {
  }

  /** The configured MyAnimeList ids (comcollect.py:45-48). */
  const MalIds: seq<int> := [80, 85, 8839, 86, 87, 82, 84, 2695, 81, 17717, 1917, 1916, 4232, 31973, 34391, 23943, 6336, 35224, 37764,
    37765, 10937, 88, 89, 23259, 31454, 96, 90, 2273, 92, 95, 93, 2298, 94, 1215, 1241, 2581, 3927, 6288, 10808,
    17655, 19319, 35982, 24625, 30533, 35567, 37247, 37245, 40192, 40942, 44050, 31251, 33051, 52168, 49828,
    7060, 41063, 49211]

  /** The configured Anilist ids, in the same order (comcollect.py:49-52). */
  const AnilistIds: seq<int> := [80, 85, 8839, 86, 87, 82, 84, 2695, 81, 17717, 1917, 1916, 4232, 21458, 97853, 20707, 6336, 98504,
    101554, 105595, 10937, 88, 89, 20658, 102525, 96, 90, 2273, 92, 95, 93, 2298, 94, 1215, 1241, 2581, 3927,
    6288, 10808, 17655, 19319, 99732, 20739, 21814, 99731, 102622, 101036, 110786, 114233, 126662, 21268,
    21749, 146922, 139274, 7060, 114841, 135645]

  /** The configured lists have the same length, so pairing them drops no
      id: the registry has one item per configured MyAnimeList id. */
  lemma ConfiguredPairsComplete()
    ensures |MakePairs(MalIds, AnilistIds)| == |MalIds| == |AnilistIds| == 57
  {
  }
}
