/** The whole ranking run (comcollect.py:107-271) from the collector's
    pages: every page is filtered into a profile, the selected mode
    aggregates the profiles, and the result is grouped and ranked. */
module Pipeline {
  import opened Outcomes
  import opened Registry
  import opened Normalizer
  import opened Grouping
  import opened Aggregate
  import opened Ranker

  /** One profile page as the collector hands it over: the scraped list
      entries of an Anilist page or of a MyAnimeList page (either layout). */
  datatype Page = AnilistPage(entries: seq<Observation>) | MalPage(entries: seq<Observation>)

  /** The filter for the page's site. */
  function CollectProfile(reg: seq<Pair>, page: Page): Result<Profile, ScrapeError>
  {
    match page
    case AnilistPage(obs) => CollectAnilist(reg, obs)
    case MalPage(obs) => Success(CollectMal(reg, obs))
  }

  /** Every page's profile, in page order; the first page that aborts
      aborts the run. */
  function CollectAll(reg: seq<Pair>, pages: seq<Page>): (r: Result<seq<Profile>, ScrapeError>)
    ensures r.Failure? <==> exists i :: 0 <= i < |pages| && CollectProfile(reg, pages[i]).Failure?
    ensures r.Success? ==> |r.value| == |pages|
    ensures r.Success? ==> forall i :: 0 <= i < |pages| ==> CollectProfile(reg, pages[i]) == Success(r.value[i])
  {
    if |pages| == 0 then Success([])
    else
      assert forall i :: 1 <= i < |pages| ==> pages[i] == pages[1..][i - 1];
      match CollectProfile(reg, pages[0])
      case Failure(e) => Failure(e)
      case Success(p) =>
        match CollectAll(reg, pages[1..])
        case Failure(e) => Failure(e)
        case Success(ps) => Success([p] + ps)
  }

  /** Why a run ends without a table: a page aborted, or `compare_type` is
      0 and there were no pages, so the direct table never gained the
      `Title` column that comcollect.py:256 drops. */
  datatype RunError = PageAborted(cause: ScrapeError) | NoTitleColumn

  /** The final table of a run with the given `compare_type`: sorted highest
      score first, one row per item; a `compare_type` other than 0, 1 or 2
      gives an empty table. The run aborts when some page does, and a direct
      run over no pages fails when it drops the missing `Title` column. */
  function Run(reg: seq<Pair>, compareType: int, pages: seq<Page>): (r: Result<seq<Row>, RunError>)
    ensures r.Failure? <==>
      (exists i :: 0 <= i < |pages| && CollectProfile(reg, pages[i]).Failure?) || (compareType == 0 && |pages| == 0)
    ensures r.Failure? ==> (r.error.NoTitleColumn? <==> compareType == 0 && |pages| == 0)
    ensures r.Success? ==> Descending(r.value) && OneRowPerKey(r.value)
    ensures r.Success? && ModeOf(compareType).None? ==> r.value == []
  {
    match CollectAll(reg, pages)
    case Failure(e) => Failure(PageAborted(e))
    case Success(ps) =>
      if compareType == 0 && |pages| == 0 then Failure(NoTitleColumn)
      else
        match ModeOf(compareType)
        case None => Success(Rank([]))
        case Some(mode) => Success(Rank(ModeRows(mode, reg, ps)))
  }

  /** End to end: item k's row in the final table holds exactly the value
      the selected mode promises over the collected profiles, and an item
      the mode has no value for has no row. */
  lemma RunValue(reg: seq<Pair>, compareType: int, pages: seq<Page>, k: Key)
    requires Run(reg, compareType, pages).Success?
    ensures ValueAt(Run(reg, compareType, pages).value, k) ==
      match ModeOf(compareType)
      case None => None
      case Some(mode) => Expected(mode, reg, CollectAll(reg, pages).value, k)
  {
    if ModeOf(compareType).Some? {
      ModeValue(ModeOf(compareType).value, reg, CollectAll(reg, pages).value, k);
    }
  }
}
