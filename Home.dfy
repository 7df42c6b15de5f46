/** The home page: one joined fetch of the trending list and the "techno" and "live"
    category lists, the hero picked from the trending list, and three rails, the last of
    which joins the two category lists and keeps its first ten entries. */
module Home {
  import opened Types
  import opened BookmarkService

  /** How many entries the "Trending Now" rail keeps. */
  const TrendingLimit := 10

  function Min(a: int, b: int): (m: int)
    ensures m <= a && m <= b && (m == a || m == b)
  {
    if a <= b then a else b
  }

  /** `[...techno, ...live].slice(0, 10)`. */
  function TrendingNow(techno: seq<Event>, live: seq<Event>): (r: seq<Event>)
    ensures |r| == Min(TrendingLimit, |techno| + |live|)
    ensures r <= techno + live
  {
    (techno + live)[..Min(TrendingLimit, |techno| + |live|)]
  }

  /** When both lists fit, the rail keeps every entry of both, duplicates included: an
      id occurs in it as often as in the two lists together. */
  lemma TrendingKeepsDuplicates(techno: seq<Event>, live: seq<Event>, id: string)
    requires |techno| + |live| <= TrendingLimit
    ensures TrendingNow(techno, live) == techno + live
    ensures CountId(TrendingNow(techno, live), id) == CountId(techno, id) + CountId(live, id)
  {
    assert (techno + live)[..|techno| + |live|] == techno + live;
    CountIdAppend(techno, live, id);
  }

  /** Four techno and three live events sharing one id give seven entries, with that id
      twice. */
  lemma SharedEventShownTwice(techno: seq<Event>, live: seq<Event>, e: Event)
    requires |techno| == 4 && |live| == 3
    requires CountId(techno, e.id) == 1 && CountId(live, e.id) == 1
    ensures |TrendingNow(techno, live)| == 7
    ensures CountId(TrendingNow(techno, live), e.id) == 2
  {
    TrendingKeepsDuplicates(techno, live, e.id);
  }

  /** The techno events come first: as many of them as fit are the rail's opening. */
  lemma TrendingStartsWithTechno(techno: seq<Event>, live: seq<Event>)
    ensures |techno| <= TrendingLimit ==> TrendingNow(techno, live)[..|techno|] == techno
    ensures |techno| > TrendingLimit ==> TrendingNow(techno, live) == techno[..TrendingLimit]
  {
    var r := TrendingNow(techno, live);
    if |techno| <= TrendingLimit {
      assert r[..|techno|] == (techno + live)[..|techno|];
      assert (techno + live)[..|techno|] == techno;
    } else {
      assert r == (techno + live)[..TrendingLimit];
    }
  }

  /** What the joined fetch resolved to: each list may be `null`. */
  datatype HomeFetch = HomeFetch(trend: Option<seq<Event>>, techno: Option<seq<Event>>, live: Option<seq<Event>>)

  /** A rail: a title and the events it shows. */
  datatype Rail = Rail(title: string, events: seq<Event>)

  class HomePage {
    /** The hero's event. */
    var trending: Option<Event>
    var technoEvents: seq<Event>
    var liveEvents: seq<Event>
    var loading: bool

    constructor ()
      ensures trending == None && technoEvents == [] && liveEvents == [] && loading
    {
      trending := None;
      technoEvents := [];
      liveEvents := [];
      loading := true;
    }

    /** `fetchData`. `result` is `None` when the joined fetch rejects: then only `loading`
        changes. Otherwise the hero becomes the first trending event when there is one
        (else it stays as it was) and each rail takes its list, or `[]` for `null`.
        `loading` ends false either way. */
    method FetchData(result: Option<HomeFetch>)
      modifies this
      ensures !loading
      ensures result.None? ==>
        trending == old(trending) && technoEvents == old(technoEvents) && liveEvents == old(liveEvents)
      ensures result.Some? ==>
        && (result.value.trend.Some? && |result.value.trend.value| > 0 ==> trending == Some(result.value.trend.value[0]))
        && (result.value.trend.None? || |result.value.trend.value| == 0 ==> trending == old(trending))
        && technoEvents == (if result.value.techno.Some? then result.value.techno.value else [])
        && liveEvents == (if result.value.live.Some? then result.value.live.value else [])
    {
      if result.Some? {
        var data := result.value;
        if data.trend.Some? && |data.trend.value| > 0 {
          trending := Some(data.trend.value[0]);
        }
        technoEvents := if data.techno.Some? then data.techno.value else [];
        liveEvents := if data.live.Some? then data.live.value else [];
      }
      loading := false;
    }

    /** The three rails below the hero, in page order. */
    function Rails(): (rails: seq<Rail>)
      reads this
      ensures |rails| == 3
      ensures rails[0] == Rail("Techno & House", technoEvents)
      ensures rails[1] == Rail("Live Concerts", liveEvents)
      ensures rails[2] == Rail("Trending Now", TrendingNow(technoEvents, liveEvents))
      ensures rails[2].events <= technoEvents + liveEvents && |rails[2].events| <= TrendingLimit
    {
      [Rail("Techno & House", technoEvents), Rail("Live Concerts", liveEvents),
       Rail("Trending Now", TrendingNow(technoEvents, liveEvents))]
    }
  }

  /** A first load with a non-empty trending list picks its head as the hero, and every
      rail shows only fetched events. */
  method FirstLoad(data: HomeFetch) returns (page: HomePage)
    requires data.trend.Some? && |data.trend.value| > 0
    ensures page.trending == Some(data.trend.value[0]) && !page.loading
    ensures forall e | e in page.Rails()[2].events :: e in page.technoEvents || e in page.liveEvents
  {
    page := new HomePage();
    page.FetchData(Some(data));
    var rails := page.Rails();
    forall e | e in rails[2].events ensures e in page.technoEvents || e in page.liveEvents {
      var i :| 0 <= i < |rails[2].events| && rails[2].events[i] == e;
      assert e == (page.technoEvents + page.liveEvents)[i];
    }
  }
}
