/** The category page: `fetchCategory` empties the list, asks for the events of the
    lower-cased route parameter and stores what comes back, and the page shows either an
    empty-list note or one rail titled after the parameter as written. */
module CategoryPage {
  import opened Types
  import opened JsText

  /** How a fetch settled: it returned a possibly-`null` list, or it threw. */
  datatype FetchResult = Returned(data: Option<seq<Event>>) | Threw

  /** What the page renders. */
  datatype CategoryView = Spinner | NoEvents | EventsRail(title: string, events: seq<Event>)

  /** The category slug sent to the service: the parameter in lower case, so that the
      capitalisation of the URL does not matter. */
  function Slug(category: string): (slug: string)
    ensures |slug| == |category|
    ensures forall i | 0 <= i < |slug| :: slug[i] == LowerChar(category[i])
    ensures forall i | 0 <= i < |slug| :: !('A' <= slug[i] <= 'Z')
    ensures ToLower(slug) == slug
  {
    ToLowerIdempotent(category);
    ToLower(category)
  }

  /** Two capitalisations of a category name ask for the same events. */
  lemma SlugIgnoresCase()
    ensures Slug("Techno") == Slug("techno") == "techno"
    ensures Slug("LIVE") == "live"
  {
  }

  class CategoryPageState {
    /** The `:category` route parameter. */
    const category: Option<string>
    var events: seq<Event>
    var loading: bool

    constructor (category: Option<string>)
      ensures this.category == category && events == [] && loading
    {
      this.category := category;
      events := [];
      loading := true;
    }

    /** The first half of `fetchCategory`, up to the service call. A falsy parameter
        returns at once, fetching nothing and leaving the spinner on. Otherwise the
        spinner goes on, the list is emptied and the lower-cased slug is requested. */
    method StartFetch() returns (slug: Option<string>)
      modifies this
      ensures !Truthy(category) ==> slug == None && events == old(events) && loading == old(loading)
      ensures Truthy(category) ==> slug == Some(Slug(category.value)) && events == [] && loading
    {
      if !Truthy(category) {
        return None;
      }
      loading := true;
      events := [];
      slug := Some(Slug(category.value));
    }

    /** The second half: a `null` list or a thrown error leaves the list empty, and the
        spinner goes off in every case. */
    method FinishFetch(result: FetchResult)
      modifies this
      ensures !loading
      ensures events == if result.Returned? && result.data.Some? then result.data.value else []
    {
      match result {
        case Returned(data) =>
          events := if data.Some? then data.value else [];
        case Threw =>
          events := [];
      }
      loading := false;
    }

    /** The render: the spinner while loading, then the empty-list note or one rail whose
        title uses the parameter in its original case. */
    function View(): (v: CategoryView)
      reads this
      ensures loading <==> v == Spinner
      ensures !loading && events == [] <==> v == NoEvents
      ensures v.EventsRail? ==> v.events == events && v.events != []
      ensures v.EventsRail? ==> v.title == "All " + TemplateText(category) + " Events"
    {
      if loading then Spinner
      else if |events| == 0 then NoEvents
      else EventsRail("All " + TemplateText(category) + " Events", events)
    }
  }

  /** A whole visit with a category parameter: one slug requested, the answer shown,
      the spinner off. */
  method Visit(category: string, result: FetchResult) returns (page: CategoryPageState, slug: Option<string>)
    requires category != ""
    ensures slug == Some(ToLower(category)) && !page.loading
    ensures result == Returned(None) || result == Threw ==> page.View() == NoEvents
  {
    page := new CategoryPageState(Some(category));
    slug := page.StartFetch();
    page.FinishFetch(result);
  }
}
