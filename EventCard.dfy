/** The event card: a heart whose flag starts as the `isBookmarked` prop or the event's
    stored membership, and a click handler that toggles the watchlist, mirrors the answer
    and then runs the optional callback. */
module EventCard {
  import opened Types
  import opened BookmarkService

  /** `event.price_start || 0`: a missing price shows as 0. */
  function DisplayPrice(e: Event): (p: int)
    ensures e.priceStart.Some? ==> p == e.priceStart.value
    ensures e.priceStart.None? ==> p == 0
  {
    if e.priceStart.Some? && e.priceStart.value != 0 then e.priceStart.value else 0
  }

  class Card {
    const event: Event
    const store: BookmarkStore
    /** An `onBookmarkToggle` callback was passed. */
    const hasCallback: bool
    var isBookmarked: bool

    /** First render: the prop (default false) or the stored membership of the id. */
    constructor (event: Event, initialBookmarked: bool, hasCallback: bool, store: BookmarkStore)
      ensures this.event == event && this.store == store && this.hasCallback == hasCallback
      ensures isBookmarked <==> initialBookmarked || HasId(store.Bookmarks(), event.id)
    {
      this.event := event;
      this.store := store;
      this.hasCallback := hasCallback;
      var stored := store.IsBookmarked(event.id);
      isBookmarked := initialBookmarked || stored;
    }

    /** `handleBookmarkClick`: toggles the event, takes the toggle's answer as the flag
        and reports whether the callback runs next (exactly when one was passed). */
    method HandleBookmarkClick() returns (runCallback: bool)
      modifies this, store
      ensures runCallback == hasCallback
      ensures isBookmarked == !old(HasId(store.Bookmarks(), event.id))
      ensures store.writable ==> (isBookmarked <==> HasId(store.Bookmarks(), event.id))
      ensures store.writable ==>
        store.Bookmarks() == if isBookmarked then old(store.Bookmarks()) + [event] else WithoutId(old(store.Bookmarks()), event.id)
      ensures !store.writable ==> store.readable == old(store.readable) && store.entries == old(store.entries)
    {
      isBookmarked := store.ToggleBookmark(event);
      runCallback := hasCallback;
    }
  }

  /** A card told it is bookmarked for an event the store lacks: the click adds the
      event, and the heart stays filled. */
  method ClickWithStaleProp(card: Card)
    requires card.isBookmarked && card.store.writable && !HasId(card.store.Bookmarks(), card.event.id)
    modifies card, card.store
    ensures card.isBookmarked && HasId(card.store.Bookmarks(), card.event.id)
  {
    var _ := card.HandleBookmarkClick();
  }
}
