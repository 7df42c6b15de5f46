/** The watchlist page: the stored bookmarks loaded on mount, and `handleRemoveBookmark`,
    which removes an id and reloads the list from storage. Every card on it is told it is
    bookmarked and calls back into the page after its own toggle. */
module MyList {
  import opened Types
  import opened BookmarkService
  import opened EventCard

  /** What the page renders. */
  datatype MyListView = EmptyState | Grid(cards: seq<Event>)

  class MyListPage {
    const store: BookmarkStore
    var displayed: seq<Event>

    constructor (store: BookmarkStore)
      ensures this.store == store && displayed == []
    {
      this.store := store;
      displayed := [];
    }

    /** The mount effect: the displayed list becomes the stored bookmarks. */
    method Mount()
      modifies this
      ensures displayed == store.Bookmarks()
    {
      displayed := store.GetBookmarks();
    }

    /** `handleRemoveBookmark(id)`: removes `id` from storage, then shows what storage
        holds, so the page always matches the store afterwards. */
    method HandleRemoveBookmark(id: string)
      modifies this, store
      ensures displayed == store.Bookmarks()
      ensures store.writable ==> displayed == WithoutId(old(store.Bookmarks()), id)
      ensures store.writable ==> !HasId(displayed, id)
      ensures !store.writable ==> store.readable == old(store.readable) && store.entries == old(store.entries)
    {
      store.RemoveBookmark(id);
      displayed := store.GetBookmarks();
    }

    /** The render: the empty-state note for an empty list, else one card per entry. */
    function View(): (v: MyListView)
      reads this
      ensures v == EmptyState <==> displayed == []
      ensures v.Grid? ==> v.cards == displayed
    {
      if |displayed| == 0 then EmptyState else Grid(displayed)
    }
  }

  /** A heart click on a card of this page: the card toggles the event, then its callback
      removes the id. Whether the toggle added or removed it, the event ends up out of
      storage and off the page, and every other entry stays in place. */
  method ClickHeart(page: MyListPage, card: Card)
    requires card.store == page.store && card.hasCallback
    modifies page, card, page.store
    ensures page.displayed == page.store.Bookmarks()
    ensures page.store.writable ==>
      && page.store.Bookmarks() == WithoutId(old(page.store.Bookmarks()), card.event.id)
      && !HasId(page.displayed, card.event.id)
  {
    ghost var before := page.store.Bookmarks();
    var runCallback := card.HandleBookmarkClick();
    if runCallback {
      page.HandleRemoveBookmark(card.event.id);
    }
    if page.store.writable {
      if card.isBookmarked {
        // The toggle appended the event, which was absent: removing it restores the list.
        RemoveUndoesAdd(before, card.event);
        WithoutAbsentId(before, card.event.id);
      } else {
        WithoutIdIdempotent(before, card.event.id);
      }
    }
  }
}
