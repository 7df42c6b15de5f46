/** The event page: the ticket offering picked by type, the running total, the quantity
    stepper, the heart button, the authentication gate of "Book Now" and the fetch that
    fills the page from the route's event id. */
module EventDetail {
  import opened Types
  import opened JsText
  import opened BookmarkService
  import opened AuthContext

  const DefaultTicketType := "GA"

  /** Index of the first offering of type `ticketType`, or `|tickets|` when none has it. */
  function FirstOfType(tickets: seq<Ticket>, ticketType: string): (k: nat)
    ensures k <= |tickets|
    ensures forall j | 0 <= j < k :: tickets[j].ticketType != ticketType
    ensures k < |tickets| ==> tickets[k].ticketType == ticketType
  {
    if tickets == [] then 0
    else if tickets[0].ticketType == ticketType then 0
    else 1 + FirstOfType(tickets[1..], ticketType)
  }

  /** `tickets.find(t => t.type === ticketType)`. */
  function SelectedTicket(tickets: seq<Ticket>, ticketType: string): (r: Option<Ticket>)
    ensures r.None? <==> forall j | 0 <= j < |tickets| :: tickets[j].ticketType != ticketType
    ensures r.Some? ==> r.value.ticketType == ticketType && r.value in tickets
  {
    var k := FirstOfType(tickets, ticketType);
    if k < |tickets| then Some(tickets[k]) else None
  }

  /** The selected offering is the first of its type: it occurs no later than any
      offering of that type. */
  lemma SelectedIsFirst(tickets: seq<Ticket>, ticketType: string, j: int)
    requires 0 <= j < |tickets| && tickets[j].ticketType == ticketType
    ensures SelectedTicket(tickets, ticketType).Some?
    ensures SelectedTicket(tickets, ticketType).value in tickets[..j + 1]
  {
    var k := FirstOfType(tickets, ticketType);
    assert k <= j;
    assert tickets[..j + 1][k] == tickets[k];
  }

  /** Price of one ticket of the selected offering; 0 when no offering has the type. */
  function UnitPrice(tickets: seq<Ticket>, ticketType: string): (p: int)
    ensures FirstOfType(tickets, ticketType) < |tickets| ==> p == tickets[FirstOfType(tickets, ticketType)].price
    ensures FirstOfType(tickets, ticketType) == |tickets| ==> p == 0
  {
    var t := SelectedTicket(tickets, ticketType);
    if t.Some? then t.value.price else 0
  }

  /** The sidebar total: the selected offering's price times the quantity, or 0. */
  function TotalPrice(tickets: seq<Ticket>, ticketType: string, quantity: int): (total: int)
    ensures SelectedTicket(tickets, ticketType).None? ==> total == 0
    ensures FirstOfType(tickets, ticketType) < |tickets| ==>
      total == tickets[FirstOfType(tickets, ticketType)].price * quantity
    ensures total == UnitPrice(tickets, ticketType) * quantity
  {
    var t := SelectedTicket(tickets, ticketType);
    if t.Some? then t.value.price * quantity else 0
  }

  /** One more ticket adds one unit price to the total; one fewer takes it away. */
  lemma TotalStep(tickets: seq<Ticket>, ticketType: string, quantity: int)
    ensures TotalPrice(tickets, ticketType, quantity + 1) == TotalPrice(tickets, ticketType, quantity) + UnitPrice(tickets, ticketType)
    ensures TotalPrice(tickets, ticketType, quantity - 1) == TotalPrice(tickets, ticketType, quantity) - UnitPrice(tickets, ticketType)
  {
    var t := SelectedTicket(tickets, ticketType);
    if t.Some? {
      var p := t.value.price;
      assert p * (quantity + 1) == p * quantity + p;
      assert p * (quantity - 1) == p * quantity - p;
    }
  }

  /** With non-negative prices and a quantity of at least one, the total is at least the
      unit price and never negative. */
  lemma TotalAtLeastUnitPrice(tickets: seq<Ticket>, ticketType: string, quantity: int)
    requires forall j | 0 <= j < |tickets| :: tickets[j].price >= 0
    requires quantity >= 1
    ensures TotalPrice(tickets, ticketType, quantity) >= UnitPrice(tickets, ticketType) >= 0
  {
    var t := SelectedTicket(tickets, ticketType);
    if t.Some? {
      var k := FirstOfType(tickets, ticketType);
      assert t.value == tickets[k];
      var p := t.value.price;
      assert p * quantity == p + p * (quantity - 1);
      assert p * (quantity - 1) >= 0;
    }
  }

  /** `navigate` target of "Book Now" for a signed-in user. */
  function CheckoutPath(id: Option<string>, ticketType: string, quantity: nat): (path: string)
    ensures "/checkout/" + TemplateText(id) + "?ticketType=" + ticketType <= path
    ensures var tail := "&quantity=" + DecimalString(quantity);
            |tail| <= |path| && path[|path| - |tail|..] == tail
  {
    "/checkout/" + TemplateText(id) + "?ticketType=" + ticketType + "&quantity=" + DecimalString(quantity)
  }

  /** The parameters the router yields for the event route, declared as `:eventId`. */
  function EventRouteParams(eventId: string): map<string, string> {
    map["eventId" := eventId]
  }

  /** `useParams()[name]`: `None` when the matched route declares no such parameter. */
  function RouteParam(params: map<string, string>, name: string): (v: Option<string>)
    ensures v.Some? <==> name in params
    ensures v.Some? ==> v.value == params[name]
  {
    if name in params then Some(params[name]) else None
  }

  class EventDetailPage {
    /** The route parameter the page reads. */
    const id: Option<string>
    const auth: AuthProvider
    const store: BookmarkStore
    var event: Option<Event>
    var loading: bool
    var isBookmarked: bool
    var ticketType: string
    var quantity: int
    var tickets: seq<Ticket>

    /** The quantity stepper never goes below one. */
    predicate Valid()
      reads this
    {
      quantity >= 1
    }

    /** First render: spinner on, no event, "GA" and one ticket selected. */
    constructor (id: Option<string>, auth: AuthProvider, store: BookmarkStore)
      ensures this.id == id && this.auth == auth && this.store == store
      ensures event == None && loading && !isBookmarked
      ensures ticketType == DefaultTicketType && quantity == 1 && tickets == []
      ensures Valid()
    {
      this.id := id;
      this.auth := auth;
      this.store := store;
      event := None;
      loading := true;
      isBookmarked := false;
      ticketType := DefaultTicketType;
      quantity := 1;
      tickets := [];
    }

    /** `fetchEvent`. A falsy id returns before the `try`, so nothing changes and the
        spinner stays on. Otherwise `fetched` is what `getEventById` resolved to (`None`
        when the lookup failed) and `fetchedTickets` what `getEventTickets` resolved to
        (`[]` on failure); neither service throws. The heart reflects the id's stored
        membership, and `loading` is cleared. */
    method FetchEvent(fetched: Option<Event>, fetchedTickets: seq<Ticket>)
      modifies this
      ensures !Truthy(id) ==>
        event == old(event) && loading == old(loading) && isBookmarked == old(isBookmarked)
        && tickets == old(tickets)
      ensures Truthy(id) ==>
        event == fetched && !loading && tickets == fetchedTickets
        && (isBookmarked <==> HasId(store.Bookmarks(), id.value))
      ensures ticketType == old(ticketType) && quantity == old(quantity)
    {
      if !Truthy(id) {
        return;
      }
      event := fetched;
      isBookmarked := store.IsBookmarked(id.value);
      tickets := fetchedTickets;
      loading := false;
    }

    /** `handleBookmarkClick`: nothing without an event; otherwise the flag becomes the
        toggle's answer, which is the event's stored membership afterwards whenever the
        write succeeds, and storage holds the old list plus the event or minus its id. A
        failed write leaves storage as it was. */
    method HandleBookmarkClick()
      modifies this, store
      ensures event == old(event) && loading == old(loading) && quantity == old(quantity)
      ensures ticketType == old(ticketType) && tickets == old(tickets)
      ensures old(event).None? ==> isBookmarked == old(isBookmarked) && unchanged(store)
      ensures old(event).Some? ==> isBookmarked == !old(HasId(store.Bookmarks(), event.value.id))
      ensures old(event).Some? && store.writable ==> (isBookmarked <==> HasId(store.Bookmarks(), event.value.id))
      ensures old(event).Some? && store.writable ==>
        store.Bookmarks() == if isBookmarked then old(store.Bookmarks()) + [old(event).value]
                             else WithoutId(old(store.Bookmarks()), old(event).value.id)
      ensures !store.writable ==> store.readable == old(store.readable) && store.entries == old(store.entries)
      ensures old(NoDuplicateIds(store.Bookmarks())) ==> NoDuplicateIds(store.Bookmarks())
    {
      if event.None? {
        return;
      }
      isBookmarked := store.ToggleBookmark(event.value);
    }

    /** `handleBookNow`: the login page without a user, else the checkout URL carrying
        the current selection (the id prints as `undefined` when the page has none). */
    method HandleBookNow() returns (target: string)
      requires Valid()
      ensures auth.user.None? ==> target == "/login"
      ensures auth.user.Some? ==> target == CheckoutPath(id, ticketType, quantity)
    {
      if auth.user.None? {
        return "/login";
      }
      target := CheckoutPath(id, ticketType, quantity);
    }

    /** The "-" button: `Math.max(1, quantity - 1)`. */
    method Decrement()
      modifies this
      requires Valid()
      ensures Valid()
      ensures quantity == if old(quantity) > 1 then old(quantity) - 1 else 1
      ensures old(quantity) > 1 ==>
        TotalPrice(tickets, ticketType, quantity) == TotalPrice(tickets, ticketType, old(quantity)) - UnitPrice(tickets, ticketType)
      ensures event == old(event) && loading == old(loading) && isBookmarked == old(isBookmarked)
      ensures ticketType == old(ticketType) && tickets == old(tickets)
    {
      TotalStep(tickets, ticketType, quantity);
      quantity := if quantity - 1 > 1 then quantity - 1 else 1;
    }

    /** The "+" button: `quantity + 1`, adding one unit price to the total. */
    method Increment()
      modifies this
      requires Valid()
      ensures Valid()
      ensures quantity == old(quantity) + 1
      ensures TotalPrice(tickets, ticketType, quantity) == TotalPrice(tickets, ticketType, old(quantity)) + UnitPrice(tickets, ticketType)
      ensures event == old(event) && loading == old(loading) && isBookmarked == old(isBookmarked)
      ensures ticketType == old(ticketType) && tickets == old(tickets)
    {
      TotalStep(tickets, ticketType, quantity);
      quantity := quantity + 1;
    }

    /** The ticket-type `<select>`: its options are the offerings' types. */
    method SelectTicketType(t: string)
      modifies this
      requires exists j | 0 <= j < |tickets| :: tickets[j].ticketType == t
      ensures ticketType == t && SelectedTicket(tickets, ticketType).Some?
      ensures quantity == old(quantity) && event == old(event) && loading == old(loading)
      ensures isBookmarked == old(isBookmarked) && tickets == old(tickets)
    {
      ticketType := t;
    }
  }

  /** The route declares `:eventId` but the page reads `id`, which the route never
      provides: the page's id is always missing. */
  lemma ReadIdOnEventRoute(eventId: string)
    ensures RouteParam(EventRouteParams(eventId), "id") == None
    ensures RouteParam(EventRouteParams(eventId), "eventId") == Some(eventId)
  {
  }

  /** As written: opened from `/event/:eventId`, the page reads `id`, the fetch returns
      at once and the spinner never goes away, whatever the services would answer. */
  method OpenEventAsWritten(eventId: string, auth: AuthProvider, store: BookmarkStore,
                            fetched: Option<Event>, fetchedTickets: seq<Ticket>)
    returns (page: EventDetailPage)
    ensures page.loading && page.event == None && page.tickets == []
  {
    page := new EventDetailPage(RouteParam(EventRouteParams(eventId), "id"), auth, store);
    page.FetchEvent(fetched, fetchedTickets);
  }

  /** Corrected: reading the parameter the route declares, the page loads the event and
      its offerings for a non-empty id. */
  method OpenEventCorrected(eventId: string, auth: AuthProvider, store: BookmarkStore,
                            fetched: Option<Event>, fetchedTickets: seq<Ticket>)
    returns (page: EventDetailPage)
    requires eventId != ""
    ensures !page.loading && page.event == fetched && page.tickets == fetchedTickets
    ensures page.isBookmarked <==> HasId(store.Bookmarks(), eventId)
  {
    page := new EventDetailPage(RouteParam(EventRouteParams(eventId), "eventId"), auth, store);
    page.FetchEvent(fetched, fetchedTickets);
  }
}
