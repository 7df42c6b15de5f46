/** The checkout page: ticket type and quantity read from the query string with defaults,
    a redirect to the login page without a user, and `handleConfirmBooking`, which builds
    a booking draft at a flat price per ticket and only navigates to the confirmation
    page with it. */
module Checkout {
  import opened Types
  import opened JsText
  import opened AuthContext
  import opened EventDetail
  import opened Url

  /** Every ticket costs this much at checkout, whatever the event's offerings say. */
  const FlatTicketPrice := 500

  /** `searchParams.get('ticketType') || 'GA'`: an absent or empty parameter gives the
      default type. */
  function TicketTypeOf(param: Option<string>): (t: string)
    ensures t != ""
    ensures Truthy(param) ==> t == param.value
    ensures !Truthy(param) ==> t == DefaultTicketType
  {
    if Truthy(param) then param.value else DefaultTicketType
  }

  /** `parseInt(searchParams.get('quantity') || '1')`, not clamped; NaN is `None`. */
  function QuantityOf(param: Option<string>): (q: Option<int>)
    ensures !Truthy(param) ==> q == Some(1)
    ensures Truthy(param) && AllDecimalDigits(param.value) ==> q.Some? && q.value >= 0
    ensures q.Some? && q.value < 0 ==>
      Truthy(param) && |TrimStart(param.value)| > 0 && TrimStart(param.value)[0] == '-'
  {
    assert DecimalString(1) == "1";
    ParseIntOfDecimalString(1);
    ParseInt(if Truthy(param) then param.value else "1")
  }

  /** Without a quantity parameter the page counts one ticket. */
  lemma QuantityDefault()
    ensures QuantityOf(None) == Some(1)
    ensures QuantityOf(Some("")) == Some(1)
  {
    assert DecimalString(1) == "1";
    ParseIntOfDecimalString(1);
  }

  /** The quantity "Book Now" prints is read back unchanged. */
  lemma QuantityRoundTrip(q: nat)
    ensures QuantityOf(Some(DecimalString(q))) == Some(q)
  {
    ParseIntOfDecimalString(q);
  }

  /** The query "Book Now" writes after the `?` of its target. */
  function BookNowQuery(ticketType: string, quantity: nat): string {
    "ticketType=" + ticketType + "&" + ("quantity=" + DecimalString(quantity))
  }

  /** The target "Book Now" navigates to is the checkout path with the id, `?` and that
      query. */
  lemma BookNowTargetShape(id: Option<string>, ticketType: string, quantity: nat)
    ensures CheckoutPath(id, ticketType, quantity) ==
              ("/checkout/" + TemplateText(id)) + ("?" + BookNowQuery(ticketType, quantity))
  {
  }

  /** The path of the target "Book Now" navigates to ends right before its `?`, when the
      id needs no escaping. */
  lemma BookNowPathEnd(id: Option<string>, ticketType: string, quantity: nat)
    requires PlainSegment(TemplateText(id))
    ensures Find(CheckoutPath(id, ticketType, quantity), PathEnd) == 10 + |TemplateText(id)|
  {
    var head := "/checkout/" + TemplateText(id);
    forall j | 0 <= j < |head| ensures head[j] !in PathEnd {
      if j >= 10 {
        assert head[j] == TemplateText(id)[j - 10];
      }
    }
    BookNowTargetShape(id, ticketType, quantity);
    FindAfterPlainPrefix(head, "?" + BookNowQuery(ticketType, quantity), PathEnd);
  }

  /** The checkout route matches the target "Book Now" navigates to and hands over the id,
      when the id needs no escaping. */
  lemma BookNowRouteParam(id: Option<string>, ticketType: string, quantity: nat)
    requires PlainSegment(TemplateText(id))
    ensures CheckoutRouteParam(CheckoutPath(id, ticketType, quantity)) == Some(TemplateText(id))
  {
    BookNowTargetShape(id, ticketType, quantity);
    RouteMatchesLowerCase(TemplateText(id), "?" + BookNowQuery(ticketType, quantity));
  }

  /** The query read from the target "Book Now" navigates to is the one it wrote, when the
      id and the type need no escaping. */
  lemma BookNowQueryOf(id: Option<string>, ticketType: string, quantity: nat)
    requires PlainSegment(TemplateText(id)) && PlainQueryText(ticketType)
    ensures QueryOf(CheckoutPath(id, ticketType, quantity)) == BookNowQuery(ticketType, quantity)
  {
    var head := "/checkout/" + TemplateText(id);
    var query := BookNowQuery(ticketType, quantity);
    var target := CheckoutPath(id, ticketType, quantity);
    BookNowPathEnd(id, ticketType, quantity);
    BookNowTargetShape(id, ticketType, quantity);
    assert target[|head|] == '?' && target[|head| + 1..] == query;
    NoFragmentInQuery(ticketType, quantity);
  }

  /** The checkout route matches the target and hands over the id, and its query is the
      one "Book Now" wrote, when the id and the type need no escaping. */
  lemma BookNowTargetSplits(id: Option<string>, ticketType: string, quantity: nat)
    requires PlainSegment(TemplateText(id)) && PlainQueryText(ticketType)
    ensures CheckoutRouteParam(CheckoutPath(id, ticketType, quantity)) == Some(TemplateText(id))
    ensures QueryOf(CheckoutPath(id, ticketType, quantity)) == BookNowQuery(ticketType, quantity)
  {
    BookNowRouteParam(id, ticketType, quantity);
    BookNowQueryOf(id, ticketType, quantity);
  }

  /** The query "Book Now" writes holds no `#`, so none of it is cut off as a fragment. */
  lemma NoFragmentInQuery(ticketType: string, quantity: nat)
    requires PlainQueryText(ticketType)
    ensures Find(BookNowQuery(ticketType, quantity), {'#'}) == |BookNowQuery(ticketType, quantity)|
  {
    var digits := DecimalString(quantity);
    var query := BookNowQuery(ticketType, quantity);
    forall j | 0 <= j < |query| ensures query[j] != '#' {
      if 11 <= j < 11 + |ticketType| {
        assert query[j] == ticketType[j - 11];
      } else if 21 + |ticketType| <= j {
        assert query[j] == digits[j - 21 - |ticketType|];
      }
    }
  }

  /** The type's pair of the query holds no `&`. */
  lemma TypePairIsOnePair(ticketType: string)
    requires PlainQueryText(ticketType)
    ensures '&' !in "ticketType=" + ticketType
  {
    var first := "ticketType=" + ticketType;
    forall j | 0 <= j < |first| ensures first[j] != '&' {
      if j >= 11 {
        assert first[j] == ticketType[j - 11];
      }
    }
  }

  /** The quantity's pair of the query holds no `&`. */
  lemma QuantityPairIsOnePair(quantity: nat)
    ensures '&' !in "quantity=" + DecimalString(quantity)
  {
    var digits := DecimalString(quantity);
    var second := "quantity=" + digits;
    forall j | 0 <= j < |second| ensures second[j] != '&' {
      if j >= 9 {
        assert second[j] == digits[j - 9];
      }
    }
  }

  /** Reading `ticketType` from the query "Book Now" wrote gives back the type. */
  lemma BookNowTypeReadBack(ticketType: string, quantity: nat)
    requires PlainQueryText(ticketType)
    ensures SearchParam(BookNowQuery(ticketType, quantity), "ticketType") == Some(ticketType)
  {
    var first := "ticketType=" + ticketType;
    assert first == "ticketType" + "=" + ticketType;
    assert BookNowQuery(ticketType, quantity) == first + "&" + ("quantity=" + DecimalString(quantity));
    TypePairIsOnePair(ticketType);
    PairSplits("ticketType", ticketType);
    SearchStep(first, "quantity=" + DecimalString(quantity), "ticketType");
  }

  /** Reading `quantity` from the query "Book Now" wrote gives back the printed quantity. */
  lemma BookNowQuantityReadBack(ticketType: string, quantity: nat)
    requires PlainQueryText(ticketType)
    ensures SearchParam(BookNowQuery(ticketType, quantity), "quantity") == Some(DecimalString(quantity))
  {
    var first := "ticketType=" + ticketType;
    var second := "quantity=" + DecimalString(quantity);
    assert first == "ticketType" + "=" + ticketType;
    assert second == "quantity" + "=" + DecimalString(quantity);
    assert BookNowQuery(ticketType, quantity) == first + "&" + second;
    TypePairIsOnePair(ticketType);
    QuantityPairIsOnePair(quantity);
    PairSplits("ticketType", ticketType);
    PairSplits("quantity", DecimalString(quantity));
    SearchStep(first, second, "quantity");
    SearchLastPair(second, "quantity");
  }

  /** The ticket type "Book Now" puts in its target is what the checkout page reads, and an
      empty one reads as the default, when the id and the type need no escaping. */
  lemma TicketTypeRoundTrip(id: Option<string>, ticketType: string, quantity: nat)
    requires PlainSegment(TemplateText(id)) && PlainQueryText(ticketType)
    ensures TicketTypeOf(SearchParam(QueryOf(CheckoutPath(id, ticketType, quantity)), "ticketType"))
            == if ticketType == "" then DefaultTicketType else ticketType
  {
    BookNowTargetSplits(id, ticketType, quantity);
    BookNowTypeReadBack(ticketType, quantity);
  }

  /** The quantity "Book Now" puts in its target is the number the checkout page counts. */
  lemma TargetQuantityRoundTrip(id: Option<string>, ticketType: string, quantity: nat)
    requires PlainSegment(TemplateText(id)) && PlainQueryText(ticketType)
    ensures QuantityOf(SearchParam(QueryOf(CheckoutPath(id, ticketType, quantity)), "quantity")) == Some(quantity)
  {
    BookNowTargetSplits(id, ticketType, quantity);
    BookNowQuantityReadBack(ticketType, quantity);
    QuantityRoundTrip(quantity);
  }

  /** Nothing bounds the quantity: zero and negative counts pass through, and text that
      does not start with a digit is NaN. */
  lemma QuantityNotClamped()
    ensures QuantityOf(Some("0")) == Some(0)
    ensures QuantityOf(Some("-3")) == Some(-3)
    ensures QuantityOf(Some("abc")) == None
  {
    QuantityRoundTrip(0);
    assert DecimalString(0) == "0";
    NegativeQuantity();
    NonNumericQuantity();
  }

  /** `parseInt('-3')` is -3. */
  lemma NegativeQuantity()
    ensures ParseInt("-3") == Some(-3)
  {
    assert LeadingSpaceCount("-3") == 0;
    assert TrimStart("-3")[1..] == "3";
    assert ParseUnsigned("3") == Some(3) by {
      assert DecimalString(3) == "3";
      ParseIntOfDecimalString(3);
      assert LeadingSpaceCount("3") == 0;
    }
  }

  /** `parseInt('abc')` is NaN. */
  lemma NonNumericQuantity()
    ensures ParseInt("abc") == None
  {
    assert LeadingSpaceCount("abc") == 0;
    assert ParseDigits("abc", 10) == None;
  }

  /** The record handed to the confirmation page. A NaN quantity makes the total NaN,
      both `None` here. */
  datatype BookingDraft = BookingDraft(
    userId: string, eventId: string, ticketId: string,
    quantity: Option<int>, totalPrice: Option<int>)

  /** `quantity * 500`, NaN-propagating. */
  function FlatTotal(quantity: Option<int>): (total: Option<int>)
    ensures total.Some? <==> quantity.Some?
    ensures quantity.Some? ==> total.value == quantity.value * FlatTicketPrice
  {
    match quantity
    case None => None
    case Some(q) => Some(q * FlatTicketPrice)
  }

  /** The draft `handleConfirmBooking` builds. */
  function Draft(user: AuthUser, eventId: string, ticketType: string, quantity: Option<int>): (d: BookingDraft)
    ensures d.userId == user.id && d.eventId == eventId && d.quantity == quantity
    ensures d.ticketId == "ticket_" + ticketType
    ensures d.totalPrice == FlatTotal(d.quantity)
  {
    BookingDraft(user.id, eventId, "ticket_" + ticketType, quantity, FlatTotal(quantity))
  }

  /** The checkout total agrees with the one the event page showed exactly when the
      selected offering costs the flat price. */
  lemma CheckoutTotalMatchesEventTotal(tickets: seq<Ticket>, ticketType: string, quantity: int)
    requires quantity >= 1
    ensures FlatTotal(Some(quantity)) == Some(TotalPrice(tickets, ticketType, quantity))
            <==> SelectedTicket(tickets, ticketType).Some? && SelectedTicket(tickets, ticketType).value.price == FlatTicketPrice
  {
    var t := SelectedTicket(tickets, ticketType);
    if t.Some? {
      var p := t.value.price;
      if p * quantity == FlatTicketPrice * quantity {
        assert (p - FlatTicketPrice) * quantity == 0;
      }
    } else {
      assert FlatTicketPrice * quantity > 0;
    }
  }

  /** What the page renders. */
  datatype CheckoutView =
    | RedirectToLogin
    | OrderSummary(ticketType: string, quantity: Option<int>, total: Option<int>, error: string, processing: bool)

  /** A navigation to the confirmation page with the draft as its state. */
  datatype Navigation = Navigation(path: string, state: BookingDraft)

  class CheckoutPage {
    const eventId: Option<string>
    const ticketTypeParam: Option<string>
    const quantityParam: Option<string>
    const auth: AuthProvider
    var loading: bool
    var error: string

    constructor (eventId: Option<string>, ticketTypeParam: Option<string>, quantityParam: Option<string>, auth: AuthProvider)
      ensures this.eventId == eventId && this.ticketTypeParam == ticketTypeParam
      ensures this.quantityParam == quantityParam && this.auth == auth
      ensures !loading && error == ""
    {
      this.eventId := eventId;
      this.ticketTypeParam := ticketTypeParam;
      this.quantityParam := quantityParam;
      this.auth := auth;
      loading := false;
      error := "";
    }

    /** The render: no user sends the visitor to the login page and shows nothing;
        otherwise the summary, whose total is the total the draft would carry. */
    function View(): (v: CheckoutView)
      reads this, auth
      ensures auth.user.None? <==> v == RedirectToLogin
      ensures auth.user.Some? ==>
        && v.ticketType == TicketTypeOf(ticketTypeParam) && v.quantity == QuantityOf(quantityParam)
        && (eventId.Some? ==> v.total == Draft(auth.user.value, eventId.value, v.ticketType, v.quantity).totalPrice)
    {
      if auth.user.None? then RedirectToLogin
      else
        var q := QuantityOf(quantityParam);
        OrderSummary(TicketTypeOf(ticketTypeParam), q, FlatTotal(q), error, loading)
    }

    /** `handleConfirmBooking` (reachable only once a user is signed in, since the page
        renders nothing before). A falsy event id does nothing. Otherwise it navigates to
        the confirmation page with the draft; no booking is created, nothing in the `try`
        throws, so `error` is untouched and `loading` ends false. */
    method HandleConfirmBooking() returns (nav: Option<Navigation>)
      modifies this
      requires auth.user.Some?
      ensures !Truthy(eventId) ==> nav == None && loading == old(loading)
      ensures Truthy(eventId) ==>
        && nav == Some(Navigation("/booking-confirmation/" + eventId.value,
                                  Draft(auth.user.value, eventId.value, TicketTypeOf(ticketTypeParam), QuantityOf(quantityParam))))
        && !loading
      ensures error == old(error)
    {
      if !Truthy(eventId) {
        return None;
      }
      loading := true;
      var draft := Draft(auth.user.value, eventId.value, TicketTypeOf(ticketTypeParam), QuantityOf(quantityParam));
      nav := Some(Navigation("/booking-confirmation/" + eventId.value, draft));
      loading := false;
    }
  }

  /** "Book Now" on the event page followed by confirming at checkout, the checkout page
      reading its parameters from the target "Book Now" navigated to: the draft carries the
      id, the type and the quantity the visitor picked, priced at the flat rate. */
  method BookFromEventPage(detail: EventDetailPage) returns (target: string, nav: Option<Navigation>)
    requires detail.Valid() && detail.auth.user.Some?
    requires PlainSegment(TemplateText(detail.id)) && PlainQueryText(detail.ticketType)
    ensures target == CheckoutPath(detail.id, detail.ticketType, detail.quantity)
    ensures nav.Some? && nav.value.path == "/booking-confirmation/" + TemplateText(detail.id)
    ensures nav.value.state.userId == detail.auth.user.value.id
    ensures nav.value.state.eventId == TemplateText(detail.id)
    ensures nav.value.state.ticketId == "ticket_" + (if detail.ticketType == "" then DefaultTicketType else detail.ticketType)
    ensures nav.value.state.quantity == Some(detail.quantity)
    ensures nav.value.state.totalPrice == Some(detail.quantity * FlatTicketPrice)
  {
    target := detail.HandleBookNow();
    BookNowTargetSplits(detail.id, detail.ticketType, detail.quantity);
    TicketTypeRoundTrip(detail.id, detail.ticketType, detail.quantity);
    TargetQuantityRoundTrip(detail.id, detail.ticketType, detail.quantity);
    var query := QueryOf(target);
    var checkout := new CheckoutPage(CheckoutRouteParam(target), SearchParam(query, "ticketType"),
                                     SearchParam(query, "quantity"), detail.auth);
    nav := checkout.HandleConfirmBooking();
  }
}
