/** Shared value types of the events client: the records the pages pass around
    (events, ticket offerings, signed-in users) and the shapes of JavaScript's
    absent values and thrown exceptions. */
module Types {

  /** A value that may be absent (`null` or `undefined` in the source). */
  datatype Option<+T> = None | Some(value: T)

  /** An event row as the catalog returns it. Only the fields the core reads are
      kept apart: the stable `id`, and `price_start`, which may be missing;
      everything that is only displayed is folded into `details`. */
  datatype Event = Event(id: string, priceStart: Option<int>, details: string)

  /** One purchasable tier of an event: its id, its free-form `type` label and its price. */
  datatype Ticket = Ticket(id: string, ticketType: string, price: int)

  datatype Role = User | Organizer

  /** The signed-in identity's profile row. */
  datatype AuthUser = AuthUser(
    id: string,
    email: string,
    fullName: Option<string>,
    phone: Option<string>,
    avatarUrl: Option<string>,
    role: Option<Role>)

  /** A value thrown by JavaScript code: an `Error` instance carries a message;
      anything else (a plain object, a string) does not count as an `Error`. */
  datatype Thrown = ErrorObject(message: string) | OtherValue

  /** `err instanceof Error ? err.message : fallback` */
  function MessageOf(err: Thrown, fallback: string): (m: string)
    ensures err.ErrorObject? ==> m == err.message
    ensures err.OtherValue? ==> m == fallback
  {
    match err
    case ErrorObject(message) => message
    case OtherValue => fallback
  }

  /** How an awaited promise settles when its value is not used. */
  datatype Outcome = Resolved | Rejected(reason: Thrown)
}
