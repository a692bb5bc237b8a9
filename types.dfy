/** Values shared by the listing store, the token ledger and the exchange engine. */
module Types {

  /** A principal on the chain: an externally owned account or a contract. */
  type Address = nat

  /** Listing types are the integers 0, 1 and 2; anything else is refused by `List`. */
  const LISTING_TYPES: nat := 3

  /** The revert reasons of the marketplace. `Reverted` stands for every failure
      that reverts without a reason string (the repeat or oversize purchase of a
      type-0 listing, a purchase beyond the remaining capacity). */
  datatype Error =
    | InvalidPermissions
    | InvalidType
    | InvalidListing
    | InvalidAmount
    | ApproveFailed
    | InvalidTotalEntrants
    | Reverted

  /** The reason string a caller observes for each error. */
  function Reason(e: Error): string
  {
    match e
    case InvalidPermissions => "Invalid Permissions"
    case InvalidType => "Invalid Type"
    case InvalidListing => "Invalid Listing"
    case InvalidAmount => "Invalid Amount"
    case ApproveFailed => "Approve Failed"
    case InvalidTotalEntrants => "Invalid Total Entrants"
    case Reverted => ""
  }

  /** The outcome of one call: its return value (what the call emits), or the reason it reverted. */
  datatype Result<T> = Ok(value: T) | Fail(error: Error)

  /** The numeric triple `ints` passed to `List` and `Edit`: the unit price, a
      second number with no observable effect, and the capacity. */
  datatype Terms = Terms(unitPrice: nat, extra: nat, totalEntrants: nat)

  /** One listing record. `payload` is the opaque string metadata. */
  datatype Listing = Listing(
    listingID: nat,
    listingType: nat,
    payload: seq<string>,
    unitPrice: nat,
    extra: nat,
    totalEntrants: nat,
    currentEntrants: nat)

  /** What a lookup reports for an ID with no live record: every field zero. */
  const ZEROED: Listing := Listing(0, 0, [], 0, 0, 0, 0)

  /** The listing stored under `id` is consistent: it carries its own ID, which
      is never 0, its type is one `List` accepts, and it is not oversold. */
  predicate WellFormed(id: nat, l: Listing)
  {
    && l.listingID == id
    && 1 <= id
    && l.listingType < LISTING_TYPES
    && l.currentEntrants <= l.totalEntrants
  }

  /** What `amount` units of listing `l` cost. */
  function Cost(l: Listing, amount: nat): nat
  {
    l.unitPrice * amount
  }

  /** What a successful `Buy` emits: the buyer and the number of units. */
  datatype Purchase = Purchase(buyer: Address, amount: nat)
}
