/** The records shared by the server and the client: auctions, bids, users,
    notifications and the filter record of the auction list.
    Timestamps are integer milliseconds and amounts are integers. */
module Types {

  datatype Option<+T> = None | Some(value: T)

  /** A failure carries the message the source puts in its Error. */
  datatype Result<+T> = Ok(value: T) | Fail(message: string)

  datatype BidStatus = Pending | Accepted | Rejected

  datatype Status = Upcoming | Active | Ended

  datatype Bid = Bid(
    id: string,
    userId: string,
    username: string,
    amount: int,
    timestamp: int,
    status: BidStatus)

  /** The `{ id, username }` pair used for a seller and for the highest bidder. */
  datatype Party = Party(id: string, username: string)

  datatype User = User(id: string, username: string, email: string, avatar: string)

  datatype Auction = Auction(
    id: string,
    title: string,
    description: string,
    imageUrl: string,
    seller: Party,
    startingPrice: int,
    currentPrice: int,
    minBidIncrement: int,
    startTime: int,
    endTime: int,
    status: Status,
    bids: seq<Bid>,
    highestBidder: Option<Party>,
    viewCount: int,
    categoryId: string)

  /** The filter record of the auction list; every field is optional.
      `status` holds the raw text, since a URL may carry any string there. */
  datatype Filters = Filters(
    category: Option<string>,
    status: Option<string>,
    minPrice: Option<int>,
    maxPrice: Option<int>,
    search: Option<string>)

  const NoFilters := Filters(None, None, None, None, None)

  datatype NotificationKind = Outbid | Won | EndingSoon | NewBidNotice | System

  datatype UserNotification = UserNotification(
    id: string,
    userId: string,
    title: string,
    message: string,
    kind: NotificationKind,
    auctionId: Option<string>,
    timestamp: int,
    read: bool)

  /** The payloads of the WebSocket messages the client handles. */
  datatype Payload =
    | BidPayload(auctionId: string, bid: Bid)
    | BidStatusPayload(auctionId: string, bidId: string, status: BidStatus)
    | AuctionPayload(auction: Auction)
    | UpdatePayload(auctionId: string, update: Auction)
    | NotificationPayload(notification: UserNotification)
    | OtherPayload

  /** `WebSocketMessage`: a type tag and a payload. */
  datatype Message = Message(kind: string, payload: Payload)

  /** The text the source uses for a lifecycle state. */
  function StatusName(s: Status): string
  {
    match s
    case Upcoming => "upcoming"
    case Active => "active"
    case Ended => "ended"
  }

  /** JavaScript truthiness of an optional string: undefined and "" are falsy. */
  predicate Truthy(s: Option<string>)
  {
    s.Some? && s.value != ""
  }
}
