/** The client's auction state: lifecycle status from the clock, the filter
    pipeline behind the list views, the reducers for incoming WebSocket
    messages, lookup by id, and the store object whose `createAuction` and
    `placeBid` replace the auction list. */
module AuctionView {
  import opened Types
  import opened Text
  import opened Seqs
  import MessageQueue
  import Registry

  // ---------------------------------------------------------------------------
  // Status

  /** The status the initial fetch assigns. */
  function DeriveStatus(startTime: int, endTime: int, now: int): Status
  {
    if now < startTime then Upcoming
    else if startTime <= now < endTime then Active
    else Ended
  }

  function Rank(s: Status): nat
  {
    match s
    case Upcoming => 0
    case Active => 1
    case Ended => 2
  }

  /** The three cases of the derived status, each as an if-and-only-if. */
  lemma DeriveStatusCases(startTime: int, endTime: int, now: int)
    ensures DeriveStatus(startTime, endTime, now) == Upcoming <==> now < startTime
    ensures DeriveStatus(startTime, endTime, now) == Active <==> startTime <= now < endTime
    ensures DeriveStatus(startTime, endTime, now) == Ended <==> startTime <= now && endTime <= now
  {
  }

  /** As the clock advances, the status never moves back. */
  lemma StatusNeverGoesBack(startTime: int, endTime: int, t1: int, t2: int)
    requires t1 <= t2
    ensures Rank(DeriveStatus(startTime, endTime, t1)) <= Rank(DeriveStatus(startTime, endTime, t2))
  {
  }

  /** `fetchAuctions`: every auction with its derived status. */
  function Fetched(mock: seq<Auction>, now: int): (r: seq<Auction>)
    ensures |r| == |mock|
  {
    seq(|mock|, i requires 0 <= i < |mock| => mock[i].(status := DeriveStatus(mock[i].startTime, mock[i].endTime, now)))
  }

  /** The status the periodic refresh computes. */
  function RefreshStatus(a: Auction, now: int): Status
  {
    if now < a.startTime then Upcoming
    else if a.startTime <= now < a.endTime then Active
    else if a.status != Ended then Ended
    else a.status
  }

  /** The periodic refresh of one auction: the same record when its status
      does not change. */
  function Refreshed(a: Auction, now: int): Auction
  {
    var s := RefreshStatus(a, now);
    if s != a.status then a.(status := s) else a
  }

  function RefreshAll(auctions: seq<Auction>, now: int): (r: seq<Auction>)
    ensures |r| == |auctions|
  {
    seq(|auctions|, i requires 0 <= i < |auctions| => Refreshed(auctions[i], now))
  }

  /** The refresh changes nothing but the status, which it sets to the derived
      one; it keeps the record exactly when the status is already right. */
  lemma RefreshIsDerivedStatus(a: Auction, now: int)
    ensures Refreshed(a, now) == a.(status := DeriveStatus(a.startTime, a.endTime, now))
    ensures Refreshed(a, now) == a <==> a.status == DeriveStatus(a.startTime, a.endTime, now)
  {
  }

  /** The refresh agrees with the initial fetch and is idempotent at a given time. */
  lemma RefreshAgreesWithFetch(auctions: seq<Auction>, now: int)
    ensures RefreshAll(auctions, now) == Fetched(auctions, now)
    ensures RefreshAll(RefreshAll(auctions, now), now) == RefreshAll(auctions, now)
  {
    var r := RefreshAll(auctions, now);
    forall i | 0 <= i < |auctions| ensures r[i] == Fetched(auctions, now)[i] {
      RefreshIsDerivedStatus(auctions[i], now);
    }
    forall i | 0 <= i < |auctions| ensures RefreshAll(r, now)[i] == r[i] {
      RefreshIsDerivedStatus(r[i], now);
    }
  }

  // ---------------------------------------------------------------------------
  // Filters

  /** The search test: the lower-cased query occurs in the lower-cased title
      or description. */
  predicate SearchHit(a: Auction, query: string)
  {
    Includes(Lower(a.title), query) || Includes(Lower(a.description), query)
  }

  predicate InCategory(f: Filters, a: Auction)
  {
    f.category.Some? && a.categoryId == f.category.value
  }

  predicate HasStatus(f: Filters, a: Auction)
  {
    f.status.Some? && StatusName(a.status) == f.status.value
  }

  predicate AboveMin(f: Filters, a: Auction)
  {
    f.minPrice.Some? && a.currentPrice >= f.minPrice.value
  }

  predicate BelowMax(f: Filters, a: Auction)
  {
    f.maxPrice.Some? && a.currentPrice <= f.maxPrice.value
  }

  predicate Found(f: Filters, a: Auction)
  {
    f.search.Some? && SearchHit(a, Lower(f.search.value))
  }

  /** The filter effect: each present criterion filters the list in turn;
      empty text criteria are skipped and price bounds are inclusive. */
  function ApplyFilters(auctions: seq<Auction>, f: Filters): seq<Auction>
  {
    var byCategory := Keep(auctions, Truthy(f.category), a => InCategory(f, a));
    var byStatus := Keep(byCategory, Truthy(f.status), a => HasStatus(f, a));
    var byMin := Keep(byStatus, f.minPrice.Some?, a => AboveMin(f, a));
    var byMax := Keep(byMin, f.maxPrice.Some?, a => BelowMax(f, a));
    Keep(byMax, Truthy(f.search), a => Found(f, a))
  }

  /** Every present criterion holds, stated field by field. */
  predicate Matches(f: Filters, a: Auction)
  {
    && (Truthy(f.category) ==> a.categoryId == f.category.value)
    && (Truthy(f.status) ==> StatusName(a.status) == f.status.value)
    && (f.minPrice.Some? ==> a.currentPrice >= f.minPrice.value)
    && (f.maxPrice.Some? ==> a.currentPrice <= f.maxPrice.value)
    && (Truthy(f.search) ==> SearchHit(a, Lower(f.search.value)))
  }

  /** The pipeline is one filter by `Matches`. */
  lemma ApplyFiltersIsOneFilter(auctions: seq<Auction>, f: Filters)
    ensures ApplyFilters(auctions, f) == Filter(auctions, a => Matches(f, a))
  {
    var q0 := (a: Auction) => true;
    var q1 := (a: Auction) => !Truthy(f.category) || InCategory(f, a);
    var q2 := (a: Auction) => q1(a) && (!Truthy(f.status) || HasStatus(f, a));
    var q3 := (a: Auction) => q2(a) && (!f.minPrice.Some? || AboveMin(f, a));
    var q4 := (a: Auction) => q3(a) && (!f.maxPrice.Some? || BelowMax(f, a));
    var q5 := (a: Auction) => q4(a) && (!Truthy(f.search) || Found(f, a));
    FilterAll(auctions, q0);
    KeepStep(auctions, q0, Truthy(f.category), a => InCategory(f, a), q1);
    KeepStep(auctions, q1, Truthy(f.status), a => HasStatus(f, a), q2);
    KeepStep(auctions, q2, f.minPrice.Some?, a => AboveMin(f, a), q3);
    KeepStep(auctions, q3, f.maxPrice.Some?, a => BelowMax(f, a), q4);
    KeepStep(auctions, q4, Truthy(f.search), a => Found(f, a), q5);
    FilterSameTest(auctions, q5, a => Matches(f, a));
  }

  /** The filtered list keeps the order of the full list, and an auction is in
      it exactly when it is in the full list and every present criterion holds. */
  lemma FilteredListSpec(auctions: seq<Auction>, f: Filters, a: Auction)
    ensures IsSubsequence(ApplyFilters(auctions, f), auctions)
    ensures a in ApplyFilters(auctions, f) <==> a in auctions && Matches(f, a)
  {
    ApplyFiltersIsOneFilter(auctions, f);
    FilterIsSubsequence(auctions, a => Matches(f, a));
    FilterMembership(auctions, a => Matches(f, a), a);
  }

  /** The search keeps an auction exactly when the lower-cased query occurs in
      its lower-cased title or description. */
  lemma SearchHitIff(a: Auction, search: string)
    ensures SearchHit(a, Lower(search))
        <==> IsSubstring(Lower(search), Lower(a.title)) || IsSubstring(Lower(search), Lower(a.description))
  {
    IncludesIff(Lower(a.title), Lower(search));
    IncludesIff(Lower(a.description), Lower(search));
  }

  // ---------------------------------------------------------------------------
  // Message reducers

  /** A `new_bid` message applied to one auction. */
  function NewBidOn(a: Auction, auctionId: string, bid: Bid): Auction
  {
    if a.id == auctionId
    then a.(bids := [bid] + a.bids, currentPrice := bid.amount,
            highestBidder := Some(Party(bid.userId, bid.username)))
    else a
  }

  function ApplyNewBid(auctions: seq<Auction>, auctionId: string, bid: Bid): (r: seq<Auction>)
    ensures |r| == |auctions|
  {
    seq(|auctions|, i requires 0 <= i < |auctions| => NewBidOn(auctions[i], auctionId, bid))
  }

  function WithBidStatus(b: Bid, bidId: string, status: BidStatus): Bid
  {
    if b.id == bidId then b.(status := status) else b
  }

  /** A `bid_accepted` or `bid_rejected` message applied to one auction. */
  function BidStatusOn(a: Auction, auctionId: string, bidId: string, status: BidStatus): Auction
  {
    if a.id == auctionId
    then a.(bids := seq(|a.bids|, j requires 0 <= j < |a.bids| => WithBidStatus(a.bids[j], bidId, status)))
    else a
  }

  function SetBidStatus(auctions: seq<Auction>, auctionId: string, bidId: string, status: BidStatus): (r: seq<Auction>)
    ensures |r| == |auctions|
  {
    seq(|auctions|, i requires 0 <= i < |auctions| => BidStatusOn(auctions[i], auctionId, bidId, status))
  }

  /** An `auction_update` message: the auction with the same id is replaced. */
  function ApplyAuctionUpdate(auctions: seq<Auction>, updated: Auction): (r: seq<Auction>)
    ensures |r| == |auctions|
  {
    seq(|auctions|, i requires 0 <= i < |auctions| => if auctions[i].id == updated.id then updated else auctions[i])
  }

  /** The handler for one incoming message; other messages change nothing. */
  function Reduce(auctions: seq<Auction>, m: Message): seq<Auction>
  {
    if m.kind == "new_bid" && m.payload.BidPayload? then
      ApplyNewBid(auctions, m.payload.auctionId, m.payload.bid)
    else if (m.kind == "bid_accepted" || m.kind == "bid_rejected") && m.payload.BidStatusPayload? then
      SetBidStatus(auctions, m.payload.auctionId, m.payload.bidId, m.payload.status)
    else if m.kind == "auction_update" && m.payload.AuctionPayload? then
      ApplyAuctionUpdate(auctions, m.payload.auction)
    else auctions
  }

  /** A `new_bid` changes only the auctions with the bid's auction id: the bid
      goes in front, the price becomes its amount and the bidder becomes the
      highest bidder; nothing else changes. */
  lemma NewBidEffect(auctions: seq<Auction>, auctionId: string, bid: Bid, i: int)
    requires 0 <= i < |auctions|
    ensures var r := ApplyNewBid(auctions, auctionId, bid);
      && (auctions[i].id != auctionId ==> r[i] == auctions[i])
      && (auctions[i].id == auctionId ==>
            && r[i].bids[0] == bid && r[i].bids[1..] == auctions[i].bids
            && r[i].currentPrice == bid.amount
            && r[i].highestBidder == Some(Party(bid.userId, bid.username))
            && r[i] == auctions[i].(bids := r[i].bids, currentPrice := r[i].currentPrice,
                                    highestBidder := r[i].highestBidder))
  {
    var r := ApplyNewBid(auctions, auctionId, bid);
    if auctions[i].id == auctionId {
      assert r[i].bids == [bid] + auctions[i].bids;
    }
  }

  /** A status message changes only the status of the bids with that id in the
      auctions with that id: prices, bid order and amounts are unchanged. */
  lemma BidStatusEffect(auctions: seq<Auction>, auctionId: string, bidId: string, status: BidStatus, i: int)
    requires 0 <= i < |auctions|
    ensures var r := SetBidStatus(auctions, auctionId, bidId, status);
      && r[i] == auctions[i].(bids := r[i].bids)
      && |r[i].bids| == |auctions[i].bids|
      && (forall j :: 0 <= j < |r[i].bids| ==>
            && r[i].bids[j] == auctions[i].bids[j].(status := r[i].bids[j].status)
            && r[i].bids[j].status
               == if auctions[i].id == auctionId && auctions[i].bids[j].id == bidId
                  then status else auctions[i].bids[j].status)
  {
  }

  /** Applying the same status message twice is the same as once. */
  lemma SetBidStatusIdempotent(auctions: seq<Auction>, auctionId: string, bidId: string, status: BidStatus)
    ensures SetBidStatus(SetBidStatus(auctions, auctionId, bidId, status), auctionId, bidId, status)
         == SetBidStatus(auctions, auctionId, bidId, status)
  {
    var r := SetBidStatus(auctions, auctionId, bidId, status);
    var rr := SetBidStatus(r, auctionId, bidId, status);
    forall i | 0 <= i < |auctions| ensures rr[i] == r[i] {
      if auctions[i].id == auctionId {
        assert rr[i].bids == r[i].bids;
      }
    }
  }

  /** A `new_bid` followed by `bid_accepted` for that bid leaves it accepted at
      the head of its auction. */
  lemma NewBidThenStatus(auctions: seq<Auction>, auctionId: string, bid: Bid, status: BidStatus, i: int)
    requires 0 <= i < |auctions| && auctions[i].id == auctionId
    ensures var r := SetBidStatus(ApplyNewBid(auctions, auctionId, bid), auctionId, bid.id, status);
      r[i].bids[0] == bid.(status := status) && r[i].currentPrice == bid.amount
  {
  }

  function Ids(auctions: seq<Auction>): (r: seq<string>)
    ensures |r| == |auctions|
  {
    seq(|auctions|, i requires 0 <= i < |auctions| => auctions[i].id)
  }

  /** No message adds, removes, reorders or renames an auction. */
  lemma ReduceKeepsIds(auctions: seq<Auction>, m: Message)
    ensures Ids(Reduce(auctions, m)) == Ids(auctions)
  {
  }

  /** An `auction_update` replaces exactly the auctions with its id. */
  lemma AuctionUpdateEffect(auctions: seq<Auction>, updated: Auction, i: int)
    requires 0 <= i < |auctions|
    ensures ApplyAuctionUpdate(auctions, updated)[i]
         == if auctions[i].id == updated.id then updated else auctions[i]
  {
  }

  // ---------------------------------------------------------------------------
  // Lookup

  /** `auctions[i]` is the first auction with this id. */
  ghost predicate FirstWithId(auctions: seq<Auction>, id: string, i: int)
  {
    0 <= i < |auctions| && auctions[i].id == id && forall j :: 0 <= j < i ==> auctions[j].id != id
  }

  /** `getAuction`: the first auction with the id, if any. */
  function Find(auctions: seq<Auction>, id: string): (r: Option<Auction>)
    ensures r.None? <==> forall i :: 0 <= i < |auctions| ==> auctions[i].id != id
    ensures r.Some? ==> exists i :: FirstWithId(auctions, id, i) && auctions[i] == r.value
  {
    if auctions == [] then None
    else if auctions[0].id == id then
      assert FirstWithId(auctions, id, 0);
      Some(auctions[0])
    else
      var r := Find(auctions[1..], id);
      if r.Some? then
        assert exists k :: FirstWithId(auctions, id, k) && auctions[k] == r.value by {
          var i :| FirstWithId(auctions[1..], id, i) && auctions[1..][i] == r.value;
          assert FirstWithId(auctions, id, i + 1);
        }
        r
      else
        assert forall i :: 1 <= i < |auctions| ==> auctions[i] == auctions[1..][i - 1];
        r
  }

  // ---------------------------------------------------------------------------
  // Creating an auction and placing a bid

  /** The status `createAuction` assigns. */
  function CreationStatus(startTime: int, endTime: int, now: int): Status
  {
    if startTime <= now < endTime then Active
    else if endTime <= now then Ended
    else Upcoming
  }

  /** The status at creation agrees with the derived status except when the
      end lies before the start and the clock is between them. */
  lemma CreationStatusAgrees(startTime: int, endTime: int, now: int)
    ensures CreationStatus(startTime, endTime, now) != DeriveStatus(startTime, endTime, now)
        <==> endTime <= now < startTime
  {
  }

  /** The record `createAuction` appends. */
  function NewAuction(draft: Auction, uuid: string, now: int): (a: Auction)
    ensures a.id == "auction-" + uuid
    ensures a.currentPrice == draft.startingPrice && a.bids == [] && a.viewCount == 0
    ensures a.status == CreationStatus(draft.startTime, draft.endTime, now)
    ensures a == draft.(id := a.id, currentPrice := a.currentPrice, bids := [], status := a.status, viewCount := 0)
  {
    draft.(id := "auction-" + uuid, currentPrice := draft.startingPrice, bids := [],
           status := CreationStatus(draft.startTime, draft.endTime, now), viewCount := 0)
  }

  const NotFound := "Auction not found"
  const NotActive := "Cannot bid on an auction that is not active"
  const NotLoggedIn := "You must be logged in to place a bid"

  function TooLow(currentPrice: int): string
  {
    "Bid must be higher than current price of $" + IntToString(currentPrice)
  }

  function BelowIncrement(minBidIncrement: int): string
  {
    "Minimum bid increment is $" + IntToString(minBidIncrement)
  }

  /** The first failing check of `placeBid`, in the order the source checks them. */
  function PlaceBidError(auctions: seq<Auction>, auctionId: string, amount: int, user: Option<User>): Option<string>
  {
    match Find(auctions, auctionId)
    case None => Some(NotFound)
    case Some(a) =>
      if a.status != Active then Some(NotActive)
      else if amount <= a.currentPrice then Some(TooLow(a.currentPrice))
      else if amount < a.currentPrice + a.minBidIncrement then Some(BelowIncrement(a.minBidIncrement))
      else if user.None? then Some(NotLoggedIn)
      else None
  }

  /** `placeBid` admits a bid exactly when the auction exists and is active,
      the amount is above the price and at least one increment above it, and
      a user is stored. */
  lemma PlaceBidAdmits(auctions: seq<Auction>, auctionId: string, amount: int, user: Option<User>)
    ensures PlaceBidError(auctions, auctionId, amount, user) == None
        <==> && Find(auctions, auctionId).Some?
             && Find(auctions, auctionId).value.status == Active
             && amount > Find(auctions, auctionId).value.currentPrice
             && amount >= Find(auctions, auctionId).value.currentPrice + Find(auctions, auctionId).value.minBidIncrement
             && user.Some?
  {
  }

  /** The client is stricter than the server, which takes any amount above
      the price: one unit above the price of an active auction is refused for
      want of the increment whenever the increment exceeds one, while the
      server, holding the same auction, commits that bid once the gate
      accepts it. */
  lemma ClientStricterThanServer(auctions: seq<Auction>, auctionId: string, a: Auction, user: Option<User>,
                                 reg: map<string, Auction>, b: Bid, votes: seq<bool>, now: int)
    requires Find(auctions, auctionId) == Some(a) && a.status == Active && a.minBidIncrement > 1
    ensures PlaceBidError(auctions, auctionId, a.currentPrice + 1, user) == Some(BelowIncrement(a.minBidIncrement))
    ensures auctionId in reg && reg[auctionId] == a && b.amount == a.currentPrice + 1 && Registry.Gate(votes) ==>
      var next := Registry.NextRegistry(reg, Registry.NewBid(auctionId, b), votes, now);
      && next[auctionId].currentPrice == b.amount
      && next[auctionId].bids == [b.(timestamp := now, status := Accepted)] + a.bids
  {
  }

  /** The bid `placeBid` hands to the queue and shows optimistically. */
  function PendingBid(uuid: string, user: User, amount: int, now: int): (b: Bid)
    ensures b.id == "bid-" + uuid && b.status == Pending && b.amount == amount
    ensures b.userId == user.id && b.username == user.username && b.timestamp == now
  {
    Bid("bid-" + uuid, user.id, user.username, amount, now, Pending)
  }

  // ---------------------------------------------------------------------------
  // The provider's state

  /** `AuctionProvider`: the auction list, the filters, the loading flag and
      the error message, and the queue service bids are handed to. */
  class AuctionStore {
    var auctions: seq<Auction>
    var filters: Filters
    var loading: bool
    var error: Option<string>
    const service: MessageQueue.QueueService

    constructor (service: MessageQueue.QueueService)
      ensures auctions == [] && filters == NoFilters && loading && error == None
      ensures this.service == service
    {
      auctions := [];
      filters := NoFilters;
      loading := true;
      error := None;
      this.service := service;
    }

    /** `filteredAuctions`. */
    function FilteredAuctions(): seq<Auction>
      reads this
    {
      ApplyFilters(auctions, filters)
    }

    /** The initial fetch. */
    method Load(mock: seq<Auction>, now: int)
      modifies this
      ensures auctions == Fetched(mock, now) && !loading && error == None && filters == old(filters)
    {
      loading := true;
      error := None;
      auctions := Fetched(mock, now);
      loading := false;
    }

    /** One tick of the status interval. */
    method Tick(now: int)
      modifies this`auctions
      ensures auctions == RefreshAll(old(auctions), now)
    {
      auctions := RefreshAll(auctions, now);
    }

    method SetFilters(f: Filters)
      modifies this`filters
      ensures filters == f
    {
      filters := f;
    }

    /** The WebSocket message handler. */
    method Receive(m: Message)
      modifies this`auctions
      ensures auctions == Reduce(old(auctions), m)
    {
      auctions := Reduce(auctions, m);
    }

    /** `createAuction`: the new auction is appended and returned. */
    method CreateAuction(draft: Auction, uuid: string, now: int) returns (created: Auction)
      modifies this
      ensures created == NewAuction(draft, uuid, now)
      ensures auctions == old(auctions) + [created]
      ensures error == None && !loading && filters == old(filters)
    {
      loading := true;
      error := None;
      created := NewAuction(draft, uuid, now);
      auctions := auctions + [created];
      loading := false;
    }

    /** `placeBid`, with `storedUser` the user kept in local storage, `uuid` the
        fresh id and `clock` the readings the bid queue's processing sees. */
    method PlaceBid(auctionId: string, amount: int, storedUser: Option<User>, uuid: string,
                    now: int, clock: seq<nat>) returns (ok: bool)
      requires service.Valid()
      modifies this, service, service.store, service.bidQueue, service.notificationQueue
      ensures service.Valid()
      ensures filters == old(filters) && loading == old(loading)
      ensures ok <==> PlaceBidError(old(auctions), auctionId, amount, storedUser) == None
      ensures !ok ==> && auctions == old(auctions)
                      && error == PlaceBidError(old(auctions), auctionId, amount, storedUser)
                      && unchanged(service, service.store, service.bidQueue, service.notificationQueue)
      ensures ok ==> && auctions == ApplyNewBid(old(auctions), auctionId,
                                                PendingBid(uuid, storedUser.value, amount, now))
                     && error == None
                     && service.bidQueue.submitted
                        == old(service.bidQueue.submitted)
                           + [MessageQueue.BidJob(auctionId, PendingBid(uuid, storedUser.value, amount, now))]
    {
      error := None;
      var found := Find(auctions, auctionId);
      if found.None? {
        error := Some(NotFound);
        return false;
      }
      var a := found.value;
      if a.status != Active {
        error := Some(NotActive);
        return false;
      }
      if amount <= a.currentPrice {
        error := Some(TooLow(a.currentPrice));
        return false;
      }
      if amount < a.currentPrice + a.minBidIncrement {
        error := Some(BelowIncrement(a.minBidIncrement));
        return false;
      }
      if storedUser.None? {
        error := Some(NotLoggedIn);
        return false;
      }
      var user := storedUser.value;
      var newBid := PendingBid(uuid, user, amount, now);
      var _ := service.AddBid(auctionId, newBid, clock);
      auctions := ApplyNewBid(auctions, auctionId, newBid);
      ok := true;
    }
  }
}
