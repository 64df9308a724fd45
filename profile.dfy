/** The profile page's four lists of the user's auctions. */
module Profile {
  import opened Types
  import opened Seqs

  /** The simulated watch list. */
  const WatchingIds: seq<string> := ["auction-1", "auction-5"]

  predicate HasBidBy(a: Auction, userId: string)
  {
    exists k :: 0 <= k < |a.bids| && a.bids[k].userId == userId
  }

  predicate SoldBy(a: Auction, userId: string)
  {
    a.seller.id == userId
  }

  predicate WonBy(a: Auction, userId: string)
  {
    a.status == Ended && a.highestBidder.Some? && a.highestBidder.value.id == userId
  }

  predicate Watched(a: Auction, watchingIds: seq<string>)
  {
    a.id in watchingIds
  }

  /** `bids.some(bid => bid.userId === userId)` written as a scan. */
  function AnyBidBy(bids: seq<Bid>, userId: string): (r: bool)
    ensures r <==> exists k :: 0 <= k < |bids| && bids[k].userId == userId
  {
    if bids == [] then false
    else if bids[0].userId == userId then true
    else
      var r := AnyBidBy(bids[1..], userId);
      assert r ==> exists k :: 0 <= k < |bids| && bids[k].userId == userId by {
        if r {
          var k :| 0 <= k < |bids[1..]| && bids[1..][k].userId == userId;
          assert bids[k + 1].userId == userId;
        }
      }
      r
  }

  predicate BidOn(a: Auction, userId: string)
  {
    AnyBidBy(a.bids, userId)
  }

  datatype Lists = Lists(bids: seq<Auction>, selling: seq<Auction>, won: seq<Auction>, watching: seq<Auction>)

  const NoLists := Lists([], [], [], [])

  /** The lists after the effect runs: recomputed only when a user is signed
      in and there are auctions. */
  function UserLists(prev: Lists, auctions: seq<Auction>, user: Option<User>, watchingIds: seq<string>): Lists
  {
    if user.None? || |auctions| == 0 then prev
    else
      var id := user.value.id;
      Lists(Filter(auctions, a => BidOn(a, id)),
            Filter(auctions, a => SoldBy(a, id)),
            Filter(auctions, a => WonBy(a, id)),
            Filter(auctions, a => Watched(a, watchingIds)))
  }

  /** Each list holds, in the order of the auction list, exactly the auctions
      the user has bid on, sells, has won (ended with the user as highest
      bidder) and watches. */
  lemma UserListsSpec(prev: Lists, auctions: seq<Auction>, user: User, watchingIds: seq<string>, a: Auction)
    requires auctions != []
    ensures var l := UserLists(prev, auctions, Some(user), watchingIds);
      && (a in l.bids <==> a in auctions && HasBidBy(a, user.id))
      && (a in l.selling <==> a in auctions && SoldBy(a, user.id))
      && (a in l.won <==> a in auctions && WonBy(a, user.id))
      && (a in l.watching <==> a in auctions && Watched(a, watchingIds))
      && IsSubsequence(l.bids, auctions) && IsSubsequence(l.selling, auctions)
      && IsSubsequence(l.won, auctions) && IsSubsequence(l.watching, auctions)
  {
    var id := user.id;
    FilterMembership(auctions, a => BidOn(a, id), a);
    FilterMembership(auctions, a => SoldBy(a, id), a);
    FilterMembership(auctions, a => WonBy(a, id), a);
    FilterMembership(auctions, a => Watched(a, watchingIds), a);
    FilterIsSubsequence(auctions, a => BidOn(a, id));
    FilterIsSubsequence(auctions, a => SoldBy(a, id));
    FilterIsSubsequence(auctions, a => WonBy(a, id));
    FilterIsSubsequence(auctions, a => Watched(a, watchingIds));
  }

  /** Without a user, or with no auctions, the lists stay as they were. */
  lemma UserListsKept(prev: Lists, auctions: seq<Auction>, user: Option<User>, watchingIds: seq<string>)
    requires user.None? || auctions == []
    ensures UserLists(prev, auctions, user, watchingIds) == prev
  {
  }
}
