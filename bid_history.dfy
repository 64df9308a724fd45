/** The bid history list: one entry per bid, newest first, each marked as an
    increase over the next older bid or not, as the current user's or not, the
    first as the highest bid, with one status icon. */
module BidHistory {
  import opened Types
  import Registry

  datatype Icon = CheckIcon | AlertIcon | ClockIcon

  datatype Entry = Entry(
    bid: Bid,
    isIncrease: bool,
    isCurrentUser: bool,
    name: string,
    highest: bool,
    icons: seq<Icon>)

  datatype History = Placeholder | Entries(entries: seq<Entry>)

  /** The icons shown after the amount, one test per status. */
  function StatusIcons(s: BidStatus): seq<Icon>
  {
    (if s == Accepted then [CheckIcon] else [])
    + (if s == Rejected then [AlertIcon] else [])
    + (if s == Pending then [ClockIcon] else [])
  }

  /** Each status gets exactly one icon, and a distinct one. */
  lemma OneIconPerStatus(s: BidStatus)
    ensures |StatusIcons(s)| == 1
    ensures StatusIcons(s)[0] == match s case Accepted => CheckIcon case Rejected => AlertIcon case Pending => ClockIcon
  {
  }

  function EntryAt(bids: seq<Bid>, i: nat, currentUserId: Option<string>): Entry
    requires i < |bids|
  {
    var b := bids[i];
    var mine := currentUserId.Some? && b.userId == currentUserId.value;
    Entry(b,
          if i + 1 < |bids| then b.amount > bids[i + 1].amount else true,
          mine,
          if mine then "You" else b.username,
          i == 0,
          StatusIcons(b.status))
  }

  /** The rendered history: the placeholder for no bids, one entry per bid otherwise. */
  function Render(bids: seq<Bid>, currentUserId: Option<string>): (h: History)
    ensures h.Placeholder? <==> bids == []
    ensures h.Entries? ==> |h.entries| == |bids| && forall i :: 0 <= i < |bids| ==> h.entries[i].bid == bids[i]
  {
    if bids == [] then Placeholder
    else Entries(seq(|bids|, i requires 0 <= i < |bids| => EntryAt(bids, i, currentUserId)))
  }

  /** The oldest entry always counts as an increase, any other exactly when it
      is above the next older bid; only the first is labelled highest, and an
      entry is the user's exactly when its bidder is the current user. */
  lemma EntrySpec(bids: seq<Bid>, currentUserId: Option<string>, i: nat)
    requires i < |bids|
    ensures var e := Render(bids, currentUserId).entries[i];
      && (i == |bids| - 1 ==> e.isIncrease)
      && (i < |bids| - 1 ==> (e.isIncrease <==> bids[i].amount > bids[i + 1].amount))
      && (e.highest <==> i == 0)
      && (e.isCurrentUser <==> currentUserId == Some(bids[i].userId))
      && |e.icons| == 1
  {
    OneIconPerStatus(bids[i].status);
  }

  /** For a bid list the server keeps, newest above every older one, every
      entry shows an increase. */
  lemma ServerHistoryOnlyRises(bids: seq<Bid>, currentUserId: Option<string>)
    requires Registry.StrictlyDescending(bids)
    ensures Render(bids, currentUserId).Entries? ==>
      forall i :: 0 <= i < |bids| ==> Render(bids, currentUserId).entries[i].isIncrease
  {
    forall i | 0 <= i < |bids| ensures Render(bids, currentUserId).entries[i].isIncrease {
      if i + 1 < |bids| {
        assert bids[i].amount > bids[i + 1].amount;
      }
    }
  }
}
