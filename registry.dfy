/** The server side of bid admission: the in-memory auction registry, the
    simulated three-acceptor gate, broadcast to connected clients and the
    WebSocket message handler. Each incoming message is handled as one atomic
    step; the gate's random votes are inputs, and every message the server
    writes to a socket is appended to an output log. */
module Registry {
  import opened Types

  type ClientId = nat

  /** The messages a client sends, after `JSON.parse`. */
  datatype Inbound =
    | CreateAuction(auction: Auction)
    | NewBid(auctionId: string, bid: Bid)
    | GetAuctions
    | Unknown(kind: string)
    | Unparsable(reason: string)

  /** The messages the server writes to sockets. */
  datatype Outbound =
    | Connected
    | AuctionCreated(auction: Auction)
    | AuctionsList(auctions: map<string, Auction>)
    | BidAccepted(auctionId: string, bidId: string, status: BidStatus, bid: Bid)
    | BidRejected(auctionId: string, bidId: string, status: BidStatus)
    | Error(message: string)

  /** A socket of the server; it receives writes only while `readyState` is OPEN. */
  datatype Client = Client(id: ClientId, readyState: int)

  datatype Delivery = Delivery(to: ClientId, message: Outbound)

  const Acceptors := 3
  const OpenState := 1

  const NotFoundMessage := "Auction not found"
  const TooLowMessage := "Bid must be higher than current price"
  const UnknownMessage := "Unknown message type"

  // ---------------------------------------------------------------------------
  // The acceptance gate

  /** The number of acceptors that voted to accept. */
  function Accepts(votes: seq<bool>): (n: nat)
    ensures n <= |votes|
  {
    if votes == [] then 0 else (if votes[0] then 1 else 0) + Accepts(votes[1..])
  }

  lemma {:induction false} AcceptsSnoc(votes: seq<bool>, v: bool)
    ensures Accepts(votes + [v]) == Accepts(votes) + (if v then 1 else 0)
  {
    if votes != [] {
      assert (votes + [v])[1..] == votes[1..] + [v];
      AcceptsSnoc(votes[1..], v);
    }
  }

  /** The gate's verdict: strictly more than half of the acceptors accept. */
  predicate Gate(votes: seq<bool>)
  {
    2 * Accepts(votes) > Acceptors
  }

  /** `consensusSimulate`: count the accepting votes, then compare with half
      the number of acceptors. */
  method ConsensusSimulate(votes: seq<bool>) returns (ok: bool)
    requires |votes| == Acceptors
    ensures ok <==> Accepts(votes) >= 2
  {
    var accepted := 0;
    for i := 0 to Acceptors
      invariant accepted == Accepts(votes[..i])
    {
      AcceptsSnoc(votes[..i], votes[i]);
      assert votes[..i + 1] == votes[..i] + [votes[i]];
      if votes[i] {
        accepted := accepted + 1;
      }
    }
    assert votes[..Acceptors] == votes;
    ok := 2 * accepted > Acceptors;
  }

  /** Of three votes, the gate accepts exactly when two of them accept. */
  lemma GateIsTwoOfThree(a: bool, b: bool, c: bool)
    ensures Gate([a, b, c]) <==> (a && b) || (a && c) || (b && c)
  {
    assert [a, b, c][1..] == [b, c];
    assert [b, c][1..] == [c];
    assert [c][1..] == [];
    assert Accepts([c]) == (if c then 1 else 0);
    assert Accepts([b, c]) == (if b then 1 else 0) + Accepts([c]);
    assert Accepts([a, b, c]) == (if a then 1 else 0) + (if b then 1 else 0) + (if c then 1 else 0);
  }

  // ---------------------------------------------------------------------------
  // Broadcast

  /** What `broadcast` writes: the message once to every OPEN client, in the
      order of the client set. */
  function Fanout(clients: seq<Client>, m: Outbound): (r: seq<Delivery>)
    ensures |r| <= |clients|
    ensures forall d :: d in r ==> d.message == m
  {
    if clients == [] then []
    else (if clients[0].readyState == OpenState then [Delivery(clients[0].id, m)] else [])
         + Fanout(clients[1..], m)
  }

  lemma {:induction false} FanoutSnoc(clients: seq<Client>, c: Client, m: Outbound)
    ensures Fanout(clients + [c], m)
         == Fanout(clients, m) + (if c.readyState == OpenState then [Delivery(c.id, m)] else [])
  {
    if clients != [] {
      assert (clients + [c])[1..] == clients[1..] + [c];
      FanoutSnoc(clients[1..], c, m);
    }
  }

  predicate DistinctIds(clients: seq<Client>)
  {
    forall i, j :: 0 <= i < j < |clients| ==> clients[i].id != clients[j].id
  }

  ghost predicate IsOpenClient(clients: seq<Client>, id: ClientId)
  {
    exists c :: c in clients && c.id == id && c.readyState == OpenState
  }

  /** Every OPEN client receives the message exactly once, and no other client
      receives it. */
  lemma {:induction false} FanoutExactlyOnce(clients: seq<Client>, m: Outbound, id: ClientId)
    requires DistinctIds(clients)
    ensures multiset(Fanout(clients, m))[Delivery(id, m)]
         == if IsOpenClient(clients, id) then 1 else 0
  {
    if clients != [] {
      var c := clients[0];
      FanoutExactlyOnce(clients[1..], m, id);
      if c.id == id {
        assert !IsOpenClient(clients[1..], id) by {
          forall x | x in clients[1..] ensures x.id != id {
            var k :| 0 <= k < |clients[1..]| && clients[1..][k] == x;
            assert clients[k + 1] == x;
          }
        }
      }
      assert IsOpenClient(clients, id)
         <==> (c.id == id && c.readyState == OpenState) || IsOpenClient(clients[1..], id) by {
        if IsOpenClient(clients, id) {
          var x :| x in clients && x.id == id && x.readyState == OpenState;
          if x != c {
            assert x in clients[1..];
          }
        }
        if IsOpenClient(clients[1..], id) {
          var x :| x in clients[1..] && x.id == id && x.readyState == OpenState;
          assert x in clients;
        }
      }
    }
  }

  // ---------------------------------------------------------------------------
  // The registry and its invariant

  predicate StrictlyDescending(bids: seq<Bid>)
  {
    forall i, j :: 0 <= i < j < |bids| ==> bids[i].amount > bids[j].amount
  }

  /** What every auction of the registry satisfies after any sequence of
      messages: bids strictly decreasing from the newest, all above the
      starting price and accepted, and the price is the newest bid's amount
      or the starting price. */
  predicate PriceConsistent(a: Auction)
  {
    && StrictlyDescending(a.bids)
    && (forall i :: 0 <= i < |a.bids| ==> a.bids[i].amount > a.startingPrice)
    && (forall i :: 0 <= i < |a.bids| ==> a.bids[i].status == Accepted)
    && a.currentPrice == (if a.bids == [] then a.startingPrice else a.bids[0].amount)
  }

  predicate RegistryConsistent(reg: map<string, Auction>)
  {
    forall id :: id in reg ==> PriceConsistent(reg[id])
  }

  /** The record `create_auction` stores. */
  function Created(a: Auction): (r: Auction)
    ensures PriceConsistent(r)
  {
    a.(currentPrice := a.startingPrice, bids := [])
  }

  /** The record after a bid is committed at time `now`. */
  function Committed(a: Auction, bid: Bid, now: int): Auction
  {
    a.(bids := [bid.(timestamp := now, status := Accepted)] + a.bids, currentPrice := bid.amount)
  }

  /** Committing a bid above the current price keeps the invariant. */
  lemma CommitKeepsConsistency(a: Auction, bid: Bid, now: int)
    requires PriceConsistent(a) && bid.amount > a.currentPrice
    ensures PriceConsistent(Committed(a, bid, now))
  {
    var c := Committed(a, bid, now);
    forall i, j | 0 <= i < j < |c.bids| ensures c.bids[i].amount > c.bids[j].amount {
      assert c.bids[j] == a.bids[j - 1];
      if i > 0 {
        assert c.bids[i] == a.bids[i - 1];
      } else {
        assert a.bids[0].amount >= a.bids[j - 1].amount;
      }
    }
  }

  /** With the invariant, the price is the largest amount ever accepted. */
  lemma PriceIsHighestBid(a: Auction)
    requires PriceConsistent(a)
    ensures forall i :: 0 <= i < |a.bids| ==> a.bids[i].amount <= a.currentPrice
    ensures a.currentPrice >= a.startingPrice
  {
  }

  /** The registry after one message. */
  function NextRegistry(reg: map<string, Auction>, m: Inbound, votes: seq<bool>, now: int): map<string, Auction>
  {
    match m
    case CreateAuction(a) => reg[a.id := Created(a)]
    case NewBid(id, bid) =>
      if id in reg && bid.amount > reg[id].currentPrice && Gate(votes)
      then reg[id := Committed(reg[id], bid, now)]
      else reg
    case _ => reg
  }

  /** The socket writes for one message from `sender`. */
  function Responses(reg: map<string, Auction>, clients: seq<Client>, sender: ClientId,
                     m: Inbound, votes: seq<bool>, now: int): seq<Delivery>
  {
    match m
    case CreateAuction(a) => Fanout(clients, AuctionCreated(Created(a)))
    case NewBid(id, bid) =>
      if id !in reg then [Delivery(sender, Error(NotFoundMessage))]
      else if bid.amount <= reg[id].currentPrice then [Delivery(sender, Error(TooLowMessage))]
      else if !Gate(votes) then Fanout(clients, BidRejected(id, bid.id, Rejected))
      else Fanout(clients, BidAccepted(id, bid.id, Accepted, Committed(reg[id], bid, now).bids[0]))
    case GetAuctions => [Delivery(sender, AuctionsList(reg))]
    case Unknown(_) => [Delivery(sender, Error(UnknownMessage))]
    case Unparsable(reason) => [Delivery(sender, Error(reason))]
  }

  /** Every message keeps the invariant of every auction. */
  lemma NextKeepsConsistency(reg: map<string, Auction>, m: Inbound, votes: seq<bool>, now: int)
    requires RegistryConsistent(reg)
    ensures RegistryConsistent(NextRegistry(reg, m, votes, now))
  {
    if m.NewBid? && m.auctionId in reg && m.bid.amount > reg[m.auctionId].currentPrice && Gate(votes) {
      CommitKeepsConsistency(reg[m.auctionId], m.bid, now);
    }
  }

  /** One step of a message sequence: the message, the gate's votes and the clock. */
  datatype Step = Step(m: Inbound, votes: seq<bool>, now: int)

  function Run(reg: map<string, Auction>, steps: seq<Step>): map<string, Auction>
    decreases |steps|
  {
    if steps == [] then reg
    else Run(NextRegistry(reg, steps[0].m, steps[0].votes, steps[0].now), steps[1..])
  }

  /** The invariant holds after any sequence of messages from the empty registry. */
  lemma {:induction false} RunKeepsConsistency(reg: map<string, Auction>, steps: seq<Step>)
    requires RegistryConsistent(reg)
    ensures RegistryConsistent(Run(reg, steps))
    decreases |steps|
  {
    if steps != [] {
      NextKeepsConsistency(reg, steps[0].m, steps[0].votes, steps[0].now);
      RunKeepsConsistency(NextRegistry(reg, steps[0].m, steps[0].votes, steps[0].now), steps[1..]);
    }
  }

  /** `create_auction` stores the auction with its starting price and no bids,
      replacing any auction with the same id, and announces it to every OPEN client. */
  lemma CreateEffect(reg: map<string, Auction>, clients: seq<Client>, sender: ClientId,
                     a: Auction, votes: seq<bool>, now: int)
    ensures var next := NextRegistry(reg, CreateAuction(a), votes, now);
      && a.id in next && next[a.id].currentPrice == a.startingPrice && next[a.id].bids == []
      && next[a.id] == a.(currentPrice := a.startingPrice, bids := [])
      && (forall id :: id in reg && id != a.id ==> id in next && next[id] == reg[id])
      && next.Keys == reg.Keys + {a.id}
    ensures Responses(reg, clients, sender, CreateAuction(a), votes, now)
         == Fanout(clients, AuctionCreated(a.(currentPrice := a.startingPrice, bids := [])))
  {
  }

  /** A bid for an unknown auction: one error to the sender, nothing else. */
  lemma UnknownAuctionEffect(reg: map<string, Auction>, clients: seq<Client>, sender: ClientId,
                             id: string, bid: Bid, votes: seq<bool>, now: int)
    requires id !in reg
    ensures NextRegistry(reg, NewBid(id, bid), votes, now) == reg
    ensures Responses(reg, clients, sender, NewBid(id, bid), votes, now)
         == [Delivery(sender, Error("Auction not found"))]
  {
  }

  /** A bid not above the current price: one error to the sender, the registry
      unchanged, and the outcome does not depend on the gate's votes. */
  lemma TooLowEffect(reg: map<string, Auction>, clients: seq<Client>, sender: ClientId,
                     id: string, bid: Bid, votes: seq<bool>, other: seq<bool>, now: int)
    requires id in reg && bid.amount <= reg[id].currentPrice
    ensures NextRegistry(reg, NewBid(id, bid), votes, now) == reg
    ensures NextRegistry(reg, NewBid(id, bid), other, now) == reg
    ensures Responses(reg, clients, sender, NewBid(id, bid), votes, now)
         == Responses(reg, clients, sender, NewBid(id, bid), other, now)
         == [Delivery(sender, Error("Bid must be higher than current price"))]
  {
  }

  /** A gate rejection: `bid_rejected` with status rejected goes to every OPEN
      client, and no auction changes. */
  lemma GateRejectEffect(reg: map<string, Auction>, clients: seq<Client>, sender: ClientId,
                         id: string, bid: Bid, votes: seq<bool>, now: int)
    requires id in reg && bid.amount > reg[id].currentPrice && !Gate(votes)
    ensures NextRegistry(reg, NewBid(id, bid), votes, now) == reg
    ensures Responses(reg, clients, sender, NewBid(id, bid), votes, now)
         == Fanout(clients, BidRejected(id, bid.id, Rejected))
  {
  }

  /** Acceptance: the bid is prepended as accepted, the price becomes its
      amount, the bid count grows by one, no other auction changes, and the
      broadcast carries the new head bid. */
  lemma AcceptEffect(reg: map<string, Auction>, clients: seq<Client>, sender: ClientId,
                     id: string, bid: Bid, votes: seq<bool>, now: int)
    requires id in reg && bid.amount > reg[id].currentPrice && Gate(votes)
    ensures var next := NextRegistry(reg, NewBid(id, bid), votes, now);
      && next.Keys == reg.Keys
      && next[id].currentPrice == bid.amount
      && |next[id].bids| == |reg[id].bids| + 1
      && next[id].bids[0] == bid.(timestamp := now, status := Accepted)
      && next[id].bids[1..] == reg[id].bids
      && next[id] == reg[id].(bids := next[id].bids, currentPrice := bid.amount)
      && (forall other :: other in reg && other != id ==> next[other] == reg[other])
      && Responses(reg, clients, sender, NewBid(id, bid), votes, now)
         == Fanout(clients, BidAccepted(id, bid.id, Accepted, next[id].bids[0]))
  {
    var next := NextRegistry(reg, NewBid(id, bid), votes, now);
    assert next[id].bids[1..] == reg[id].bids;
  }

  /** `get_auctions` and unknown or unparsable messages answer the sender only
      and change nothing. */
  lemma QueryAndErrorEffect(reg: map<string, Auction>, clients: seq<Client>, sender: ClientId,
                            m: Inbound, votes: seq<bool>, now: int)
    requires m.GetAuctions? || m.Unknown? || m.Unparsable?
    ensures NextRegistry(reg, m, votes, now) == reg
    ensures m.GetAuctions? ==> Responses(reg, clients, sender, m, votes, now) == [Delivery(sender, AuctionsList(reg))]
    ensures m.Unknown? ==> Responses(reg, clients, sender, m, votes, now) == [Delivery(sender, Error("Unknown message type"))]
    ensures m.Unparsable? ==> Responses(reg, clients, sender, m, votes, now) == [Delivery(sender, Error(m.reason))]
  {
  }

  /** Each message gives rise to exactly one event: a write to the sender, or
      one broadcast. */
  lemma OneEventPerMessage(reg: map<string, Auction>, clients: seq<Client>, sender: ClientId,
                           m: Inbound, votes: seq<bool>, now: int)
    ensures exists e: Outbound ::
      Responses(reg, clients, sender, m, votes, now) == [Delivery(sender, e)]
      || Responses(reg, clients, sender, m, votes, now) == Fanout(clients, e)
  {
    var r := Responses(reg, clients, sender, m, votes, now);
    match m
    case CreateAuction(a) =>
      assert r == Fanout(clients, AuctionCreated(Created(a)));
    case NewBid(id, bid) =>
      if id !in reg {
        assert r == [Delivery(sender, Error(NotFoundMessage))];
      } else if bid.amount <= reg[id].currentPrice {
        assert r == [Delivery(sender, Error(TooLowMessage))];
      } else if !Gate(votes) {
        assert r == Fanout(clients, BidRejected(id, bid.id, Rejected));
      } else {
        assert r == Fanout(clients, BidAccepted(id, bid.id, Accepted, Committed(reg[id], bid, now).bids[0]));
      }
    case GetAuctions =>
      assert r == [Delivery(sender, AuctionsList(reg))];
    case Unknown(_) =>
      assert r == [Delivery(sender, Error(UnknownMessage))];
    case Unparsable(reason) =>
      assert r == [Delivery(sender, Error(reason))];
  }

  // ---------------------------------------------------------------------------
  // The server object

  class AuctionServer {
    /** The `auctions` object, keyed by auction id. */
    var auctions: map<string, Auction>
    /** `wss.clients`, in insertion order. */
    var clients: seq<Client>
    /** Every socket write so far, in order. */
    var log: seq<Delivery>

    ghost predicate Valid()
      reads this
    {
      RegistryConsistent(auctions) && DistinctIds(clients)
    }

    constructor ()
      ensures Valid()
      ensures auctions == map[] && clients == [] && log == []
    {
      auctions := map[];
      clients := [];
      log := [];
    }

    /** A new socket joins and is sent the `connected` greeting. */
    method Join(id: ClientId)
      requires Valid()
      requires forall c :: c in clients ==> c.id != id
      modifies this
      ensures Valid()
      ensures auctions == old(auctions)
      ensures clients == old(clients) + [Client(id, OpenState)]
      ensures log == old(log) + [Delivery(id, Connected)]
    {
      clients := clients + [Client(id, OpenState)];
      log := log + [Delivery(id, Connected)];
    }

    /** A socket's ready state changes (it starts closing, or closes). */
    method SetReadyState(id: ClientId, state: int)
      requires Valid()
      modifies this
      ensures Valid()
      ensures auctions == old(auctions) && log == old(log) && |clients| == |old(clients)|
      ensures forall i :: 0 <= i < |clients| ==>
        clients[i] == if old(clients[i]).id == id then Client(id, state) else old(clients[i])
    {
      var i := 0;
      var updated: seq<Client> := [];
      while i < |clients|
        invariant 0 <= i <= |clients| && |updated| == i
        invariant forall k :: 0 <= k < i ==>
          updated[k] == if clients[k].id == id then Client(id, state) else clients[k]
      {
        updated := updated + [if clients[i].id == id then Client(id, state) else clients[i]];
        i := i + 1;
      }
      clients := updated;
    }

    method Send(to: ClientId, m: Outbound)
      modifies this`log
      ensures log == old(log) + [Delivery(to, m)]
    {
      log := log + [Delivery(to, m)];
    }

    /** `broadcast`: write to every client whose ready state is OPEN. */
    method Broadcast(m: Outbound)
      modifies this`log
      ensures log == old(log) + Fanout(clients, m)
    {
      var i := 0;
      while i < |clients|
        invariant 0 <= i <= |clients|
        invariant log == old(log) + Fanout(clients[..i], m)
      {
        FanoutSnoc(clients[..i], clients[i], m);
        assert clients[..i + 1] == clients[..i] + [clients[i]];
        if clients[i].readyState == OpenState {
          log := log + [Delivery(clients[i].id, m)];
        }
        i := i + 1;
      }
      assert clients[..|clients|] == clients;
    }

    /** The `message` handler of `handleAuctionWS`. */
    method HandleMessage(sender: ClientId, m: Inbound, votes: seq<bool>, now: int)
      requires Valid() && |votes| == Acceptors
      modifies this
      ensures Valid()
      ensures clients == old(clients)
      ensures auctions == NextRegistry(old(auctions), m, votes, now)
      ensures log == old(log) + Responses(old(auctions), clients, sender, m, votes, now)
    {
      match m
      case CreateAuction(a) =>
        auctions := auctions[a.id := Created(a)];
        Broadcast(AuctionCreated(auctions[a.id]));
      case NewBid(id, bid) =>
        if id !in auctions {
          Send(sender, Error(NotFoundMessage));
          return;
        }
        if bid.amount <= auctions[id].currentPrice {
          Send(sender, Error(TooLowMessage));
          return;
        }
        var ok := ConsensusSimulate(votes);
        if !ok {
          Broadcast(BidRejected(id, bid.id, Rejected));
          return;
        }
        CommitKeepsConsistency(auctions[id], bid, now);
        var a := auctions[id];
        auctions := auctions[id := a.(bids := [bid.(timestamp := now, status := Accepted)] + a.bids)];
        auctions := auctions[id := auctions[id].(currentPrice := bid.amount)];
        Broadcast(BidAccepted(id, bid.id, Accepted, auctions[id].bids[0]));
      case GetAuctions =>
        Send(sender, AuctionsList(auctions));
      case Unknown(_) =>
        Send(sender, Error(UnknownMessage));
      case Unparsable(reason) =>
        Send(sender, Error(reason));
    }
  }
}
