/** The client's persistent message store and its three in-memory job queues.
    A store write keys each record by auction id and the current millisecond
    and fails while the database is not open or when the key is taken; a job
    whose write fails goes back to the head of its queue and is retried. The
    readings of `Date.now()` are an input sequence: each write attempt uses
    the next reading, and when the readings run out the run stops with the
    queue still processing. */
module MessageQueue {
  import opened Types
  import opened Text

  const NotInitialized := "Database not initialized"
  /** The IndexedDB error raised by `add` for a key that is already stored. */
  const ConstraintError := "ConstraintError"
  /** The auction id under which notifications are stored. */
  const NotificationsTarget := "notifications"

  // ---------------------------------------------------------------------------
  // The store

  datatype Record = Record(key: string, auctionId: string, message: Message, timestamp: int)

  /** The key of a record: the auction id, a dash and the millisecond. */
  function RecordKey(auctionId: string, t: nat): string
  {
    auctionId + "-" + Decimal(t)
  }

  /** The length of the longest run of digits at the end of `s`. */
  function TrailingDigits(s: string): (n: nat)
    ensures n <= |s|
  {
    if s != [] && IsDigit(s[|s| - 1]) then 1 + TrailingDigits(s[..|s| - 1]) else 0
  }

  lemma {:induction false} TrailingDigitsOfKey(a: string, d: string)
    requires AllDigits(d)
    ensures TrailingDigits(a + "-" + d) == |d|
  {
    var key := a + "-" + d;
    if d != [] {
      assert key[..|key| - 1] == a + "-" + d[..|d| - 1];
      TrailingDigitsOfKey(a, d[..|d| - 1]);
    }
  }

  /** Different auction ids or different milliseconds give different keys:
      the digits after the last dash are the millisecond. */
  lemma RecordKeyInjective(a: string, t: nat, b: string, u: nat)
    requires RecordKey(a, t) == RecordKey(b, u)
    ensures a == b && t == u
  {
    var key := RecordKey(a, t);
    var d, e := Decimal(t), Decimal(u);
    TrailingDigitsOfKey(a, d);
    TrailingDigitsOfKey(b, e);
    assert d == key[|key| - |d|..] == e;
    DecimalInjective(t, u);
    assert a == key[..|a|] == b;
  }

  predicate KeysDistinct(records: seq<Record>)
  {
    forall i, j :: 0 <= i < j < |records| ==> records[i].key != records[j].key
  }

  predicate HasKey(records: seq<Record>, key: string)
  {
    exists i | 0 <= i < |records| :: records[i].key == key
  }

  /** `getMessages`: the messages stored for one auction id, in store order. */
  function MessagesFor(records: seq<Record>, auctionId: string): (r: seq<Message>)
    ensures |r| <= |records|
  {
    if records == [] then []
    else (if records[0].auctionId == auctionId then [records[0].message] else [])
         + MessagesFor(records[1..], auctionId)
  }

  ghost predicate StoredAt(records: seq<Record>, i: int, auctionId: string, m: Message)
  {
    0 <= i < |records| && records[i].auctionId == auctionId && records[i].message == m
  }

  /** A message is returned for an auction id exactly when some record with
      that id holds it. */
  lemma {:induction false} MessagesForMembership(records: seq<Record>, auctionId: string, m: Message)
    ensures m in MessagesFor(records, auctionId) <==> exists i :: StoredAt(records, i, auctionId, m)
  {
    if records != [] {
      MessagesForMembership(records[1..], auctionId, m);
      if exists i :: StoredAt(records[1..], i, auctionId, m) {
        var i :| StoredAt(records[1..], i, auctionId, m);
        assert StoredAt(records, i + 1, auctionId, m);
      }
      if records[0].auctionId == auctionId && records[0].message == m {
        assert StoredAt(records, 0, auctionId, m);
      }
      var head := if records[0].auctionId == auctionId then [records[0].message] else [];
      assert MessagesFor(records, auctionId) == head + MessagesFor(records[1..], auctionId);
      if exists i :: StoredAt(records, i, auctionId, m) {
        var i :| StoredAt(records, i, auctionId, m);
        if i > 0 {
          assert StoredAt(records[1..], i - 1, auctionId, m);
        } else {
          assert head == [m];
        }
      }
    }
  }

  /** A new record shows up at the end of its own auction's messages and
      leaves every other auction's messages as they were. */
  lemma {:induction false} MessagesForSnoc(records: seq<Record>, r: Record, auctionId: string)
    ensures MessagesFor(records + [r], auctionId)
         == MessagesFor(records, auctionId) + (if r.auctionId == auctionId then [r.message] else [])
  {
    if records != [] {
      assert (records + [r])[1..] == records[1..] + [r];
      MessagesForSnoc(records[1..], r, auctionId);
    }
  }

  /** `MessageStore`: `ready` says whether `initDB` has opened the database. */
  class MessageStore {
    var ready: bool
    var records: seq<Record>

    ghost predicate Valid()
      reads this
    {
      KeysDistinct(records)
    }

    constructor ()
      ensures Valid()
      ensures !ready && records == []
    {
      ready := false;
      records := [];
    }

    /** The database open request succeeds. */
    method Open()
      modifies this`ready
      ensures ready
    {
      ready := true;
    }

    /** `storeMessage` with `Date.now()` reading `now`. */
    method StoreMessage(auctionId: string, message: Message, now: nat) returns (err: Option<string>)
      requires Valid()
      modifies this`records
      ensures Valid()
      ensures !ready ==> err == Some(NotInitialized) && records == old(records)
      ensures ready && HasKey(old(records), RecordKey(auctionId, now))
        ==> err == Some(ConstraintError) && records == old(records)
      ensures ready && !HasKey(old(records), RecordKey(auctionId, now))
        ==> err == None && records == old(records) + [Record(RecordKey(auctionId, now), auctionId, message, now)]
    {
      if !ready {
        return Some(NotInitialized);
      }
      var key := RecordKey(auctionId, now);
      if exists i | 0 <= i < |records| :: records[i].key == key {
        return Some(ConstraintError);
      }
      records := records + [Record(key, auctionId, message, now)];
      err := None;
    }

    /** `getMessages`. */
    method GetMessages(auctionId: string) returns (r: Result<seq<Message>>)
      ensures !ready ==> r == Fail(NotInitialized)
      ensures ready ==> r == Ok(MessagesFor(records, auctionId))
    {
      if !ready {
        return Fail(NotInitialized);
      }
      r := Ok(MessagesFor(records, auctionId));
    }
  }

  // ---------------------------------------------------------------------------
  // Jobs

  /** The items of the three queues. */
  datatype Job =
    | BidJob(auctionId: string, bid: Bid)
    | NoticeJob(message: Message)
    | UpdateJob(auctionId: string, update: Auction)

  datatype Kind = BidKind | NoticeKind | UpdateKind

  function KindOf(j: Job): Kind
  {
    match j
    case BidJob(_, _) => BidKind
    case NoticeJob(_) => NoticeKind
    case UpdateJob(_, _) => UpdateKind
  }

  /** The auction id a job's message is stored under. */
  function Target(j: Job): string
  {
    match j
    case BidJob(a, _) => a
    case NoticeJob(_) => NotificationsTarget
    case UpdateJob(a, _) => a
  }

  /** The message a job stores. */
  function JobMessage(j: Job): Message
  {
    match j
    case BidJob(a, b) => Message("new_bid", BidPayload(a, b))
    case NoticeJob(m) => m
    case UpdateJob(a, u) => Message("auction_update", UpdatePayload(a, u))
  }

  /** The notification a stored bid gives rise to. */
  function AcceptedNotice(j: Job): (n: Job)
    requires j.BidJob?
    ensures n.NoticeJob? && n.message.kind == "bid_accepted"
    ensures n.message.payload == JobMessage(j).payload
  {
    NoticeJob(Message("bid_accepted", BidPayload(j.auctionId, j.bid)))
  }

  /** The notifications a sequence of stored jobs gives rise to, in order. */
  function Notices(js: seq<Job>): (r: seq<Job>)
    ensures |r| <= |js|
  {
    if js == [] then []
    else (if js[0].BidJob? then [AcceptedNotice(js[0])] else []) + Notices(js[1..])
  }

  lemma {:induction false} NoticesAppend(a: seq<Job>, b: seq<Job>)
    ensures Notices(a + b) == Notices(a) + Notices(b)
  {
    if a != [] {
      assert (a + b)[0] == a[0];
      assert (a + b)[1..] == a[1..] + b;
      NoticesAppend(a[1..], b);
      var head := if a[0].BidJob? then [AcceptedNotice(a[0])] else [];
      assert Notices(a + b) == head + Notices(a[1..] + b);
      assert Notices(a) == head + Notices(a[1..]);
    } else {
      assert a + b == b;
    }
  }

  /** The notifications of a run split at any intermediate point. */
  lemma NoticesSplit(j0: seq<Job>, j1: seq<Job>, j2: seq<Job>)
    requires j0 <= j1 <= j2
    ensures Notices(j2[|j0|..]) == Notices(j1[|j0|..]) + Notices(j2[|j1|..])
  {
    assert j2[|j0|..] == j1[|j0|..] + j2[|j1|..];
    NoticesAppend(j1[|j0|..], j2[|j1|..]);
  }

  /** The record a stored job leaves behind. */
  predicate Stores(r: Record, j: Job)
  {
    r.auctionId == Target(j) && r.message == JobMessage(j)
  }

  /** The store's records are those of the journal's jobs, one each and in
      order. */
  predicate Journaled(records: seq<Record>, journal: seq<Job>)
  {
    |records| == |journal| && forall i :: 0 <= i < |journal| ==> Stores(records[i], journal[i])
  }

  /** A successful write extends the journal by its job. */
  lemma JournalStep(records: seq<Record>, journal: seq<Job>, r: Record, job: Job)
    requires Journaled(records, journal) && Stores(r, job)
    ensures Journaled(records + [r], journal + [job])
  {
    var rs, js := records + [r], journal + [job];
    forall i | 0 <= i < |js| ensures Stores(rs[i], js[i]) {
      if i < |journal| {
        assert rs[i] == records[i] && js[i] == journal[i];
      }
    }
  }

  lemma NoticesOfOne(js: seq<Job>)
    requires |js| == 1 && js[0].BidJob?
    ensures Notices(js) == [AcceptedNotice(js[0])]
  {
    assert js[1..] == [];
  }

  /** Every job whose write succeeded is read back under its auction id. */
  lemma JournalIsReadable(records: seq<Record>, journal: seq<Job>, j: Job)
    requires Journaled(records, journal) && j in journal
    ensures JobMessage(j) in MessagesFor(records, Target(j))
  {
    var i :| 0 <= i < |journal| && journal[i] == j;
    assert StoredAt(records, i, Target(j), JobMessage(j));
    MessagesForMembership(records, Target(j), JobMessage(j));
  }

  // ---------------------------------------------------------------------------
  // The queue

  /** `Queue`: `items` waits, `current` is the item taken by `shift` whose
      handling is in progress, and `handled` are the items handled so far. */
  class Queue {
    var items: seq<Job>
    var processing: bool
    ghost var submitted: seq<Job>
    ghost var handled: seq<Job>
    ghost var current: seq<Job>

    /** First in, first out, and nothing dropped: the handled items, the one in
        progress and the waiting ones are exactly what was added, in order. */
    ghost predicate Valid()
      reads this
    {
      handled + current + items == submitted && |current| <= 1
    }

    /** At rest: nothing in progress, and every item is of one kind. */
    ghost predicate Typed(kind: Kind)
      reads this
    {
      Valid() && forall j :: j in submitted ==> KindOf(j) == kind
    }

    ghost predicate Holds(kind: Kind)
      reads this
    {
      Typed(kind) && current == []
    }

    constructor ()
      ensures Valid()
      ensures items == [] && !processing
      ensures submitted == [] && handled == [] && current == []
    {
      items := [];
      processing := false;
      submitted := [];
      handled := [];
      current := [];
    }

    /** `items.push`. */
    method Push(job: Job)
      requires Valid()
      modifies this
      ensures Valid()
      ensures items == old(items) + [job] && submitted == old(submitted) + [job]
      ensures processing == old(processing) && handled == old(handled) && current == old(current)
    {
      items := items + [job];
      submitted := submitted + [job];
    }

    /** `items.shift`: the head becomes the item in progress. */
    method Shift() returns (job: Job)
      requires Valid() && items != [] && current == []
      modifies this
      ensures Valid()
      ensures job == old(items[0]) && items == old(items[1..]) && current == [job]
      ensures processing == old(processing) && handled == old(handled) && submitted == old(submitted)
    {
      job := items[0];
      items := items[1..];
      current := [job];
    }

    /** The item in progress was handled. */
    ghost method Done()
      requires Valid() && |current| == 1
      modifies this`handled, this`current
      ensures Valid()
      ensures handled == old(handled) + old(current) && current == []
    {
      handled := handled + current;
      current := [];
    }

    /** `items.unshift`: the item in progress goes back to the head. */
    method Unshift(job: Job)
      requires Valid() && current == [job]
      modifies this
      ensures Valid()
      ensures items == [job] + old(items) && current == []
      ensures processing == old(processing) && handled == old(handled) && submitted == old(submitted)
    {
      items := [job] + items;
      current := [];
    }
  }

  // ---------------------------------------------------------------------------
  // The service

  /** `MessageQueueService`: the store, the three queues and their handlers.
      `journal` lists the jobs whose store write succeeded, in order. */
  class QueueService {
    const store: MessageStore
    const bidQueue: Queue
    const notificationQueue: Queue
    const updateQueue: Queue
    ghost var journal: seq<Job>

    ghost predicate Valid()
      reads this, store, bidQueue, notificationQueue, updateQueue
    {
      && bidQueue != notificationQueue && bidQueue != updateQueue && notificationQueue != updateQueue
      && store.Valid()
      && bidQueue.Holds(BidKind) && notificationQueue.Holds(NoticeKind) && updateQueue.Holds(UpdateKind)
      && Journaled(store.records, journal)
    }

    constructor ()
      ensures Valid()
      ensures !store.ready && store.records == [] && journal == []
      ensures bidQueue.items == [] && notificationQueue.items == [] && updateQueue.items == []
      ensures !bidQueue.processing && !notificationQueue.processing && !updateQueue.processing
      ensures fresh(store) && fresh(bidQueue) && fresh(notificationQueue) && fresh(updateQueue)
    {
      store := new MessageStore();
      bidQueue := new Queue();
      notificationQueue := new Queue();
      updateQueue := new Queue();
      journal := [];
    }

    /** The database open request succeeds. */
    method OpenStore()
      requires Valid()
      modifies store
      ensures Valid() && store.ready && store.records == old(store.records)
    {
      store.Open();
    }

    function QueueKind(q: Queue): Kind
      reads this
    {
      if q == bidQueue then BidKind else if q == notificationQueue then NoticeKind else UpdateKind
    }

    /** `Valid`, except that `job` is in progress on `q`. */
    ghost predicate InFlight(q: Queue, job: Job)
      reads this, store, bidQueue, notificationQueue, updateQueue
    {
      && bidQueue != notificationQueue && bidQueue != updateQueue && notificationQueue != updateQueue
      && (q == bidQueue || q == notificationQueue || q == updateQueue)
      && store.Valid()
      && bidQueue.Typed(BidKind) && notificationQueue.Typed(NoticeKind) && updateQueue.Typed(UpdateKind)
      && q.current == [job] && KindOf(job) == QueueKind(q)
      && (bidQueue != q ==> bidQueue.current == [])
      && (notificationQueue != q ==> notificationQueue.current == [])
      && (updateQueue != q ==> updateQueue.current == [])
      && Journaled(store.records, journal)
    }

    /** `shift`: the head of `q` is taken. */
    method Begin(q: Queue) returns (job: Job)
      requires Valid() && (q == bidQueue || q == notificationQueue || q == updateQueue) && q.items != []
      modifies q
      ensures InFlight(q, job)
      ensures job == old(q.items[0]) && q.items == old(q.items[1..])
      ensures q.submitted == old(q.submitted) && q.processing == old(q.processing) && q.handled == old(q.handled)
    {
      assert q.items[0] in q.submitted by {
        assert q.submitted == q.handled + q.items;
      }
      job := q.Shift();
    }

    /** `unshift`: the item in progress goes back to the head of `q`. */
    method Restore(q: Queue, job: Job)
      requires InFlight(q, job)
      modifies q
      ensures Valid()
      ensures q.items == [job] + old(q.items)
      ensures q.submitted == old(q.submitted) && q.processing == old(q.processing) && q.handled == old(q.handled)
    {
      q.Unshift(job);
    }

    /** The handler's store write for the item in progress, with reading `t`. */
    method Write(q: Queue, job: Job, t: nat) returns (ok: bool)
      requires InFlight(q, job)
      modifies this, store, q
      ensures ok ==> Valid() && journal == old(journal) + [job] && q.handled == old(q.handled) + [job]
      ensures !ok ==> InFlight(q, job) && journal == old(journal) && q.handled == old(q.handled)
      ensures q.items == old(q.items) && q.submitted == old(q.submitted) && q.processing == old(q.processing)
    {
      var err := store.StoreMessage(Target(job), JobMessage(job), t);
      if err.Some? {
        return false;
      }
      JournalStep(old(store.records), journal, store.records[|store.records| - 1], job);
      q.Done();
      journal := journal + [job];
      ok := true;
    }

    /** One turn of `process` on the notification or the update queue: the
        head is taken and written with the reading `clock[k]`; on failure it
        goes back to the head. */
    method Attempt(q: Queue, clock: seq<nat>, k: nat) returns (ok: bool)
      requires Valid() && (q == notificationQueue || q == updateQueue)
      requires q.items != [] && k < |clock|
      modifies this, store, q
      ensures Valid()
      ensures q.submitted == old(q.submitted) && q.processing == old(q.processing)
      ensures ok ==> journal == old(journal) + [old(q.items[0])] && q.items == old(q.items[1..])
      ensures ok ==> !old(q.items[0]).BidJob?
      ensures !ok ==> journal == old(journal) && q.items == old(q.items)
    {
      var job := Begin(q);
      ok := Write(q, job, clock[k]);
      if !ok {
        Restore(q, job);
      }
    }

    /** `process` on the notification or the update queue: take items from the
        head until it is empty, or until the readings run out. */
    method Drain(q: Queue, clock: seq<nat>, k: nat) returns (next: nat)
      requires Valid() && (q == notificationQueue || q == updateQueue) && k <= |clock|
      modifies this, store, q
      ensures Valid()
      ensures k <= next <= |clock|
      ensures q.processing == (q.items != [])
      ensures next < |clock| ==> q.items == []
      ensures q.submitted == old(q.submitted)
      ensures old(journal) <= journal
      ensures forall i :: |old(journal)| <= i < |journal| ==> !journal[i].BidJob?
    {
      next := k;
      while q.items != [] && next < |clock|
        invariant Valid() && k <= next <= |clock|
        invariant q.submitted == old(q.submitted)
        invariant old(journal) <= journal
        invariant forall i :: |old(journal)| <= i < |journal| ==> !journal[i].BidJob?
        decreases |clock| - next
      {
        q.processing := true;
        var ok := Attempt(q, clock, next);
        next := next + 1;
      }
      if q.items == [] {
        q.processing := false;
      } else {
        // The readings ran out with items waiting: the loop is still at work.
        q.processing := true;
      }
    }

    /** One turn of `process` on the bid queue: the head's `new_bid` message is
        written with the reading `clock[k]`; on success a `bid_accepted`
        notification for the same auction and bid is added to the
        notification queue, which is processed unless it already is. */
    method AttemptBid(clock: seq<nat>, k: nat) returns (next: nat, ok: bool)
      requires Valid() && bidQueue.items != [] && k < |clock|
      modifies this, store, bidQueue, notificationQueue
      ensures Valid()
      ensures k < next <= |clock|
      ensures bidQueue.submitted == old(bidQueue.submitted) && bidQueue.processing == old(bidQueue.processing)
      ensures old(journal) <= journal
      ensures ok ==> && old(bidQueue.items[0]).BidJob?
                     && |journal| > |old(journal)| && journal[|old(journal)|] == old(bidQueue.items[0])
                     && bidQueue.items == old(bidQueue.items[1..])
                     && bidQueue.handled == old(bidQueue.handled) + [old(bidQueue.items[0])]
                     && notificationQueue.submitted
                        == old(notificationQueue.submitted) + [AcceptedNotice(old(bidQueue.items[0]))]
      ensures !ok ==> && journal == old(journal) && bidQueue.items == old(bidQueue.items)
                      && bidQueue.handled == old(bidQueue.handled)
                      && notificationQueue.submitted == old(notificationQueue.submitted)
    {
      var job := Begin(bidQueue);
      ok := Write(bidQueue, job, clock[k]);
      next := k + 1;
      if !ok {
        Restore(bidQueue, job);
        return;
      }
      notificationQueue.Push(AcceptedNotice(job));
      if !notificationQueue.processing {
        next := Drain(notificationQueue, clock, next);
      }
    }

    /** `process` on the bid queue. */
    method DrainBids(clock: seq<nat>, k: nat) returns (next: nat)
      requires Valid() && k <= |clock|
      modifies this, store, bidQueue, notificationQueue
      ensures Valid()
      ensures k <= next <= |clock|
      ensures bidQueue.processing == (bidQueue.items != [])
      ensures next < |clock| ==> bidQueue.items == []
      ensures bidQueue.submitted == old(bidQueue.submitted)
      ensures old(journal) <= journal && old(bidQueue.handled) <= bidQueue.handled
      ensures notificationQueue.submitted
           == old(notificationQueue.submitted) + Notices(bidQueue.handled[|old(bidQueue.handled)|..])
    {
      next := k;
      while bidQueue.items != [] && next < |clock|
        invariant Valid() && k <= next <= |clock|
        invariant bidQueue.submitted == old(bidQueue.submitted)
        invariant old(journal) <= journal && old(bidQueue.handled) <= bidQueue.handled
        invariant notificationQueue.submitted
               == old(notificationQueue.submitted) + Notices(bidQueue.handled[|old(bidQueue.handled)|..])
        decreases |clock| - next
      {
        bidQueue.processing := true;
        ghost var before := bidQueue.handled;
        var ok;
        next, ok := AttemptBid(clock, next);
        if ok {
          NoticesOfOne(bidQueue.handled[|before|..]);
          NoticesSplit(old(bidQueue.handled), before, bidQueue.handled);
        }
      }
      if bidQueue.items == [] {
        bidQueue.processing := false;
      } else {
        // The readings ran out with items waiting: the loop is still at work.
        bidQueue.processing := true;
      }
    }

    /** `addBid`: `add` on the bid queue. The item is pushed; unless the queue
        is already processing, it is processed with the readings `clock`, of
        which `used` are consumed. */
    method AddBid(auctionId: string, bid: Bid, clock: seq<nat>) returns (used: nat)
      requires Valid()
      modifies this, store, bidQueue, notificationQueue
      ensures Valid()
      ensures bidQueue.submitted == old(bidQueue.submitted) + [BidJob(auctionId, bid)]
      ensures old(journal) <= journal && used <= |clock|
      ensures old(bidQueue.processing) ==>
        && bidQueue.items == old(bidQueue.items) + [BidJob(auctionId, bid)]
        && used == 0 && journal == old(journal) && store.records == old(store.records)
        && unchanged(notificationQueue)
      ensures !old(bidQueue.processing) ==>
        && bidQueue.processing == (bidQueue.items != [])
        && (used < |clock| ==> bidQueue.items == [])
        && old(bidQueue.handled) <= bidQueue.handled
        && notificationQueue.submitted
           == old(notificationQueue.submitted) + Notices(bidQueue.handled[|old(bidQueue.handled)|..])
    {
      bidQueue.Push(BidJob(auctionId, bid));
      used := 0;
      if !bidQueue.processing {
        used := DrainBids(clock, 0);
      }
    }

    /** `addNotification`: `add` on the notification queue. */
    method AddNotification(message: Message, clock: seq<nat>) returns (used: nat)
      requires Valid()
      modifies this, store, notificationQueue
      ensures Valid()
      ensures notificationQueue.submitted == old(notificationQueue.submitted) + [NoticeJob(message)]
      ensures old(journal) <= journal && used <= |clock|
      ensures old(notificationQueue.processing) ==>
        && notificationQueue.items == old(notificationQueue.items) + [NoticeJob(message)]
        && used == 0 && journal == old(journal) && store.records == old(store.records)
      ensures !old(notificationQueue.processing) ==>
        && notificationQueue.processing == (notificationQueue.items != [])
        && (used < |clock| ==> notificationQueue.items == [])
    {
      notificationQueue.Push(NoticeJob(message));
      used := 0;
      if !notificationQueue.processing {
        used := Drain(notificationQueue, clock, 0);
      }
    }

    /** `addAuctionUpdate`: `add` on the auction update queue. */
    method AddAuctionUpdate(auctionId: string, update: Auction, clock: seq<nat>) returns (used: nat)
      requires Valid()
      modifies this, store, updateQueue
      ensures Valid()
      ensures updateQueue.submitted == old(updateQueue.submitted) + [UpdateJob(auctionId, update)]
      ensures old(journal) <= journal && used <= |clock|
      ensures old(updateQueue.processing) ==>
        && updateQueue.items == old(updateQueue.items) + [UpdateJob(auctionId, update)]
        && used == 0 && journal == old(journal) && store.records == old(store.records)
      ensures !old(updateQueue.processing) ==>
        && updateQueue.processing == (updateQueue.items != [])
        && (used < |clock| ==> updateQueue.items == [])
    {
      updateQueue.Push(UpdateJob(auctionId, update));
      used := 0;
      if !updateQueue.processing {
        used := Drain(updateQueue, clock, 0);
      }
    }

    /** `getAuctionMessages`. */
    method GetAuctionMessages(auctionId: string) returns (r: Result<seq<Message>>)
      ensures !store.ready ==> r == Fail(NotInitialized)
      ensures store.ready ==> r == Ok(MessagesFor(store.records, auctionId))
    {
      r := store.GetMessages(auctionId);
    }
  }
}
