# Real-time auction: a verified model

This project models the logic of a real-time auction system in Dafny and proves properties of that model. The system has two parts:

- A WebSocket server. It keeps an in-memory registry of auctions. It admits a bid only when the bid beats the current price and a simulated three-acceptor majority accepts it. It then broadcasts each outcome to the open clients.
- A browser client. It has:
  - the auction store: status derivation, filtering, the reducers for server messages, `placeBid` and `createAuction`;
  - a job queue backed by an append-only message store;
  - a WebSocket session with an offline send buffer and exponential reconnect backoff;
  - the notification list;
  - the page-level validators and selectors: bid form, create-auction form, registration form, home page URL filters and sections, filter panel, profile lists, countdown and bid history.

One Dafny module models each source file. `Types` mirrors the shared record types. `Text` holds the string helpers: decimal text, `parseInt`, trim, lower-casing and substring search. `Seqs` holds filtering, subsequences and a stable sort.

The form of each module follows its source:

- **Registry** (`backend/src/auction.js`) is a class. Its methods update a map of auctions and an output log. `HandleMessage` is proved against the pure functions `NextRegistry` and `Responses`. The price invariant is proved over any sequence of messages.
- **MessageQueue** is made of classes.
  - `Queue` keeps a FIFO `items` sequence and a `processing` flag.
  - `MessageStore` is an append-only record list.
  - `QueueService` owns the store and the three queues. It runs each queue's processing loop.
  - Every `Date.now()` reading is taken from a `clock` sequence passed in. That sequence also bounds the loop that retries a failing job.
- **Session** (`WebSocketContext.tsx`) is a class whose fields mirror the context's refs and state. Each callback is proved to step its state as the pure machine `Next` over `Conn` and `Event` does. The lemmas about buffering and backoff are stated on that machine.
- **AuctionView** (`AuctionContext.tsx`) is mixed. Status derivation, the filter pipeline and the reducers are functions. `AuctionStore` is a class whose `PlaceBid` and `CreateAuction` replace its auctions list.
- The rest are pure: **Notifications**, **BidForm**, **CreateForm**, **RegisterForm**, **HomeSections**, **FilterPanel**, **Profile**, **Countdown** and **BidHistory**.

The two places that admit bids are modelled as written.

- The server checks only `amount > currentPrice`.
- The client also demands `amount >= currentPrice + minBidIncrement`.

`AuctionView.ClientStricterThanServer` exhibits a bid that the server accepts but the client refuses.

## Model

| member | source | states |
|---|---|---|
| Registry.Accepts | backend/src/auction.js:15-19 | the count of accepting votes is at most the number of votes |
| Registry.AcceptsSnoc | backend/src/auction.js:17-19 | one more vote adds one to the count exactly when it accepts |
| Registry.ConsensusSimulate | backend/src/auction.js:14-21 | the counting loop over three votes answers true exactly when at least two accept |
| Registry.GateIsTwoOfThree | backend/src/auction.js:14-21 | the gate accepts exactly when some two of the three votes accept |
| Registry.Fanout | backend/src/auction.js:5-11 | a broadcast sends at most one delivery per client, each carrying the broadcast message |
| Registry.FanoutSnoc | backend/src/auction.js:6-10 | one more client adds one delivery exactly when its ready state is open |
| Registry.FanoutExactlyOnce | backend/src/auction.js:5-11 | with distinct client ids, each open client receives the message exactly once and no other client receives it |
| Registry.Created | backend/src/auction.js:29-36 | a created auction is price-consistent: no bids and price equal to the starting price |
| Registry.CommitKeepsConsistency | backend/src/auction.js:56-86 | prepending a bid above the current price and raising the price to it keeps bids strictly decreasing from newest, with the price equal to the newest bid |
| Registry.PriceIsHighestBid | backend/src/auction.js:30-86 | in a consistent auction no bid exceeds the current price, and the price is at least the starting price |
| Registry.NextKeepsConsistency | backend/src/auction.js:28-118 | handling any one message keeps every auction in the registry consistent |
| Registry.RunKeepsConsistency | backend/src/auction.js:24-119 | over any sequence of messages every auction stays consistent |
| Registry.CreateEffect | backend/src/auction.js:29-41 | `create_auction` stores the auction with price equal to its starting price and no bids, overwrites an entry with the same id, keeps every other entry, and broadcasts `auction_created` |
| Registry.UnknownAuctionEffect | backend/src/auction.js:46-53 | a bid on an unknown auction leaves the registry unchanged and sends one error to the sender only |
| Registry.TooLowEffect | backend/src/auction.js:56-63 | a bid not above the current price leaves the registry unchanged whatever the votes, and sends one error to the sender |
| Registry.GateRejectEffect | backend/src/auction.js:65-76 | a gate rejection leaves the registry unchanged and broadcasts `bid_rejected` with the bid marked rejected |
| Registry.AcceptEffect | backend/src/auction.js:79-97 | acceptance prepends the bid, stamped and marked accepted, raises the price to its amount, grows the bid count by one, changes no other auction, and broadcasts `bid_accepted` with the new head bid |
| Registry.QueryAndErrorEffect | backend/src/auction.js:100-118 | `get_auctions`, an unknown type and an unparsable message leave the registry unchanged and answer the sender alone |
| Registry.OneEventPerMessage | backend/src/auction.js:28-118 | every message yields exactly one event: a single reply to the sender, or one broadcast |
| Registry.AuctionServer.constructor | backend/src/auction.js:2 | the server starts with no auctions, no clients and an empty output log |
| Registry.AuctionServer.Join | backend/src/auction.js:23-24 | a joining client is added as open; the registry is untouched |
| Registry.AuctionServer.SetReadyState | backend/src/auction.js:7 | only the named client's ready state changes |
| Registry.AuctionServer.Send | backend/src/auction.js:47-52 | a reply appends one delivery to the sender |
| Registry.AuctionServer.Broadcast | backend/src/auction.js:5-11 | the loop over clients appends exactly the fanout of the message to the log |
| Registry.AuctionServer.HandleMessage | backend/src/auction.js:24-119 | handling a message leaves the registry as `NextRegistry` gives and appends the `Responses` to the log; the clients are unchanged |
| MessageQueue.TrailingDigits | project/src/services/MessageQueueService.ts:50 | the length of a key's numeric suffix is at most the key's length |
| MessageQueue.TrailingDigitsOfKey | project/src/services/MessageQueueService.ts:50 | a key `id-digits` ends in exactly those digits |
| MessageQueue.RecordKeyInjective | project/src/services/MessageQueueService.ts:49-54 | equal record keys `auctionId-timestamp` come from equal auction ids and timestamps |
| MessageQueue.MessagesFor | project/src/services/MessageQueueService.ts:73-77 | the messages read back for an auction are no more than the records |
| MessageQueue.MessagesForMembership | project/src/services/MessageQueueService.ts:73-77 | a message is read back for an auction exactly when some record stores it under that auction id |
| MessageQueue.MessagesForSnoc | project/src/services/MessageQueueService.ts:56-77 | appending a record adds its message to the read-back exactly when it is for that auction, in store order |
| MessageQueue.MessageStore.constructor | project/src/services/MessageQueueService.ts:10-12 | the store starts uninitialised and empty |
| MessageQueue.MessageStore.Open | project/src/services/MessageQueueService.ts:35-37 | opening the database makes the store ready |
| MessageQueue.MessageStore.StoreMessage | project/src/services/MessageQueueService.ts:40-61 | an uninitialised store fails with "Database not initialized"; a key already present fails with a constraint error; otherwise exactly one record keyed `auctionId-now` is appended |
| MessageQueue.MessageStore.GetMessages | project/src/services/MessageQueueService.ts:63-82 | an uninitialised store fails; otherwise the payloads of the records for that auction, in store order |
| MessageQueue.AcceptedNotice | project/src/services/MessageQueueService.ts:155-161 | the follow-up of a bid job is a `bid_accepted` notification carrying the same auction id and bid |
| MessageQueue.Notices | project/src/services/MessageQueueService.ts:148-162 | the follow-up notifications are no more than the jobs |
| MessageQueue.NoticesAppend | project/src/services/MessageQueueService.ts:148-162 | the follow-ups of two job runs are the follow-ups of each, in order |
| MessageQueue.NoticesSplit | project/src/services/MessageQueueService.ts:148-162 | follow-ups of successive journal segments concatenate |
| MessageQueue.JournalStep | project/src/services/MessageQueueService.ts:40-181 | storing a job's message extends the store in step with the journal of handled jobs |
| MessageQueue.NoticesOfOne | project/src/services/MessageQueueService.ts:148-162 | one bid job yields exactly one `bid_accepted` follow-up |
| MessageQueue.JournalIsReadable | project/src/services/MessageQueueService.ts:63-181 | every handled job's message can be read back under its target id |
| MessageQueue.Queue.constructor | project/src/services/MessageQueueService.ts:86-88 | a queue starts empty and not processing |
| MessageQueue.Queue.Push | project/src/services/MessageQueueService.ts:91 | `add` appends the item at the tail and changes nothing else |
| MessageQueue.Queue.Shift | project/src/services/MessageQueueService.ts:104 | `process` takes the item at the head |
| MessageQueue.Queue.Unshift | project/src/services/MessageQueueService.ts:108-112 | a failing item is put back at the head, before every later item |
| MessageQueue.QueueService.constructor | project/src/services/MessageQueueService.ts:131-137 | the service starts with an uninitialised store and three idle, empty queues |
| MessageQueue.QueueService.OpenStore | project/src/services/MessageQueueService.ts:35-37 | opening the store keeps its records |
| MessageQueue.QueueService.Begin | project/src/services/MessageQueueService.ts:103-104 | processing takes the head item of the queue and marks it in flight |
| MessageQueue.QueueService.Restore | project/src/services/MessageQueueService.ts:108-112 | a failed item goes back to the head of its queue and nothing is lost |
| MessageQueue.QueueService.Write | project/src/services/MessageQueueService.ts:40-181 | a successful store journals the job and counts it handled; a failure leaves it in flight and the journal unchanged |
| MessageQueue.QueueService.Attempt | project/src/services/MessageQueueService.ts:103-180 | a notification or update job either is handled and leaves the head, or fails and stays at the head |
| MessageQueue.QueueService.Drain | project/src/services/MessageQueueService.ts:97-116 | the loop stops processing exactly when the queue is empty; unless the clock runs out the queue is emptied; the journal only grows |
| MessageQueue.QueueService.AttemptBid | project/src/services/MessageQueueService.ts:148-162 | a handled bid job stores its `new_bid` message and then submits a `bid_accepted` notification with the same payload |
| MessageQueue.QueueService.DrainBids | project/src/services/MessageQueueService.ts:97-162 | the bid loop stops processing exactly when the queue is empty; handled jobs and the journal only grow |
| MessageQueue.QueueService.AddBid | project/src/services/MessageQueueService.ts:90-185 | the bid job is submitted at the tail; while processing it is only enqueued and no second loop starts; otherwise the loop runs until the queue is empty |
| MessageQueue.QueueService.AddNotification | project/src/services/MessageQueueService.ts:90-189 | the same for a notification job |
| MessageQueue.QueueService.AddAuctionUpdate | project/src/services/MessageQueueService.ts:90-193 | the same for an auction-update job |
| MessageQueue.QueueService.GetAuctionMessages | project/src/services/MessageQueueService.ts:195-197 | the stored messages for an auction, or the uninitialised error |
| Session.Pow2 | project/src/contexts/WebSocketContext.tsx:70 | a power of two is at least one |
| Session.BackoffSchedule | project/src/contexts/WebSocketContext.tsx:35-75 | the delays are 1000, 2000, 4000, 8000 and 16000 ms, each double the previous; from five attempts on no reconnect is scheduled |
| Session.NextKeepsCoherent | project/src/contexts/WebSocketContext.tsx:38-140 | every callback keeps the session coherent: connected only with a socket, an in-progress connect only without one |
| Session.RunKeepsCoherent | project/src/contexts/WebSocketContext.tsx:38-140 | any sequence of callbacks keeps the session coherent |
| Session.ConnectGuard | project/src/contexts/WebSocketContext.tsx:38-106 | `connect` changes nothing exactly when a socket exists, a connect is in progress, the user is signed out, or it fails again with the same error |
| Session.SendsOffline | project/src/contexts/WebSocketContext.tsx:117-122 | one send event per message |
| Session.OfflineSendsAreBuffered | project/src/contexts/WebSocketContext.tsx:117-122 | sends while disconnected append the messages to the buffer in send order, change nothing else, and set the not-connected error |
| Session.OfflineSendsFlushOnOpen | project/src/contexts/WebSocketContext.tsx:47-122 | on open every buffered message is sent in buffer order, the buffer empties, attempts reset to zero and the session is connected |
| Session.RunAppend | project/src/contexts/WebSocketContext.tsx:38-140 | running two callback sequences is running one after the other |
| Session.CloseSchedulesBackoff | project/src/contexts/WebSocketContext.tsx:63-76 | a close clears the socket and the connected flag and, below five attempts, schedules one reconnect after `1000·2^attempts` ms |
| Session.DisconnectThenCloseReconnects | project/src/contexts/WebSocketContext.tsx:63-115 | a disconnect followed by the socket's close event still schedules a reconnect |
| Session.ManualDisconnectStaysDown | project/src/contexts/WebSocketContext.tsx:63-76 | with the close handler the comment at line 68 describes, a manual disconnect's close schedules no reconnect, where the handler as written schedules one; every other close is handled as written |
| Session.RetryStopsAfterUnopenedClose | project/src/contexts/WebSocketContext.tsx:38-76 | under the reading where each callback sees the current state (not the closure captured when the socket was made), a retry whose socket closes without opening leaves `connecting` set, so the next retry is refused by the guard and retrying stops after two delays |
| Session.ReconnectResetsAttempts | project/src/contexts/WebSocketContext.tsx:136-140 | `reconnect` drops the socket, resets attempts to zero and then connects |
| Session.WebSocketSession.constructor | project/src/contexts/WebSocketContext.tsx:27-32 | a session starts with no socket, an empty buffer and zero attempts |
| Session.WebSocketSession.Connect | project/src/contexts/WebSocketContext.tsx:38-106 | the connect call steps the state as the session machine does |
| Session.WebSocketSession.OnOpen | project/src/contexts/WebSocketContext.tsx:47-61 | the flush loop sends the buffer in order and steps the state as the machine does |
| Session.WebSocketSession.OnClose | project/src/contexts/WebSocketContext.tsx:63-76 | the close callback steps the state as the machine does |
| Session.WebSocketSession.OnTimer | project/src/contexts/WebSocketContext.tsx:71-73 | a fired reconnect timer steps the state as the machine does |
| Session.WebSocketSession.OnError | project/src/contexts/WebSocketContext.tsx:78-82 | the error callback records the connection error |
| Session.WebSocketSession.Send | project/src/contexts/WebSocketContext.tsx:117-134 | `send` transmits when connected and buffers otherwise or on failure, as the machine does |
| Session.WebSocketSession.Disconnect | project/src/contexts/WebSocketContext.tsx:109-115 | `disconnect` clears the socket and the connected flag |
| Session.WebSocketSession.Reconnect | project/src/contexts/WebSocketContext.tsx:136-140 | `reconnect` steps the state as the machine does |
| Session.WebSocketSession.OnMessage | project/src/contexts/WebSocketContext.tsx:84-101 | a parsed message of a forwarded kind is submitted to the notification queue; nothing else is |
| AuctionView.DeriveStatusCases | project/src/contexts/AuctionContext.tsx:53-96 | upcoming exactly before the start, active exactly from the start until before the end, ended exactly when both have passed |
| AuctionView.StatusNeverGoesBack | project/src/contexts/AuctionContext.tsx:89-96 | as time passes the derived status only moves forward |
| AuctionView.Fetched | project/src/contexts/AuctionContext.tsx:53-68 | loading keeps every auction, one for one |
| AuctionView.RefreshAll | project/src/contexts/AuctionContext.tsx:85-98 | the refresh keeps every auction, one for one |
| AuctionView.RefreshIsDerivedStatus | project/src/contexts/AuctionContext.tsx:85-98 | a refreshed auction differs only in its status, and is the same auction exactly when its status is already the derived one |
| AuctionView.RefreshAgreesWithFetch | project/src/contexts/AuctionContext.tsx:53-98 | the refresh gives the statuses the load gives, and refreshing twice at the same time equals refreshing once |
| AuctionView.ApplyFiltersIsOneFilter | project/src/contexts/AuctionContext.tsx:107-136 | the step-by-step filter pipeline equals one filter by the conjunction of every present criterion |
| AuctionView.FilteredListSpec | project/src/contexts/AuctionContext.tsx:107-136 | the filtered list is an order-preserving subsequence holding exactly the auctions that meet every present criterion, with inclusive price bounds |
| AuctionView.SearchHitIff | project/src/contexts/AuctionContext.tsx:126-133 | the search keeps an auction exactly when the lower-cased query occurs in its lower-cased title or description |
| AuctionView.ApplyNewBid | project/src/contexts/AuctionContext.tsx:146-166 | the `new_bid` reducer keeps the list's length |
| AuctionView.SetBidStatus | project/src/contexts/AuctionContext.tsx:167-182 | the bid-status reducer keeps the list's length |
| AuctionView.ApplyAuctionUpdate | project/src/contexts/AuctionContext.tsx:183-190 | the update reducer keeps the list's length |
| AuctionView.NewBidEffect | project/src/contexts/AuctionContext.tsx:146-166 | `new_bid` changes only auctions with the matching id: the bid is prepended, the price becomes its amount and the bidder becomes the highest bidder |
| AuctionView.BidStatusEffect | project/src/contexts/AuctionContext.tsx:167-182 | `bid_accepted` and `bid_rejected` change only the status of the bid with the matching id; prices, bid order and other auctions are unchanged |
| AuctionView.SetBidStatusIdempotent | project/src/contexts/AuctionContext.tsx:167-182 | applying the same status message twice equals applying it once |
| AuctionView.NewBidThenStatus | project/src/contexts/AuctionContext.tsx:146-182 | a bid followed by its status message leaves that bid at the head with the new status and the price at its amount |
| AuctionView.Ids | project/src/contexts/AuctionContext.tsx:144-193 | one id per auction |
| AuctionView.ReduceKeepsIds | project/src/contexts/AuctionContext.tsx:144-193 | no server message adds, removes or reorders auctions |
| AuctionView.AuctionUpdateEffect | project/src/contexts/AuctionContext.tsx:183-190 | `auction_update` replaces exactly the auctions with the updated id |
| AuctionView.Find | project/src/contexts/AuctionContext.tsx:204-206 | `getAuction` finds nothing exactly when no auction has the id, and otherwise the first one that has it |
| AuctionView.CreationStatusAgrees | project/src/contexts/AuctionContext.tsx:219-224 | the status chosen at creation differs from the derived status exactly when the end is not after now and the start is after now |
| AuctionView.NewAuction | project/src/contexts/AuctionContext.tsx:208-235 | a created auction has id `auction-<uuid>`, price equal to its starting price, no bids and no views; the rest is the draft |
| AuctionView.PlaceBidAdmits | project/src/contexts/AuctionContext.tsx:251-273 | `placeBid` passes its checks exactly when the auction exists, is active, the amount beats the price and meets the minimum increment, and a user is stored |
| AuctionView.ClientStricterThanServer | project/src/contexts/AuctionContext.tsx:261-267 | one above the current price fails the client's increment check whenever the increment exceeds one, while the server holding the same auction commits that bid once the gate accepts: the price becomes the bid and the bid heads the list, stamped and accepted |
| AuctionView.PendingBid | project/src/contexts/AuctionContext.tsx:278-285 | the new bid has id `bid-<uuid>`, is pending, and carries the amount, the user and the time |
| AuctionView.AuctionStore.constructor | project/src/contexts/AuctionContext.tsx:35-39 | the store starts empty, loading, with no filters and no error |
| AuctionView.AuctionStore.Load | project/src/contexts/AuctionContext.tsx:53-68 | loading sets the auctions with derived statuses and clears loading and the error |
| AuctionView.AuctionStore.Tick | project/src/contexts/AuctionContext.tsx:85-98 | the periodic refresh replaces the auctions with their refreshed form |
| AuctionView.AuctionStore.SetFilters | project/src/contexts/AuctionContext.tsx:107-136 | the filters are replaced |
| AuctionView.AuctionStore.Receive | project/src/contexts/AuctionContext.tsx:144-193 | a server message replaces the auctions by the reducer's result |
| AuctionView.AuctionStore.CreateAuction | project/src/contexts/AuctionContext.tsx:208-245 | the created auction is appended at the end and returned |
| AuctionView.AuctionStore.PlaceBid | project/src/contexts/AuctionContext.tsx:247-311 | it succeeds exactly when the checks pass; on failure auctions and queue are unchanged and the error is the first failing check; on success the pending bid is submitted to the bid queue and prepended to its auction |
| Notifications.Add | project/src/contexts/NotificationContext.tsx:84-100 | one unread notification is prepended and the old list follows unchanged |
| Notifications.MarkAsRead | project/src/contexts/NotificationContext.tsx:102-110 | the length is kept |
| Notifications.MarkAllAsRead | project/src/contexts/NotificationContext.tsx:112-116 | the length is kept |
| Notifications.Clear | project/src/contexts/NotificationContext.tsx:118-120 | the list becomes empty |
| Notifications.UnreadCountIsZeroIffAllRead | project/src/contexts/NotificationContext.tsx:36 | the unread count is zero exactly when every notification is read |
| Notifications.AddCountsOneMore | project/src/contexts/NotificationContext.tsx:36-92 | adding grows both the length and the unread count by one |
| Notifications.MarkAsReadEffect | project/src/contexts/NotificationContext.tsx:102-110 | only entries with the id are marked read; everything else is unchanged |
| Notifications.MarkAsReadIdempotent | project/src/contexts/NotificationContext.tsx:102-110 | marking the same id twice equals marking it once |
| Notifications.MarkAsReadCount | project/src/contexts/NotificationContext.tsx:36-110 | the unread count drops by exactly the number of unread entries with that id |
| Notifications.MarkAllAsReadEffect | project/src/contexts/NotificationContext.tsx:112-116 | every entry is marked read in place, the unread count becomes zero, and marking all again changes nothing |
| Notifications.MessageFilter | project/src/contexts/NotificationContext.tsx:40-75 | a message adds a notification exactly when it is a notification for this user or a bid by someone else; the new one is unread and for the user |
| BidForm.SanitizeSpec | project/src/components/auction/BidForm.tsx:34-39 | the cleaned amount is a subsequence of the input holding exactly its digits and dots, and cleaning again changes nothing |
| BidForm.ValidateBidSpec | project/src/components/auction/BidForm.tsx:41-60 | a bid is valid exactly when it parses, beats the price and meets the increment; the too-low error comes before the increment error |
| BidForm.SuggestionIsValid | project/src/components/auction/BidForm.tsx:21-24 | the suggested amount reads back as the price plus the increment, and it is valid exactly when the increment is positive |
| BidForm.SubmitGuards | project/src/components/auction/BidForm.tsx:62-98 | signed-out and inactive cases are refused before validation, and `placeBid` is called exactly when both guards and validation pass |
| BidForm.SubmitAgreesWithStore | project/src/components/auction/BidForm.tsx:62-98 | an amount the form submits passes the store's own checks |
| BidForm.AfterPlaceBidSpec | project/src/components/auction/BidForm.tsx:85-91 | success resets the amount to the new suggestion; failure shows the store's error or the default message |
| BidForm.IncrementSpec | project/src/components/auction/BidForm.tsx:100-104 | an unparsable or zero amount steps from the current price; a valid amount steps by the increment and stays valid |
| CreateForm.StepPriceSpec | project/src/pages/CreateAuctionPage.tsx:57-72 | increment adds the field's step; decrement never goes below its minimum and subtracts the step when it can; only the named field changes |
| CreateForm.StepRoundTrip | project/src/pages/CreateAuctionPage.tsx:57-72 | from at least the minimum, increment then decrement restores the form |
| CreateForm.TypedPriceConcatenates | project/src/pages/CreateAuctionPage.tsx:47-65 | a starting price typed as "120" is turned into "12050" by the increment, where 170 is meant |
| CreateForm.TextErrorSpec | project/src/pages/CreateAuctionPage.tsx:75-98 | title and description pass exactly when each has a non-space character and is at least 10 or 30 long, and a category is chosen; an all-space title reports the missing title |
| CreateForm.DateErrorSpec | project/src/pages/CreateAuctionPage.tsx:111-142 | the dates pass exactly when a start and an end are set, a scheduled start is not in the past, and the end is at least an hour after the start |
| CreateForm.ValidateFormSpec | project/src/pages/CreateAuctionPage.tsx:74-145 | the form is valid exactly when the text, price and date checks all pass, the first failure being the one reported |
| CreateForm.SubmissionCreates | project/src/pages/CreateAuctionPage.tsx:147-180 | a submission happens exactly when the form is valid, and the created auction runs at least an hour, starts at the starting price and belongs to the seller |
| RegisterForm.FindFrom | project/src/pages/RegisterPage.tsx:31-34 | the first position at or after k holding the character, or none |
| RegisterForm.FindLastBelow | project/src/pages/RegisterPage.tsx:31-34 | the last position below k holding the character, or none |
| RegisterForm.EmailMatchesIff | project/src/pages/RegisterPage.tsx:31-34 | the matcher accepts exactly the texts with no whitespace, a non-empty part before an `@`, and a dot after it with non-empty text on both sides |
| RegisterForm.ValidateSpec | project/src/pages/RegisterPage.tsx:20-47 | the form is valid exactly when all five checks pass; the email and mismatch errors are reported exactly when earlier checks pass and theirs fails |
| RegisterForm.EmailExamples | project/src/pages/RegisterPage.tsx:31-34 | "a@b.c" matches; "a@b.", "@b.c" and "a b@c.d" do not |
| HomeSections.PriceParamOfText | project/src/pages/HomePage.tsx:31-37 | a written price reads back as itself, except 0, which reads back as no bound |
| HomeSections.ToQuerySpec | project/src/pages/HomePage.tsx:45-69 | the query holds the non-empty text fields and every defined price, under their own names, and nothing else |
| HomeSections.QueryRoundTrip | project/src/pages/HomePage.tsx:16-69 | writing normal filters to the URL and reading them back restores them; empty filters write nothing and are then left alone |
| HomeSections.ZeroPriceIsLost | project/src/pages/HomePage.tsx:31-62 | a minimum price of 0 is written but read back as no bound |
| HomeSections.EndingSoonSpec | project/src/pages/HomePage.tsx:75-84 | exactly min(4, candidates) active auctions ending within a day, soonest first, each taken from the candidates with no more copies than they hold; no candidate left out ends sooner than one shown |
| HomeSections.TakeIsSubmultiset | project/src/pages/HomePage.tsx:84 | `slice(0, 4)` keeps min(4, length) elements, all from the list |
| HomeSections.FeaturedSpec | project/src/pages/HomePage.tsx:89-92 | exactly min(4, active auctions) active auctions, most bids first, each taken from the candidates with no more copies than they hold; no active auction left out has more bids than one shown |
| HomeSections.UpdateSectionsSpec | project/src/pages/HomePage.tsx:72-96 | an empty filtered list leaves both sections unchanged; otherwise both are drawn from it |
| FilterPanel.EditSpec | project/src/components/auction/AuctionFilters.tsx:23-37 | an edit of one of the four inputs (category, status, minimum and maximum price; the panel has no search input) changes only that field; empty input clears it, a typed price reads back as its number and other input is kept raw |
| FilterPanel.RemoveChipSpec | project/src/components/auction/AuctionFilters.tsx:186-249 | removing a chip unsets exactly that field and keeps every other field and chip |
| FilterPanel.RemovingWidens | project/src/components/auction/AuctionFilters.tsx:39-249 | removing a criterion keeps every auction shown before, and clearing shows every auction |
| Profile.AnyBidBy | project/src/pages/ProfilePage.tsx:31-33 | true exactly when some bid is by the user |
| Profile.UserListsSpec | project/src/pages/ProfilePage.tsx:25-58 | the bids, selling, won and watching lists hold exactly the auctions the user bid on, sells, won or watches, each in the order of the auction list |
| Profile.UserListsKept | project/src/pages/ProfilePage.tsx:29 | without a user or auctions the lists stay as they were |
| Countdown.SplitSpec | project/src/components/auction/AuctionCountdown.tsx:46-49 | hours below 24, minutes and seconds below 60, and the units add up to the whole seconds left |
| Countdown.TickSpec | project/src/components/auction/AuctionCountdown.tsx:21-52 | ended or past the target shows zeros; otherwise the units add up to the seconds left to the start of an upcoming auction or the end of another; ending soon exactly when active with at most five minutes left; `onEnd` fires exactly when an active auction has reached its end |
| Countdown.DecimalLength | project/src/components/auction/AuctionCountdown.tsx:64 | a number has one digit exactly when it is below ten |
| Countdown.FormatUnitSpec | project/src/components/auction/AuctionCountdown.tsx:64 | a single digit gets a leading zero; two or more digits are unchanged |
| Countdown.TwoDigits | project/src/components/auction/AuctionCountdown.tsx:64-82 | every hour, minute or second unit is shown with two digits |
| Countdown.ShownSpec | project/src/components/auction/AuctionCountdown.tsx:76-83 | days are shown only when at least a day is left; the three other units are always shown, two digits each |
| BidHistory.OneIconPerStatus | project/src/components/auction/BidHistory.tsx:61-71 | each status gets exactly one icon, a distinct one |
| BidHistory.Render | project/src/components/auction/BidHistory.tsx:12-19 | the placeholder exactly when there are no bids, otherwise one entry per bid in order |
| BidHistory.EntrySpec | project/src/components/auction/BidHistory.tsx:24-71 | the oldest entry counts as an increase and any other exactly when it beats the next older bid; only the first is labelled highest; an entry is the user's exactly when its bidder is the current user |
| BidHistory.ServerHistoryOnlyRises | project/src/components/auction/BidHistory.tsx:24-25 | for a bid list the server keeps, every entry shows an increase |
| Text.ParseIntOfIntToString | project/src/pages/HomePage.tsx:31-37 | `parseInt` of an integer's decimal text gives the integer back |
| Text.IncludesIff | project/src/contexts/AuctionContext.tsx:126-133 | `includes` holds exactly when the needle occurs in the text |
| Text.BlankIffAllSpace | project/src/pages/CreateAuctionPage.tsx:75-78 | `trim` gives the empty text exactly when every character is white space |
| Seqs.SortBy | project/src/pages/HomePage.tsx:80-92 | sorting keeps the length and the elements and orders them by key |
| Seqs.TakeOfSortedIsSmallest | project/src/pages/HomePage.tsx:80-92 | the first k of a sorted list are no larger than any element left out |

## Left out

- The WebSocket transport, the ws server and the Express and Redis wiring in `backend/src/index.js` are not part of this model. Sends and broadcasts are appends to an output log.
- The random votes of `consensusSimulate` are inputs. So are uuids, the stored user, the current time and the parsed form of every incoming JSON message.
- IndexedDB is modelled as an append-only record list. It is read back in insertion order, which stands for the order of `getAll`. `getAll` returns records in key order, and the key `auctionId-timestamp` compares as text. For one auction that is insertion order only while the clock readings increase and all have the same number of digits; the model's `clock` readings are not constrained that way.
- Async interleaving, React effects and stale closures are not modelled. Each callback or handler is one atomic step that reads the current state. Timers are recorded as scheduled delays, and a fired timer is an event. The members below differ from the source under that reading.
- `Date.now()` is read twice when a record is stored. The model uses one reading for both the key and the timestamp.
- Amounts and times are integers. `parseFloat` and date-string parsing are inputs. `toFixed`, `toLocaleString`, `toISOString` and `createdAt` are left out.
- JavaScript string length counts UTF-16 code units; the model counts characters.
- Reference identity is modelled as value equality. The refresh returning "the same object" is modelled as an equal auction.
- `await placeBid` is taken to complete, and the `readyState === OPEN` test inside `onopen` is taken to hold.
- The browser Notification API, the JSON text that `send` produces and the console logging are not modelled.
- The watch list on the profile page is the constant the page declares.
- Session.WebSocketSession.OnMessage: states which messages reach the notification queue, but not how that queue's processing then ends.
- FilterPanel.EditSpec: a price typed so that `parseInt` gives NaN (".5", say) is modelled as no bound, so every auction is shown. The source stores the NaN bound instead: `currentPrice >= NaN` is false, so no auction is shown, and a "$NaN" chip appears while the input box looks empty.
- AuctionView.SearchHitIff: lower-casing covers the ASCII letters only. `toLowerCase` folds every Unicode letter, so a search for "É" finds "é" in the source but not in the model.
- CreateForm.SubmissionCreates: one clock reading serves validation, the start time and the status. The source validates against one `new Date()`, takes an immediate start from a second one, and `createAuction` reads the clock a third time after its 800 ms wait. So an auction that starts "now" runs one hour minus the gap between the first two readings, not a full hour, and its status is chosen at the third reading.
- Session.RetryStopsAfterUnopenedClose: holds only under the reading where each callback sees the current state. In the source the socket's close handler and its timer belong to the `connect` that created the socket. That closure captured `socket`, `connecting` and `reconnectAttempts` when it was made. Each retry calls that same closure again, so its guard passes, and its new socket's close handler reads the same stale `reconnectAttempts`. The increment the timer makes never reaches it. While the socket keeps failing to open, retries therefore never stop and the delay never grows: a chain begun at zero attempts retries every 1000 ms.
- Session.ReconnectResetsAttempts: `reconnect` calls `connect` in the same render as `disconnect`, so the guard of `connect` still sees the socket and returns. While a socket is held, the source starts no new connection; the model connects.
- Session.OfflineSendsFlushOnOpen: `onopen` sends the buffer captured when `connect` was made and then clears the whole buffer. Messages buffered after that render are dropped unsent in the source; the model sends them.
- BidForm.AfterPlaceBidSpec: the model's `storeError` stands for the store's error as `placeBid` leaves it. The source's failure branch reads the `error` captured by the render that ran the submit. So the message `placeBid` sets on that failure is not shown: the source shows the error from before the submit, or the fallback text when there was none, where the model shows the new error.
- CreateForm.SubmissionCreates: prices are integers in the model. A price typed into the form stays text, is passed to `createAuction` as text and becomes the auction's `currentPrice`. Then `currentPrice + minBidIncrement` concatenates in `placeBid` and in the bid form's suggestion: with "120" and 10 the minimum reads "12010", so a bid of 130 is refused with "Minimum bid increment is $10". The model's auctions always hold numbers.
- Seqs.SortBy: states length, elements and key order, but not stability. JavaScript's `sort` is stable, so among auctions with equal end times or bid counts the source shows the earliest in the filtered list; the model's sections are not promised to pick the same ones among such ties.
- MessageQueue.QueueService.Drain: the retry loop is bounded by the supplied clock readings, so a job that fails forever stops the model's loop when the readings run out.
- Malformed payload shapes that would throw inside a reducer are not modelled.
- Registry.UnknownAuctionEffect: the registry is a Dafny map, where the source's is a plain object whose lookups also see inherited properties. So a `new_bid` whose auctionId names one of them ("constructor", "toString" and the like) is "Auction not found" in the model. In the source it passes the existence test, and `amount <= undefined` is false, so it reaches the gate. A gate rejection then broadcasts `bid_rejected` to every client. An acceptance throws at `.bids.unshift`, and the thrown message is sent to the sender alone.
- Registry.CreateEffect: for the same reason, `create_auction` with the id "__proto__" replaces the object's prototype in the source instead of storing an entry, so `get_auctions` does not list it and the new prototype's fields become inherited names. The model stores an entry under every id.

## Findings

| source | as written | input that shows it | evidently intended | confidence | as-written member | corrected member |
|---|---|---|---|---|---|---|
| project/src/pages/CreateAuctionPage.tsx:49, 64-65 | the number inputs store the typed text, and the stepper then does `value += step` on that text, which concatenates | type "120" as the starting price, then press + | 170 | not executed | CreateForm.TypedPriceConcatenates | CreateForm.StepPriceSpec |
| project/src/contexts/WebSocketContext.tsx:68-75 | the comment says a reconnect is attempted only if the socket was not manually disconnected, but every close with fewer than five attempts schedules one, including the close that `disconnect` causes | connect, then call `disconnect`; the socket's close event then schedules a reconnect after 1000 ms | no reconnect after a manual disconnect | not executed | Session.DisconnectThenCloseReconnects | Session.ManualDisconnectStaysDown |
