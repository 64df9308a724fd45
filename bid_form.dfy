/** The bid form: the suggested amount, the input sanitiser, the amount
    validation, the submit guards and the increment button. The amount text's
    `parseFloat` value is an input (`None` for NaN); amounts are integers. */
module BidForm {
  import opened Types
  import opened Text
  import opened Seqs
  import AuctionView

  const InvalidAmount := "Please enter a valid bid amount"
  const MustLogIn := "You must be logged in to place a bid"
  const NotActive := "Cannot bid on an auction that is not active"
  const PlaceFailed := "Failed to place bid. Please try again."
  const Placed := "Your bid was placed successfully!"

  /** The amount the form suggests, initially and after a successful bid. */
  function Suggested(a: Auction): int
  {
    a.currentPrice + a.minBidIncrement
  }

  /** The text the amount field is set to. */
  function SuggestedText(a: Auction): string
  {
    IntToString(Suggested(a))
  }

  predicate Allowed(c: char)
  {
    IsDigit(c) || c == '.'
  }

  /** `handleBidAmountChange`: drop every character but digits and `.`. */
  function Sanitize(s: string): string
  {
    Filter(s, Allowed)
  }

  /** The sanitised text keeps the allowed characters of the input, in order,
      and nothing else, and sanitising again changes nothing. */
  lemma SanitizeSpec(s: string, c: char)
    ensures IsSubsequence(Sanitize(s), s)
    ensures c in Sanitize(s) <==> c in s && Allowed(c)
    ensures Sanitize(Sanitize(s)) == Sanitize(s)
  {
    FilterIsSubsequence(s, Allowed);
    FilterMembership(s, Allowed, c);
    FilterAll(Sanitize(s), Allowed);
  }

  /** `validateBid`: the first failing check, if any. */
  function ValidateBid(parsed: Option<int>, a: Auction): Option<string>
  {
    if parsed.None? then Some(InvalidAmount)
    else if parsed.value <= a.currentPrice then Some(AuctionView.TooLow(a.currentPrice))
    else if parsed.value < a.currentPrice + a.minBidIncrement then Some(AuctionView.BelowIncrement(a.minBidIncrement))
    else None
  }

  /** An amount passes exactly when it parses, is above the price and is at
      least one increment above it; a too-low amount is reported as such even
      when it also misses the increment. */
  lemma ValidateBidSpec(parsed: Option<int>, a: Auction)
    ensures ValidateBid(parsed, a) == None <==>
      parsed.Some? && parsed.value > a.currentPrice && parsed.value >= a.currentPrice + a.minBidIncrement
    ensures parsed.Some? && parsed.value <= a.currentPrice ==>
      ValidateBid(parsed, a) == Some(AuctionView.TooLow(a.currentPrice))
  {
  }

  /** The suggestion reads back as itself and passes validation exactly when
      the increment is positive. */
  lemma SuggestionIsValid(a: Auction)
    ensures ParseInt(SuggestedText(a)) == Some(Suggested(a))
    ensures ValidateBid(Some(Suggested(a)), a) == None <==> a.minBidIncrement > 0
  {
    ParseIntOfIntToString(Suggested(a));
  }

  /** What a submit does: refuse with a message, or call `placeBid`. */
  datatype Submit = Refused(message: string) | Calls(amount: int)

  /** `handleSubmit` up to the call of `placeBid`. */
  function HandleSubmit(isAuthenticated: bool, a: Auction, parsed: Option<int>): Submit
  {
    if !isAuthenticated then Refused(MustLogIn)
    else if a.status != Active then Refused(NotActive)
    else match ValidateBid(parsed, a)
      case Some(message) => Refused(message)
      case None => Calls(parsed.value)
  }

  /** Sign-in and the auction's status are checked before the amount, and
      `placeBid` is called only when all checks pass. */
  lemma SubmitGuards(isAuthenticated: bool, a: Auction, parsed: Option<int>)
    ensures !isAuthenticated ==> HandleSubmit(isAuthenticated, a, parsed) == Refused(MustLogIn)
    ensures isAuthenticated && a.status != Active ==> HandleSubmit(isAuthenticated, a, parsed) == Refused(NotActive)
    ensures HandleSubmit(isAuthenticated, a, parsed).Calls? <==>
      isAuthenticated && a.status == Active && ValidateBid(parsed, a) == None
  {
  }

  /** A bid the form hands on passes `placeBid`'s own checks when the store
      holds the same auction and a user is stored. */
  lemma SubmitAgreesWithStore(auctions: seq<Auction>, a: Auction, parsed: Option<int>, user: User)
    requires AuctionView.Find(auctions, a.id) == Some(a)
    requires HandleSubmit(true, a, parsed).Calls?
    ensures AuctionView.PlaceBidError(auctions, a.id, HandleSubmit(true, a, parsed).amount, Some(user)) == None
  {
  }

  /** The amount text and the form error after `placeBid` answers. */
  datatype Outcome = Outcome(amountText: Option<string>, formError: Option<string>, success: Option<string>)

  function AfterPlaceBid(success: bool, storeError: Option<string>, a: Auction): Outcome
  {
    if success then Outcome(Some(SuggestedText(a)), None, Some(Placed))
    else Outcome(None, Some(if Truthy(storeError) then storeError.value else PlaceFailed), None)
  }

  /** A success resets the field to the suggestion; a failure shows the
      store's error, or the fallback text when there is none. */
  lemma AfterPlaceBidSpec(success: bool, storeError: Option<string>, a: Auction)
    ensures success ==> AfterPlaceBid(success, storeError, a).amountText == Some(IntToString(a.currentPrice + a.minBidIncrement))
    ensures !success ==> AfterPlaceBid(success, storeError, a).formError
                         == Some(if storeError.Some? && storeError.value != "" then storeError.value else PlaceFailed)
  {
  }

  /** `incrementBid`: the parsed amount, or the price when it is NaN or 0,
      plus the increment. */
  function IncrementBid(parsed: Option<int>, a: Auction): int
  {
    (if parsed.Some? && parsed.value != 0 then parsed.value else a.currentPrice) + a.minBidIncrement
  }

  /** Pressing the button on an empty or zero field gives the suggestion,
      and on a valid amount gives another valid amount, one increment higher. */
  lemma IncrementSpec(parsed: Option<int>, a: Auction)
    ensures IncrementBid(None, a) == Suggested(a) && IncrementBid(Some(0), a) == Suggested(a)
    ensures ValidateBid(parsed, a) == None && a.minBidIncrement > 0 && parsed.value != 0 ==>
      && IncrementBid(parsed, a) == parsed.value + a.minBidIncrement
      && ValidateBid(Some(IncrementBid(parsed, a)), a) == None
  {
  }
}
