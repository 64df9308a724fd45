/** The create-auction form: the price steppers, the ordered validation and
    the record handed to `createAuction`. Dates are integer milliseconds;
    a date text that does not parse is `None`. */
module CreateForm {
  import opened Types
  import opened Text
  import AuctionView

  datatype PriceField = StartingPrice | MinBidIncrement

  datatype StepOp = Increment | Decrement

  /** The form's state after the user's edits. `startOption` is the raw value
      of the start selector; `scheduledStart` and `end` are the parsed dates. */
  datatype Form = Form(
    title: string,
    description: string,
    imageUrl: string,
    categoryId: string,
    startingPrice: int,
    minBidIncrement: int,
    startOption: string,
    scheduledStart: Option<int>,
    end: Option<int>)

  function StepOf(field: PriceField): nat
  {
    if field == MinBidIncrement then 5 else 50
  }

  function MinOf(field: PriceField): nat
  {
    if field == MinBidIncrement then 5 else 50
  }

  function PriceOf(f: Form, field: PriceField): int
  {
    if field == StartingPrice then f.startingPrice else f.minBidIncrement
  }

  function Max(a: int, b: int): int
  {
    if a >= b then a else b
  }

  /** `handlePriceChange` on a numeric field value. */
  function StepPrice(f: Form, field: PriceField, op: StepOp): Form
  {
    var v := PriceOf(f, field);
    var nv := if op == Increment then v + StepOf(field) else Max(MinOf(field), v - StepOf(field));
    if field == StartingPrice then f.(startingPrice := nv) else f.(minBidIncrement := nv)
  }

  /** `+` adds exactly the step; `-` subtracts it but never goes below the
      minimum, and only the named field changes. */
  lemma StepPriceSpec(f: Form, field: PriceField, op: StepOp)
    ensures var g := StepPrice(f, field, op);
      && (op == Increment ==> PriceOf(g, field) == PriceOf(f, field) + StepOf(field))
      && (op == Decrement ==> PriceOf(g, field) >= MinOf(field)
                              && (PriceOf(f, field) - StepOf(field) >= MinOf(field)
                                  ==> PriceOf(g, field) == PriceOf(f, field) - StepOf(field)))
      && (field == StartingPrice ==> g == f.(startingPrice := g.startingPrice))
      && (field == MinBidIncrement ==> g == f.(minBidIncrement := g.minBidIncrement))
  {
  }

  /** Increment then decrement gives the value back. */
  lemma StepRoundTrip(f: Form, field: PriceField)
    requires PriceOf(f, field) >= MinOf(field)
    ensures StepPrice(StepPrice(f, field, Increment), field, Decrement) == f
  {
  }

  /** A field value as the page holds it: the initial number, or the text the
      number input's change handler stores. */
  datatype Entry = Number(n: int) | Typed(text: string)

  /** The `+` button as written: `newValue += step` on whatever the field holds. */
  function IncrementAsWritten(v: Entry, field: PriceField): Entry
  {
    match v
    case Number(n) => Number(n + StepOf(field))
    case Typed(t) => Typed(t + IntToString(StepOf(field)))
  }

  /** Once a price has been typed into its input, `+` appends the step's digits
      to the text instead of adding: "120" becomes "12050", where the sum's
      text is "170". */
  lemma TypedPriceConcatenates()
    ensures IncrementAsWritten(Typed("120"), StartingPrice) == Typed("12050")
    ensures IntToString(120 + StepOf(StartingPrice)) == "170"
  {
    assert DigitChar(0) == '0' && DigitChar(1) == '1' && DigitChar(5) == '5' && DigitChar(7) == '7';
    assert Decimal(5) == "5";
    assert Decimal(50) == Decimal(5) + [DigitChar(0)] == "50";
    assert Decimal(17) == Decimal(1) + [DigitChar(7)] == "17";
    assert Decimal(170) == Decimal(17) + [DigitChar(0)] == "170";
  }

  const MinDuration := 3600000

  const NoTitle := "Please enter a title for your auction"
  const ShortTitle := "Title should be at least 10 characters long"
  const NoDescription := "Please enter a description for your auction"
  const ShortDescription := "Description should be at least 30 characters long"
  const NoCategory := "Please select a category"
  const LowPrice := "Starting price must be at least $1"
  const LowIncrement := "Minimum bid increment must be at least $1"
  const BadStart := "Invalid start date or time"
  const BadEnd := "Invalid end date or time"
  const PastStart := "Start time cannot be in the past"
  const EndBeforeStart := "End time must be after start time"
  const TooShort := "Auction duration must be at least 1 hour"

  /** The start the form uses: the clock for "now", the parsed date otherwise. */
  function StartOf(f: Form, now: int): Option<int>
  {
    if f.startOption == "now" then Some(now) else f.scheduledStart
  }

  /** The title, description and category checks. */
  function TextError(f: Form): Option<string>
  {
    if Trim(f.title) == "" then Some(NoTitle)
    else if |f.title| < 10 then Some(ShortTitle)
    else if Trim(f.description) == "" then Some(NoDescription)
    else if |f.description| < 30 then Some(ShortDescription)
    else if f.categoryId == "" then Some(NoCategory)
    else None
  }

  /** The price checks. */
  function PriceError(f: Form): Option<string>
  {
    if f.startingPrice < 1 then Some(LowPrice)
    else if f.minBidIncrement < 1 then Some(LowIncrement)
    else None
  }

  /** The date checks. */
  function DateError(f: Form, start: Option<int>, now: int): Option<string>
  {
    if start.None? then Some(BadStart)
    else if f.end.None? then Some(BadEnd)
    else if f.startOption == "scheduled" && start.value < now then Some(PastStart)
    else if f.end.value <= start.value then Some(EndBeforeStart)
    else if f.end.value - start.value < MinDuration then Some(TooShort)
    else None
  }

  /** `validateForm`: the first failing check, in the order text, prices,
      dates. */
  function ValidateForm(f: Form, now: int): Option<string>
  {
    if TextError(f).Some? then TextError(f)
    else if PriceError(f).Some? then PriceError(f)
    else DateError(f, StartOf(f, now), now)
  }

  /** The text checks pass exactly when title and description are not all
      white space and have at least 10 and 30 characters and a category is
      chosen; ten spaces are long enough but still count as no title. */
  lemma TextErrorSpec(f: Form)
    ensures TextError(f) == None <==>
      && (exists i :: 0 <= i < |f.title| && !IsSpace(f.title[i])) && |f.title| >= 10
      && (exists i :: 0 <= i < |f.description| && !IsSpace(f.description[i])) && |f.description| >= 30
      && f.categoryId != ""
    ensures (forall i :: 0 <= i < |f.title| ==> IsSpace(f.title[i])) ==> TextError(f) == Some(NoTitle)
  {
    BlankIffAllSpace(f.title);
    BlankIffAllSpace(f.description);
  }

  /** The date checks pass exactly when both dates parse, a scheduled start is
      not in the past, and the auction runs at least an hour. */
  lemma DateErrorSpec(f: Form, now: int)
    ensures DateError(f, StartOf(f, now), now) == None <==>
      && StartOf(f, now).Some? && f.end.Some?
      && (f.startOption == "scheduled" ==> StartOf(f, now).value >= now)
      && f.end.value - StartOf(f, now).value >= MinDuration
  {
  }

  /** A form is accepted exactly when every check passes. */
  lemma ValidateFormSpec(f: Form, now: int)
    ensures ValidateForm(f, now) == None <==>
      && TextError(f) == None
      && f.startingPrice >= 1 && f.minBidIncrement >= 1
      && DateError(f, StartOf(f, now), now) == None
  {
  }

  /** The record `handleSubmit` hands to `createAuction`, once the form is
      valid; id, price, bids, status and view count are filled in there. */
  function Submission(f: Form, now: int, seller: User): Option<Auction>
  {
    var start := StartOf(f, now);
    if ValidateForm(f, now).Some? || start.None? || f.end.None? then None
    else
      Some(Auction("", f.title, f.description, f.imageUrl, Party(seller.id, seller.username),
                   f.startingPrice, 0, f.minBidIncrement, start.value, f.end.value, Upcoming, [], None, 0, f.categoryId))
  }

  /** A submission is made exactly for a valid form, and the auction it
      creates runs at least an hour, is active when it starts now and is not
      ended when scheduled. */
  lemma SubmissionCreates(f: Form, now: int, seller: User, uuid: string)
    ensures Submission(f, now, seller).Some? <==> ValidateForm(f, now) == None
    ensures Submission(f, now, seller).Some? ==>
      var a := AuctionView.NewAuction(Submission(f, now, seller).value, uuid, now);
      && a.endTime - a.startTime >= MinDuration
      && a.currentPrice == f.startingPrice && a.seller == Party(seller.id, seller.username)
      && (f.startOption == "now" ==> a.status == Active)
      && (f.startOption == "scheduled" ==> a.status != Ended)
  {
    if ValidateForm(f, now) == None {
      DateErrorSpec(f, now);
    }
  }
}
