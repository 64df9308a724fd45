/** The filter panel: edits to its local copy of the filters, applying and
    clearing them, and the chips that remove one applied criterion. */
module FilterPanel {
  import opened Types
  import opened Text
  import opened Seqs
  import AuctionView

  /** A criterion of the filters: the four the panel has inputs for, and the
      search text, which the panel shows and removes as a chip but cannot edit. */
  datatype Field = CategoryField | StatusField | MinPriceField | MaxPriceField | SearchField

  /** The panel's inputs: category, status and the two price bounds. */
  datatype Input = CategoryInput | StatusInput | MinPriceInput | MaxPriceInput

  /** The criterion an input edits. */
  function FieldOf(input: Input): Field
  {
    match input
    case CategoryInput => CategoryField
    case StatusInput => StatusField
    case MinPriceInput => MinPriceField
    case MaxPriceInput => MaxPriceField
  }

  /** The panel's state: the local filters and whether it is open. */
  datatype Panel = Panel(local: Filters, open: bool)

  /** A price input: empty is no bound, anything else is `parseInt` of it. */
  function PriceInput(value: string): Option<int>
  {
    if value == "" then None else ParseInt(value)
  }

  /** Any other input: empty is no criterion, anything else the raw text. */
  function TextInput(value: string): Option<string>
  {
    if value == "" then None else Some(value)
  }

  /** `handleInputChange` for the named input. */
  function Edit(local: Filters, input: Input, value: string): Filters
  {
    match input
    case CategoryInput => local.(category := TextInput(value))
    case StatusInput => local.(status := TextInput(value))
    case MinPriceInput => local.(minPrice := PriceInput(value))
    case MaxPriceInput => local.(maxPrice := PriceInput(value))
  }

  /** Whether two filter records agree on a field. */
  predicate SameOn(f: Filters, g: Filters, field: Field)
  {
    match field
    case CategoryField => f.category == g.category
    case StatusField => f.status == g.status
    case MinPriceField => f.minPrice == g.minPrice
    case MaxPriceField => f.maxPrice == g.maxPrice
    case SearchField => f.search == g.search
  }

  /** An edit changes only the edited field; an empty input clears it and a
      typed price is read back as the number its digits denote. */
  lemma EditSpec(local: Filters, input: Input, value: string, other: Field, n: int)
    ensures other != FieldOf(input) ==> SameOn(Edit(local, input, value), local, other)
    ensures value == "" ==> SameOn(Edit(local, input, value), NoFilters, FieldOf(input))
    ensures input == MinPriceInput && value == IntToString(n) ==> Edit(local, input, value).minPrice == Some(n)
    ensures input == CategoryInput && value != "" ==> Edit(local, input, value).category == Some(value)
  {
    if input == MinPriceInput && value == IntToString(n) {
      ParseIntOfIntToString(n);
      assert value != "";
    }
  }

  /** `applyFilters`: the local filters are handed on unchanged and the panel
      closes. */
  function Apply(p: Panel): (Filters, Panel)
  {
    (p.local, p.(open := false))
  }

  /** `clearFilters`: the empty record, both locally and applied. */
  function Clear(p: Panel): (Filters, Panel)
  {
    (NoFilters, p.(local := NoFilters))
  }

  /** The filters a chip's button applies: the current ones without that field. */
  function RemoveChip(f: Filters, field: Field): Filters
  {
    match field
    case CategoryField => f.(category := None)
    case StatusField => f.(status := None)
    case MinPriceField => f.(minPrice := None)
    case MaxPriceField => f.(maxPrice := None)
    case SearchField => f.(search := None)
  }

  /** The chips shown: text criteria when non-empty, prices when defined. */
  function Chips(f: Filters): seq<Field>
  {
    (if Truthy(f.category) then [CategoryField] else [])
    + (if Truthy(f.status) then [StatusField] else [])
    + (if f.minPrice.Some? then [MinPriceField] else [])
    + (if f.maxPrice.Some? then [MaxPriceField] else [])
    + (if Truthy(f.search) then [SearchField] else [])
  }

  /** Removing a chip removes exactly that chip and keeps the other fields. */
  lemma RemoveChipSpec(f: Filters, field: Field, other: Field)
    ensures field !in Chips(RemoveChip(f, field))
    ensures other != field ==> SameOn(RemoveChip(f, field), f, other)
    ensures other != field ==> (other in Chips(RemoveChip(f, field)) <==> other in Chips(f))
  {
  }

  /** Dropping a criterion only widens the list: every auction shown before
      is still shown, and clearing shows every auction. */
  lemma RemovingWidens(auctions: seq<Auction>, f: Filters, field: Field, a: Auction)
    ensures a in AuctionView.ApplyFilters(auctions, f) ==> a in AuctionView.ApplyFilters(auctions, RemoveChip(f, field))
    ensures AuctionView.ApplyFilters(auctions, Clear(Panel(f, true)).0) == auctions
  {
    AuctionView.FilteredListSpec(auctions, f, a);
    AuctionView.FilteredListSpec(auctions, RemoveChip(f, field), a);
    AuctionView.ApplyFiltersIsOneFilter(auctions, NoFilters);
    FilterAll(auctions, x => AuctionView.Matches(NoFilters, x));
  }
}
