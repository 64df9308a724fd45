/** The home page: the filter record read from and written to the URL query,
    and the "ending soon" and "featured" sections drawn from the filtered
    auctions. The query is a map from parameter name to its first value. */
module HomeSections {
  import opened Types
  import opened Text
  import opened Seqs

  type Query = map<string, string>

  /** `parseInt(v || '0', 10) || undefined`: 0 and NaN become undefined. */
  function PriceParam(v: string): Option<int>
  {
    match ParseInt(if v == "" then "0" else v)
    case None => None
    case Some(n) => if n == 0 then None else Some(n)
  }

  /** `v || undefined` for a text parameter. */
  function TextParam(v: string): Option<string>
  {
    if v == "" then None else Some(v)
  }

  /** The recognised parameters. */
  predicate Recognised(q: Query)
  {
    "search" in q || "category" in q || "status" in q || "minPrice" in q || "maxPrice" in q
  }

  /** The filters read from the URL, or `None` when no recognised parameter is
      present and the filters are left alone. */
  function FromQuery(q: Query): Option<Filters>
  {
    if !Recognised(q) then None
    else Some(Filters(
      if "category" in q then TextParam(q["category"]) else None,
      if "status" in q then TextParam(q["status"]) else None,
      if "minPrice" in q then PriceParam(q["minPrice"]) else None,
      if "maxPrice" in q then PriceParam(q["maxPrice"]) else None,
      if "search" in q then TextParam(q["search"]) else None))
  }

  /** The query written when the filters change, one `set` after another:
      text fields when non-empty, prices whenever defined, 0 included. */
  function ToQuery(f: Filters): Query
  {
    var q0: Query := map[];
    var q1 := if Truthy(f.search) then q0["search" := f.search.value] else q0;
    var q2 := if Truthy(f.category) then q1["category" := f.category.value] else q1;
    var q3 := if Truthy(f.status) then q2["status" := f.status.value] else q2;
    var q4 := if f.minPrice.Some? then q3["minPrice" := IntToString(f.minPrice.value)] else q3;
    if f.maxPrice.Some? then q4["maxPrice" := IntToString(f.maxPrice.value)] else q4
  }

  /** Filters the URL can carry unchanged: no empty text and no zero price. */
  predicate Normal(f: Filters)
  {
    && (f.search.Some? ==> f.search.value != "")
    && (f.category.Some? ==> f.category.value != "")
    && (f.status.Some? ==> f.status.value != "")
    && (f.minPrice.Some? ==> f.minPrice.value != 0)
    && (f.maxPrice.Some? ==> f.maxPrice.value != 0)
  }

  lemma PriceParamOfText(n: int)
    ensures PriceParam(IntToString(n)) == if n == 0 then None else Some(n)
  {
    ParseIntOfIntToString(n);
  }

  /** What the written query holds: exactly the non-empty text fields and
      the defined prices, under their own names. */
  lemma ToQuerySpec(f: Filters)
    ensures ("search" in ToQuery(f) <==> Truthy(f.search)) && (Truthy(f.search) ==> ToQuery(f)["search"] == f.search.value)
    ensures ("category" in ToQuery(f) <==> Truthy(f.category)) && (Truthy(f.category) ==> ToQuery(f)["category"] == f.category.value)
    ensures ("status" in ToQuery(f) <==> Truthy(f.status)) && (Truthy(f.status) ==> ToQuery(f)["status"] == f.status.value)
    ensures ("minPrice" in ToQuery(f) <==> f.minPrice.Some?)
    ensures f.minPrice.Some? ==> ToQuery(f)["minPrice"] == IntToString(f.minPrice.value)
    ensures ("maxPrice" in ToQuery(f) <==> f.maxPrice.Some?)
    ensures f.maxPrice.Some? ==> ToQuery(f)["maxPrice"] == IntToString(f.maxPrice.value)
    ensures ToQuery(f).Keys <= {"search", "category", "status", "minPrice", "maxPrice"}
  {
  }

  /** Writing the filters to the URL and reading them back gives the same
      filters when they are normal; empty filters write nothing, and then the
      page leaves the filters alone. */
  lemma QueryRoundTrip(f: Filters)
    ensures Normal(f) && f != NoFilters ==> FromQuery(ToQuery(f)) == Some(f)
    ensures f == NoFilters ==> ToQuery(f) == map[] && FromQuery(ToQuery(f)) == None
  {
    ToQuerySpec(f);
    if f.minPrice.Some? {
      PriceParamOfText(f.minPrice.value);
    }
    if f.maxPrice.Some? {
      PriceParamOfText(f.maxPrice.value);
    }
  }

  /** A price of 0 is written to the URL but read back as no bound. */
  lemma ZeroPriceIsLost(f: Filters)
    requires f.minPrice == Some(0)
    ensures "minPrice" in ToQuery(f) && ToQuery(f)["minPrice"] == "0"
    ensures FromQuery(ToQuery(f)).Some? && FromQuery(ToQuery(f)).value.minPrice == None
  {
    ToQuerySpec(f);
    PriceParamOfText(0);
    assert IntToString(0) == "0";
  }

  const Day := 86400000
  const SectionSize := 4

  predicate EndsSoon(a: Auction, now: int)
  {
    a.status == Active && a.endTime <= now + Day
  }

  predicate IsActive(a: Auction)
  {
    a.status == Active
  }

  function EndKey(a: Auction): int
  {
    a.endTime
  }

  function BidsKey(a: Auction): int
  {
    -|a.bids|
  }

  /** Active auctions ending within a day, soonest first, at most four. */
  function EndingSoon(fa: seq<Auction>, now: int): seq<Auction>
  {
    Take(SortBy(Filter(fa, a => EndsSoon(a, now)), EndKey), SectionSize)
  }

  /** Active auctions with the most bids first, at most four. */
  function Featured(fa: seq<Auction>): seq<Auction>
  {
    Take(SortBy(Filter(fa, IsActive), BidsKey), SectionSize)
  }

  function Min(a: int, b: int): int
  {
    if a < b then a else b
  }

  /** `slice(0, k)` keeps min(k, length) elements, all taken from the list. */
  lemma TakeIsSubmultiset<T>(s: seq<T>, k: nat)
    ensures |Take(s, k)| == Min(|s|, k)
    ensures multiset(Take(s, k)) <= multiset(s)
  {
    if |s| > k {
      assert s == s[..k] + s[k..];
      assert multiset(s) == multiset(s[..k]) + multiset(s[k..]);
    }
  }

  lemma InTake<T>(s: seq<T>, k: nat, x: T)
    requires x in Take(s, k)
    ensures x in s
  {
  }

  /** "Ending soon" holds at most four active auctions from the filtered list
      that end within a day, soonest first; no candidate left out ends sooner
      than one shown. */
  lemma EndingSoonSpec(fa: seq<Auction>, now: int, y: Auction, x: Auction)
    ensures |EndingSoon(fa, now)| <= SectionSize
    ensures SortedBy(EndingSoon(fa, now), EndKey)
    ensures y in EndingSoon(fa, now) ==> y in fa && EndsSoon(y, now)
    ensures y in EndingSoon(fa, now) && x in multiset(Filter(fa, a => EndsSoon(a, now))) - multiset(EndingSoon(fa, now))
      ==> y.endTime <= x.endTime
    ensures |EndingSoon(fa, now)| == Min(|Filter(fa, a => EndsSoon(a, now))|, SectionSize)
    ensures multiset(EndingSoon(fa, now)) <= multiset(Filter(fa, a => EndsSoon(a, now)))
  {
    var c := Filter(fa, a => EndsSoon(a, now));
    var r := SortBy(c, EndKey);
    TakeIsSubmultiset(r, SectionSize);
    if y in EndingSoon(fa, now) {
      InTake(r, SectionSize, y);
      assert y in multiset(r);
      FilterMembership(fa, a => EndsSoon(a, now), y);
      if x in multiset(c) - multiset(EndingSoon(fa, now)) {
        TakeOfSortedIsSmallest(c, EndKey, SectionSize, y, x);
      }
    }
  }

  /** "Featured" holds at most four active auctions from the filtered list,
      most bids first; no active auction left out has more bids than one shown. */
  lemma FeaturedSpec(fa: seq<Auction>, y: Auction, x: Auction)
    ensures |Featured(fa)| <= SectionSize
    ensures SortedBy(Featured(fa), BidsKey)
    ensures y in Featured(fa) ==> y in fa && y.status == Active
    ensures y in Featured(fa) && x in multiset(Filter(fa, IsActive)) - multiset(Featured(fa))
      ==> |y.bids| >= |x.bids|
    ensures |Featured(fa)| == Min(|Filter(fa, IsActive)|, SectionSize)
    ensures multiset(Featured(fa)) <= multiset(Filter(fa, IsActive))
  {
    var c := Filter(fa, IsActive);
    var r := SortBy(c, BidsKey);
    TakeIsSubmultiset(r, SectionSize);
    if y in Featured(fa) {
      InTake(r, SectionSize, y);
      assert y in multiset(r);
      FilterMembership(fa, IsActive, y);
      if x in multiset(c) - multiset(Featured(fa)) {
        TakeOfSortedIsSmallest(c, BidsKey, SectionSize, y, x);
      }
    }
  }

  /** The two sections shown. */
  datatype Sections = Sections(endingSoon: seq<Auction>, featured: seq<Auction>)

  /** The sections after the filtered list changes: recomputed only when it
      is not empty. */
  function UpdateSections(prev: Sections, fa: seq<Auction>, now: int): Sections
  {
    if |fa| > 0 then Sections(EndingSoon(fa, now), Featured(fa)) else prev
  }

  /** An empty filtered list leaves both sections as they were; otherwise
      both are drawn from the filtered list. */
  lemma UpdateSectionsSpec(prev: Sections, fa: seq<Auction>, now: int)
    ensures fa == [] ==> UpdateSections(prev, fa, now) == prev
    ensures fa != [] ==>
      && (forall y :: y in UpdateSections(prev, fa, now).endingSoon ==> y in fa)
      && (forall y :: y in UpdateSections(prev, fa, now).featured ==> y in fa)
  {
    if fa != [] {
      forall y | y in EndingSoon(fa, now) ensures y in fa {
        EndingSoonSpec(fa, now, y, y);
      }
      forall y | y in Featured(fa) ensures y in fa {
        FeaturedSpec(fa, y, y);
      }
    }
  }
}
