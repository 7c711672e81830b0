/**
 * The query builder (domain/queries): an `EsQuery` of optional filters is translated into a
 * bool query whose `Must` list holds the scored free-text clause and whose `Filter` list holds
 * the range and term clauses, in the fixed order price, available_quantity, status, seller.
 *
 * The builder stores ADDRESSES of float cells in its range clauses. The price range reuses one
 * local cell for both bounds, so the model keeps those cells on the heap (`Float64Cell`) and
 * reads them back only when the query is handed to the client (`Resolve`).
 */
module Queries {
  import opened Wrappers

  /**
   * Search criteria; every field is optional (a nil pointer in the source). Prices are kept as
   * opaque integers: they are only copied, never computed with.
   */
  datatype EsQuery = EsQuery(
    searchText: Option<string>,
    status: Option<string>,
    seller: Option<int>,
    minPrice: Option<int>,
    maxPrice: Option<int>,
    availableQuantity: Option<int>,
    from: Option<int>,
    size: Option<int>)

  /** The query with every criterion absent. */
  const EmptyQuery := EsQuery(None, None, None, None, None, None, None, None)

  /** A `types.Float64` variable whose address a range bound holds. */
  class Float64Cell {
    var value: int

    constructor (v: int)
      ensures value == v
    {
      value := v;
    }
  }

  /** A numeric range; a bound is either a pointer (heap form) or the value it points at. */
  datatype NumberRangeQuery<B> = NumberRangeQuery(gte: B, lte: B)

  /**
   * The document fields a filter can name; the engine sees them as the keys "price",
   * "available_quantity", "status" and "seller".
   */
  datatype FieldName = PriceField | QuantityField | StatusField | SellerField

  datatype TermValue = StringTerm(s: string) | IntTerm(n: int)

  /** One leaf of the query tree. */
  datatype Clause<B> =
    | MultiMatch(text: string, fields: seq<string>)
    | Range(field: FieldName, range: NumberRangeQuery<B>)
    | Term(field: FieldName, value: TermValue)

  datatype BoolQuery<B> = BoolQuery(must: seq<Clause<B>>, filter: seq<Clause<B>>)

  /** The query as the builder returns it: bounds are (possibly nil) cell pointers. */
  type HeapQuery = BoolQuery<Float64Cell?>

  /** The query as the client serialises it: a bound is omitted or carries the pointee's value. */
  type Query = BoolQuery<Option<int>>

  /** The fields the free-text clause searches. */
  const TextFields: seq<string> := ["title", "description"]

  // ---------------------------------------------------------------------------------------------
  // Reading the heap form back as a value

  function Cells(c: Clause<Float64Cell?>): set<Float64Cell> {
    match c
    case Range(_, r) => (if r.gte != null then {r.gte} else {}) + (if r.lte != null then {r.lte} else {})
    case _ => {}
  }

  function Footprint(cs: seq<Clause<Float64Cell?>>): set<Float64Cell> {
    set i, c | 0 <= i < |cs| && c in Cells(cs[i]) :: c
  }

  function BoundValue(p: Float64Cell?): (b: Option<int>)
    reads p
    ensures b.Some? <==> p != null
  {
    if p == null then None else Some(p.value)
  }

  function ResolveClause(c: Clause<Float64Cell?>): Clause<Option<int>>
    reads Cells(c)
  {
    match c
    case MultiMatch(t, fs) => MultiMatch(t, fs)
    case Range(f, r) => Range(f, NumberRangeQuery(BoundValue(r.gte), BoundValue(r.lte)))
    case Term(f, v) => Term(f, v)
  }

  function ResolveClauses(cs: seq<Clause<Float64Cell?>>): (r: seq<Clause<Option<int>>>)
    reads Footprint(cs)
    ensures |r| == |cs|
  {
    if cs == [] then [] else [ResolveClause(cs[0])] + ResolveClauses(cs[1..])
  }

  /** The value the client serialises from a built query: every pointer is dereferenced. */
  function Resolve(q: HeapQuery): Query
    reads Footprint(q.must) + Footprint(q.filter)
  {
    BoolQuery(ResolveClauses(q.must), ResolveClauses(q.filter))
  }

  /** The heap clauses `hs` read back, one by one, as the values `vs`. */
  ghost predicate Denotes(hs: seq<Clause<Float64Cell?>>, vs: seq<Clause<Option<int>>>)
    reads Footprint(hs)
  {
    |hs| == |vs| && forall i :: 0 <= i < |hs| ==> ResolveClause(hs[i]) == vs[i]
  }

  lemma {:induction false} DenotesResolve(hs: seq<Clause<Float64Cell?>>, vs: seq<Clause<Option<int>>>)
    requires Denotes(hs, vs)
    ensures ResolveClauses(hs) == vs
  {
    if hs != [] {
      assert Denotes(hs[1..], vs[1..]);
      DenotesResolve(hs[1..], vs[1..]);
    }
  }

  lemma DenotesAppend(hs: seq<Clause<Float64Cell?>>, vs: seq<Clause<Option<int>>>, h: Clause<Float64Cell?>, v: Clause<Option<int>>)
    requires Denotes(hs, vs) && ResolveClause(h) == v
    ensures Denotes(hs + [h], vs + [v])
  {
    assert forall i :: 0 <= i < |hs| ==> (hs + [h])[i] == hs[i];
  }

  // ---------------------------------------------------------------------------------------------
  // What the builder produces, as values

  /** The free-text clause: present exactly when the text is present and not empty. */
  function MustClauses(q: EsQuery): seq<Clause<Option<int>>> {
    if q.searchText.Some? && q.searchText.value != "" then [MultiMatch(q.searchText.value, TextFields)] else []
  }

  /**
   * The price range the builder produces AS WRITTEN. Both bounds point at the one local cell,
   * which last receives `MaxPrice` when that is present, so a present lower bound reads
   * `MaxPrice` whenever both bounds were given.
   */
  function AliasedPriceRange(q: EsQuery): NumberRangeQuery<Option<int>> {
    NumberRangeQuery(if q.minPrice.Some? then (if q.maxPrice.Some? then q.maxPrice else q.minPrice) else None, q.maxPrice)
  }

  /** The price range the builder is evidently meant to produce: each bound from its own field. */
  function PriceRange(q: EsQuery): NumberRangeQuery<Option<int>> {
    NumberRangeQuery(q.minPrice, q.maxPrice)
  }

  // Each triggered condition appends one clause to the filter list, in the builder's fixed order
  // price, available_quantity, status, seller.

  function WithPrice(q: EsQuery, price: NumberRangeQuery<Option<int>>): seq<Clause<Option<int>>> {
    if q.minPrice.Some? || q.maxPrice.Some? then [Range(PriceField, price)] else []
  }

  function WithQuantity(q: EsQuery, f: seq<Clause<Option<int>>>): seq<Clause<Option<int>>> {
    if q.availableQuantity.Some? then f + [Range(QuantityField, NumberRangeQuery(q.availableQuantity, None))] else f
  }

  function WithStatus(q: EsQuery, f: seq<Clause<Option<int>>>): seq<Clause<Option<int>>> {
    if q.status.Some? && q.status.value != "" then f + [Term(StatusField, StringTerm(q.status.value))] else f
  }

  function WithSeller(q: EsQuery, f: seq<Clause<Option<int>>>): seq<Clause<Option<int>>> {
    if q.seller.Some? then f + [Term(SellerField, IntTerm(q.seller.value))] else f
  }

  /** The filter list around a given price range. */
  function Filters(q: EsQuery, price: NumberRangeQuery<Option<int>>): seq<Clause<Option<int>>> {
    WithSeller(q, WithStatus(q, WithQuantity(q, WithPrice(q, price))))
  }

  /** The query the builder produces as written (see `AliasedPriceRange`). */
  function BuiltQuery(q: EsQuery): Query {
    BoolQuery(MustClauses(q), Filters(q, AliasedPriceRange(q)))
  }

  /** The query the builder evidently means to produce. */
  function IntendedQuery(q: EsQuery): Query {
    BoolQuery(MustClauses(q), Filters(q, PriceRange(q)))
  }

  // ---------------------------------------------------------------------------------------------
  // The builder

  /**
   * The price range of `EsQuery.Build` as written: one local cell `convert` is allocated, and
   * each present bound stores the cell's address after writing its own value into it.
   */
  method NewPriceRange(q: EsQuery) returns (priceRange: NumberRangeQuery<Float64Cell?>)
    requires q.minPrice.Some? || q.maxPrice.Some?
    ensures BoundValue(priceRange.gte) == AliasedPriceRange(q).gte
    ensures BoundValue(priceRange.lte) == AliasedPriceRange(q).lte
    ensures q.minPrice.Some? && q.maxPrice.Some? ==> priceRange.gte == priceRange.lte
  {
    priceRange := NumberRangeQuery(null, null);
    var convert := new Float64Cell(0);
    if q.minPrice.Some? {
      convert.value := q.minPrice.value;
      priceRange := priceRange.(gte := convert);
    }
    if q.maxPrice.Some? {
      convert.value := q.maxPrice.value;
      priceRange := priceRange.(lte := convert);
    }
  }

  /** The corrected price range: each present bound gets a cell of its own. */
  method NewPriceRangeFixed(q: EsQuery) returns (priceRange: NumberRangeQuery<Float64Cell?>)
    ensures BoundValue(priceRange.gte) == q.minPrice
    ensures BoundValue(priceRange.lte) == q.maxPrice
    ensures q.minPrice.Some? && q.maxPrice.Some? ==> priceRange.gte != priceRange.lte
  {
    priceRange := NumberRangeQuery(null, null);
    if q.minPrice.Some? {
      var lower := new Float64Cell(q.minPrice.value);
      priceRange := priceRange.(gte := lower);
    }
    if q.maxPrice.Some? {
      var upper := new Float64Cell(q.maxPrice.value);
      priceRange := priceRange.(lte := upper);
    }
  }

  /**
   * The list-growing part of `EsQuery.Build`: the free-text clause goes to `Must`, and each
   * triggered filter is appended to `Filter` in order, the price clause holding `priceRange`.
   */
  method Assemble(q: EsQuery, priceRange: NumberRangeQuery<Float64Cell?>, ghost price: NumberRangeQuery<Option<int>>)
    returns (r: HeapQuery)
    requires BoundValue(priceRange.gte) == price.gte && BoundValue(priceRange.lte) == price.lte
    ensures Denotes(r.must, MustClauses(q)) && Denotes(r.filter, Filters(q, price))
    ensures q.minPrice.Some? || q.maxPrice.Some? ==> r.filter[0] == Range(PriceField, priceRange)
  {
    var queries: seq<Clause<Float64Cell?>> := [];
    if q.searchText.Some? && q.searchText.value != "" {
      queries := queries + [MultiMatch(q.searchText.value, TextFields)];
    }
    assert Denotes(queries, MustClauses(q));

    var filters: seq<Clause<Float64Cell?>> := [];
    if q.minPrice.Some? || q.maxPrice.Some? {
      DenotesAppend([], [], Range(PriceField, priceRange), Range(PriceField, price));
      filters := filters + [Range(PriceField, priceRange)];
    }
    filters := AppendQuantity(q, filters, WithPrice(q, price));
    filters := AppendTerms(q, filters, WithQuantity(q, WithPrice(q, price)));
    r := BoolQuery(queries, filters);
  }

  /** Append the available-quantity range, whose lower bound is a cell of its own, when present. */
  method AppendQuantity(q: EsQuery, filters: seq<Clause<Float64Cell?>>, ghost spec: seq<Clause<Option<int>>>)
    returns (r: seq<Clause<Float64Cell?>>)
    requires Denotes(filters, spec)
    ensures Denotes(r, WithQuantity(q, spec))
    ensures |filters| <= |r| && r[..|filters|] == filters
    ensures q.availableQuantity.Some? ==>
      |r| == |filters| + 1 && r[|filters|].Range? && fresh(r[|filters|].range.gte)
  {
    r := filters;
    if q.availableQuantity.Some? {
      var quantity := new Float64Cell(q.availableQuantity.value);
      var clause := Range(QuantityField, NumberRangeQuery(quantity, null));
      DenotesAppend(filters, spec, clause, Range(QuantityField, NumberRangeQuery(q.availableQuantity, None)));
      r := filters + [clause];
    }
  }

  /** Append the status term (for a non-empty status) and the seller term (for any seller). */
  method AppendTerms(q: EsQuery, filters: seq<Clause<Float64Cell?>>, ghost spec: seq<Clause<Option<int>>>)
    returns (r: seq<Clause<Float64Cell?>>)
    requires Denotes(filters, spec)
    ensures Denotes(r, WithSeller(q, WithStatus(q, spec)))
    ensures |filters| <= |r| && r[..|filters|] == filters
  {
    r := filters;
    if q.status.Some? && q.status.value != "" {
      DenotesAppend(r, spec, Term(StatusField, StringTerm(q.status.value)), Term(StatusField, StringTerm(q.status.value)));
      r := r + [Term(StatusField, StringTerm(q.status.value))];
    }
    ghost var mid := r;
    if q.seller.Some? {
      DenotesAppend(r, WithStatus(q, spec), Term(SellerField, IntTerm(q.seller.value)), Term(SellerField, IntTerm(q.seller.value)));
      r := r + [Term(SellerField, IntTerm(q.seller.value))];
    }
    assert r[..|mid|] == mid;
  }

  /**
   * `EsQuery.Build` as written. When both prices are given, the two bounds of the price range
   * are the same cell, and the query the client serialises is `BuiltQuery(q)`.
   */
  method Build(q: EsQuery) returns (r: HeapQuery)
    ensures Resolve(r) == BuiltQuery(q)
    ensures q.minPrice.Some? && q.maxPrice.Some? ==>
      r.filter[0].Range? && r.filter[0].range.gte != null && r.filter[0].range.gte == r.filter[0].range.lte
  {
    var priceRange: NumberRangeQuery<Float64Cell?> := NumberRangeQuery(null, null);
    if q.minPrice.Some? || q.maxPrice.Some? {
      priceRange := NewPriceRange(q);
    }
    r := Assemble(q, priceRange, AliasedPriceRange(q));
    DenotesResolve(r.must, BuiltQuery(q).must);
    DenotesResolve(r.filter, BuiltQuery(q).filter);
  }

  /** The corrected builder: the client serialises `IntendedQuery(q)`. */
  method BuildFixed(q: EsQuery) returns (r: HeapQuery)
    ensures Resolve(r) == IntendedQuery(q)
    ensures q.minPrice.Some? && q.maxPrice.Some? ==>
      r.filter[0].Range? && r.filter[0].range.gte != r.filter[0].range.lte
  {
    var priceRange := NewPriceRangeFixed(q);
    r := Assemble(q, priceRange, PriceRange(q));
    DenotesResolve(r.must, IntendedQuery(q).must);
    DenotesResolve(r.filter, IntendedQuery(q).filter);
  }

  // ---------------------------------------------------------------------------------------------
  // Properties of the query the builder produces

  /** The position of a field in the builder's fixed filter order. */
  function Rank(f: FieldName): nat {
    match f
    case PriceField => 0
    case QuantityField => 1
    case StatusField => 2
    case SellerField => 3
  }

  /** Some filter clause of `f` names the field `name`. */
  predicate HasFilter<B>(f: seq<Clause<B>>, name: FieldName) {
    exists i :: 0 <= i < |f| && !f[i].MultiMatch? && f[i].field == name
  }

  /** How many of the four filter conditions `q` triggers. */
  function Triggered(q: EsQuery): nat {
    (if q.minPrice.Some? || q.maxPrice.Some? then 1 else 0)
    + (if q.availableQuantity.Some? then 1 else 0)
    + (if q.status.Some? && q.status.value != "" then 1 else 0)
    + (if q.seller.Some? then 1 else 0)
  }

  /** `Must` holds one multi_match over title and description iff the text is present and non-empty. */
  lemma MustIsTextMatch(q: EsQuery)
    ensures |BuiltQuery(q).must| <= 1 && BuiltQuery(q).must == IntendedQuery(q).must
    ensures BuiltQuery(q).must != [] <==> q.searchText.Some? && q.searchText.value != ""
    ensures BuiltQuery(q).must != [] ==>
      BuiltQuery(q).must[0] == MultiMatch(q.searchText.value, ["title", "description"])
  {
  }

  /** `f` holds only range and term clauses, their fields in strictly increasing rank below `bound`. */
  predicate OrderedBelow<B>(f: seq<Clause<B>>, bound: nat) {
    && (forall i :: 0 <= i < |f| ==> !f[i].MultiMatch? && Rank(f[i].field) < bound)
    && (forall i, j :: 0 <= i < j < |f| ==> Rank(f[i].field) < Rank(f[j].field))
  }

  /** Appending a clause of a higher rank keeps the list ordered. */
  lemma AppendOrdered(f: seq<Clause<Option<int>>>, c: Clause<Option<int>>, bound: nat)
    requires !c.MultiMatch? && OrderedBelow(f, Rank(c.field)) && Rank(c.field) < bound
    ensures OrderedBelow(f + [c], bound)
  {
    var g := f + [c];
    assert forall i :: 0 <= i < |f| ==> g[i] == f[i];
  }

  /**
   * The filter list holds only range and term clauses, one per triggered condition, with the
   * fields in strictly increasing position of the order price, available_quantity, status, seller.
   */
  lemma FilterOrder(q: EsQuery, price: NumberRangeQuery<Option<int>>)
    ensures |Filters(q, price)| == Triggered(q) <= 4
    ensures OrderedBelow(Filters(q, price), 4)
  {
    var f0 := WithPrice(q, price);
    var f1 := WithQuantity(q, f0);
    var f2 := WithStatus(q, f1);
    QuantityStep(q, f0);
    StatusStep(q, f1);
    SellerStep(q, f2);
  }

  // One step of the order proof per condition that may append a clause.

  lemma QuantityStep(q: EsQuery, f: seq<Clause<Option<int>>>)
    requires OrderedBelow(f, 1)
    ensures OrderedBelow(WithQuantity(q, f), 2)
    ensures |WithQuantity(q, f)| == |f| + if q.availableQuantity.Some? then 1 else 0
  {
    if q.availableQuantity.Some? {
      AppendOrdered(f, Range(QuantityField, NumberRangeQuery(q.availableQuantity, None)), 2);
    }
  }

  lemma StatusStep(q: EsQuery, f: seq<Clause<Option<int>>>)
    requires OrderedBelow(f, 2)
    ensures OrderedBelow(WithStatus(q, f), 3)
    ensures |WithStatus(q, f)| == |f| + if q.status.Some? && q.status.value != "" then 1 else 0
  {
    if q.status.Some? && q.status.value != "" {
      AppendOrdered(f, Term(StatusField, StringTerm(q.status.value)), 3);
    }
  }

  lemma SellerStep(q: EsQuery, f: seq<Clause<Option<int>>>)
    requires OrderedBelow(f, 3)
    ensures OrderedBelow(WithSeller(q, f), 4)
    ensures |WithSeller(q, f)| == |f| + if q.seller.Some? then 1 else 0
  {
    if q.seller.Some? {
      AppendOrdered(f, Term(SellerField, IntTerm(q.seller.value)), 4);
    }
  }

  /** Each filter field appears exactly when its condition holds (for either price range). */
  lemma FilterTriggers(q: EsQuery, price: NumberRangeQuery<Option<int>>)
    ensures var f := Filters(q, price);
      && (HasFilter(f, PriceField) <==> q.minPrice.Some? || q.maxPrice.Some?)
      && (HasFilter(f, QuantityField) <==> q.availableQuantity.Some?)
      && (HasFilter(f, StatusField) <==> q.status.Some? && q.status.value != "")
      && (HasFilter(f, SellerField) <==> q.seller.Some?)
  {
    var f := Filters(q, price);
    FilterOrder(q, price);
    if q.minPrice.Some? || q.maxPrice.Some? {
      assert f[0] == Range(PriceField, price);
    }
    if q.availableQuantity.Some? {
      assert Range(QuantityField, NumberRangeQuery(q.availableQuantity, None)) in f;
    }
    if q.status.Some? && q.status.value != "" {
      assert Term(StatusField, StringTerm(q.status.value)) in f;
    }
    if q.seller.Some? {
      assert f[|f| - 1] == Term(SellerField, IntTerm(q.seller.value));
    }
  }

  /** A present quantity floor yields a `Gte`-only range on available_quantity. */
  lemma QuantityFloor(q: EsQuery, price: NumberRangeQuery<Option<int>>)
    requires q.availableQuantity.Some?
    ensures Range(QuantityField, NumberRangeQuery(Some(q.availableQuantity.value), None)) in Filters(q, price)
  {
  }

  /**
   * A status term is added only for a present, non-empty status; a seller term for every present
   * seller, 0 included.
   */
  lemma TermFilters(q: EsQuery, price: NumberRangeQuery<Option<int>>, s: string, n: int)
    ensures Term(StatusField, StringTerm(s)) in Filters(q, price) <==> q.status == Some(s) && s != ""
    ensures Term(SellerField, IntTerm(n)) in Filters(q, price) <==> q.seller == Some(n)
  {
    var f := Filters(q, price);
    FilterOrder(q, price);
    if Term(StatusField, StringTerm(s)) in f {
      var i :| 0 <= i < |f| && f[i] == Term(StatusField, StringTerm(s));
      FilterTriggers(q, price);
    }
    if Term(SellerField, IntTerm(n)) in f {
      var i :| 0 <= i < |f| && f[i] == Term(SellerField, IntTerm(n));
      FilterTriggers(q, price);
    }
  }

  /** With one price bound only, the as-written range carries exactly that bound. */
  lemma OneSidedPriceRange(q: EsQuery)
    requires q.minPrice.Some? != q.maxPrice.Some?
    ensures BuiltQuery(q).filter[0] == Range(PriceField, NumberRangeQuery(q.minPrice, q.maxPrice))
    ensures q.minPrice.Some? ==> BuiltQuery(q).filter[0].range == NumberRangeQuery(Some(q.minPrice.value), None)
    ensures q.maxPrice.Some? ==> BuiltQuery(q).filter[0].range == NumberRangeQuery(None, Some(q.maxPrice.value))
  {
  }

  /** With both price bounds, the as-written range reads `MaxPrice` for both `Gte` and `Lte`. */
  lemma AliasedBounds(q: EsQuery)
    requires q.minPrice.Some? && q.maxPrice.Some?
    ensures BuiltQuery(q).filter[0] == Range(PriceField, NumberRangeQuery(q.maxPrice, q.maxPrice))
    ensures q.minPrice != q.maxPrice ==> BuiltQuery(q) != IntendedQuery(q)
  {
    assert BuiltQuery(q).filter[0] != IntendedQuery(q).filter[0] || q.minPrice == q.maxPrice;
  }

  /** A concrete input: min 5 and max 10 yield the range [10, 10] instead of [5, 10]. */
  lemma AliasingCounterexample()
    ensures var q := EmptyQuery.(minPrice := Some(5), maxPrice := Some(10));
      && BuiltQuery(q).filter == [Range(PriceField, NumberRangeQuery(Some(10), Some(10)))]
      && IntendedQuery(q).filter == [Range(PriceField, NumberRangeQuery(Some(5), Some(10)))]
  {
  }

  /** The corrected range carries `MinPrice` as `Gte` and `MaxPrice` as `Lte`, each when present. */
  lemma IntendedPriceBounds(q: EsQuery)
    requires q.minPrice.Some? || q.maxPrice.Some?
    ensures IntendedQuery(q).filter[0] == Range(PriceField, NumberRangeQuery(q.minPrice, q.maxPrice))
  {
  }

  /** The two builders differ only when both price bounds are given. */
  lemma BuildersAgreeUnlessBothBounds(q: EsQuery)
    ensures BuiltQuery(q) == IntendedQuery(q) <==> !(q.minPrice.Some? && q.maxPrice.Some?) || q.minPrice == q.maxPrice
  {
    if q.minPrice.Some? && q.maxPrice.Some? && q.minPrice != q.maxPrice {
      AliasedBounds(q);
    }
  }

  /** A query with every criterion absent builds empty `Must` and `Filter` lists: it matches everything. */
  lemma EmptyQueryMatchesAll(q: EsQuery)
    requires q.(from := None, size := None) == EmptyQuery
    ensures BuiltQuery(q) == BoolQuery([], []) && IntendedQuery(q) == BoolQuery([], [])
  {
  }

  /** `From` and `Size` are never read by the builder. */
  lemma PaginationIgnored(q: EsQuery, from: Option<int>, size: Option<int>)
    ensures BuiltQuery(q.(from := from, size := size)) == BuiltQuery(q)
    ensures IntendedQuery(q.(from := from, size := size)) == IntendedQuery(q)
  {
  }
}
