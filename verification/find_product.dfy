/**
 * The product search of productPattern/findProduct.go: a builder that
 * assembles a JSON-aggregating SELECT (or a COUNT) with optional id and
 * search filters, an ORDER BY taken from a whitelist, and OFFSET/LIMIT
 * placeholders, keeping the bound values alongside; and the engineers that
 * run the steps in order.
 */
module FindProductPattern {
  import opened SqlText
  import opened Entities

  // ---------------------------------------------------------------------------
  // Fixed fragments. Long source lines are split into short pieces.

  const OpenJsonSql: string := "SELECT" + "\n\t\tarray_to_json(array_agg(\"t\"))" + "\n\tFROM ("

  const Select0: string :=
    "\n\t\tSELECT" +
    "\n\t\t\tMAX(\"p\".\"id\") AS \"id\"," +
    "\n\t\t\t\"p\".\"product_title\"," +
    "\n\t\t\tMAX(\"p\".\"product_desc\") AS" +
    " \"product_desc\"," +
    "\n\t\t\tMAX(\"p\".\"product_price\") A"

  lemma Select0Free()
    ensures Free(Select0, '$')
  {
    var p0, p1, p2, p3, p4, p5 := "\n\t\tSELECT", "\n\t\t\tMAX(\"p\".\"id\") AS \"id\",", "\n\t\t\t\"p\".\"product_title\",", "\n\t\t\tMAX(\"p\".\"product_desc\") AS", " \"product_desc\",", "\n\t\t\tMAX(\"p\".\"product_price\") A";
    FreeConcat6(p0, p1, p2, p3, p4, p5, '$');
  }

  const Select1: string :=
    "S \"product_price\"," +
    "\n\t\t\tMAX(\"p\".\"product_color\") A" +
    "S \"product_color\"," +
    "\n\t\t\tjsonb_agg(DISTINCT \"p\".\"pr" +
    "oduct_size\") AS \"product_size\"" +
    ","

  lemma Select1Free()
    ensures Free(Select1, '$')
  {
    var p0, p1, p2, p3, p4, p5 := "S \"product_price\",", "\n\t\t\tMAX(\"p\".\"product_color\") A", "S \"product_color\",", "\n\t\t\tjsonb_agg(DISTINCT \"p\".\"pr", "oduct_size\") AS \"product_size\"", ",";
    FreeConcat6(p0, p1, p2, p3, p4, p5, '$');
  }

  const Select2: string :=
    "\n\t\t\tMAX(\"p\".\"product_sex\") AS " +
    "\"product_sex\"," +
    "\n\t\t\tMAX(\"p\".\"product_category\"" +
    ") AS \"product_category\"," +
    "\n\t\t\tMAX(\"p\".\"product_stock\") A" +
    "S \"product_stock\","

  lemma Select2Free()
    ensures Free(Select2, '$')
  {
    var p0, p1, p2, p3, p4, p5 := "\n\t\t\tMAX(\"p\".\"product_sex\") AS ", "\"product_sex\",", "\n\t\t\tMAX(\"p\".\"product_category\"", ") AS \"product_category\",", "\n\t\t\tMAX(\"p\".\"product_stock\") A", "S \"product_stock\",";
    FreeConcat6(p0, p1, p2, p3, p4, p5, '$');
  }

  const Select3: string :=
    "\n\t\t\t(" +
    "\n\t\t\t\tSELECT" +
    "\n\t\t\t\t\tCOALESCE(array_to_json(a" +
    "rray_agg(\"it\")), '[]'::json)" +
    "\n\t\t\t\tFROM (" +
    "\n\t\t\t\t\tSELECT"

  lemma Select3Free()
    ensures Free(Select3, '$')
  {
    var p0, p1, p2, p3, p4, p5 := "\n\t\t\t(", "\n\t\t\t\tSELECT", "\n\t\t\t\t\tCOALESCE(array_to_json(a", "rray_agg(\"it\")), '[]'::json)", "\n\t\t\t\tFROM (", "\n\t\t\t\t\tSELECT";
    FreeConcat6(p0, p1, p2, p3, p4, p5, '$');
  }

  const Select4: string :=
    "\n\t\t\t\t\t\t\"i\".\"id\"," +
    "\n\t\t\t\t\t\t\"i\".\"filename\"," +
    "\n\t\t\t\t\t\t\"i\".\"url\"" +
    "\n\t\t\t\t\tFROM \"Image\" \"i\"" +
    "\n\t\t\t\t\tWHERE \"i\".\"product_id\" =" +
    " MAX(\"p\".\"id\")"

  lemma Select4Free()
    ensures Free(Select4, '$')
  {
    var p0, p1, p2, p3, p4, p5 := "\n\t\t\t\t\t\t\"i\".\"id\",", "\n\t\t\t\t\t\t\"i\".\"filename\",", "\n\t\t\t\t\t\t\"i\".\"url\"", "\n\t\t\t\t\tFROM \"Image\" \"i\"", "\n\t\t\t\t\tWHERE \"i\".\"product_id\" =", " MAX(\"p\".\"id\")";
    FreeConcat6(p0, p1, p2, p3, p4, p5, '$');
  }

  const Select5: string :=
    "\n\t\t\t\t) AS \"it\"" +
    "\n\t\t\t) AS \"images\"" +
    "\n\t\tFROM \"Product\" \"p\"" +
    "\n\t\tWHERE 1 = 1"

  lemma Select5Free()
    ensures Free(Select5, '$')
  {
    var p0, p1, p2, p3 := "\n\t\t\t\t) AS \"it\"", "\n\t\t\t) AS \"images\"", "\n\t\tFROM \"Product\" \"p\"", "\n\t\tWHERE 1 = 1";
    assert Free(p0, '$') && Free(p1, '$') && Free(p2, '$') && Free(p3, '$');
    FreeConcat(p0, p1, '$');
    FreeConcat(p0 + p1, p2, '$');
    FreeConcat(p0 + p1 + p2, p3, '$');
  }

  const SelectSql: string := Select0 + Select1 + Select2 + Select3 + Select4 + Select5

  /** The SELECT list of the product query, with its images subquery. */
  lemma SelectFree()
    ensures Free(SelectSql, '$')
  {
    Select0Free();
    Select1Free();
    Select2Free();
    Select3Free();
    Select4Free();
    Select5Free();
    FreeConcat(Select0, Select1, '$');
    FreeConcat(Select0 + Select1, Select2, '$');
    FreeConcat(Select0 + Select1 + Select2, Select3, '$');
    FreeConcat(Select0 + Select1 + Select2 + Select3, Select4, '$');
    FreeConcat(Select0 + Select1 + Select2 + Select3 + Select4, Select5, '$');
  }

  const CountSql: string := "\n\t\tSELECT" + "\n\t\t\tCOUNT(*) AS \"count\"" + "\n\t\tFROM \"Product\" \"p\"" + "\n\t\tWHERE 1 = 1"

  const CloseJsonSql: string := "\n\t) AS \"t\";"

  // ---------------------------------------------------------------------------
  // The WHERE filters

  const IdHead: string := "\n\t\tAND \"p\".\"id\" = "
  const IdCond: string := IdHead + "?"
  const SearchA: string := "\n\t\tAND (LOWER(" + "\"p\".\"product_title\") LIKE "
  const SearchB: string := " OR LOWER(" + "\"p\".\"product_desc\") LIKE "
  const SearchC: string := ")"
  const SearchCond: string := SearchA + "?" + SearchB + "?" + SearchC

  /** The value bound to both LIKE operands. */
  function SearchPattern(search: string): string
  {
    "%" + ToLower(search) + "%"
  }

  /** The values `whereQuery` appends: the id, then the search pattern twice. */
  function WhereValues(req: ProductFilter): seq<Value>
  {
    (if req.id != "" then [Str(req.id)] else [])
    + (if req.search != "" then [Str(SearchPattern(req.search)), Str(SearchPattern(req.search))] else [])
  }

  /** The search condition with its two markers numbered k and k + 1. */
  function SearchText(k: nat): string
  {
    SearchA + Placeholder(k) + SearchB + Placeholder(k + 1) + SearchC
  }

  /** The WHERE fragment for each of the four filter combinations. */
  function WhereSql(req: ProductFilter): string
  {
    if req.id != "" && req.search != "" then IdHead + Placeholder(1) + SearchText(2)
    else if req.id != "" then IdHead + Placeholder(1)
    else if req.search != "" then SearchText(1)
    else ""
  }

  // ---------------------------------------------------------------------------
  // Sorting and pagination

  const IdColumn: string := "\"p\".\"id\""
  const TitleColumn: string := "\"p\".\"product_title\""
  const PriceColumn: string := "\"p\".\"product_price\""

  /** `orderByMap` looked up with the lower-cased key; a miss gives the title column. */
  function OrderByColumn(orderBy: string): string
  {
    var key := ToLower(orderBy);
    if key == "id" then IdColumn
    else if key == "title" then TitleColumn
    else if key == "price" then PriceColumn
    else TitleColumn
  }

  /** `sortMap` looked up with the upper-cased key; a miss gives ASC. */
  function SortDirection(sort: string): string
  {
    var key := ToUpper(sort);
    if key == "DESC" then "DESC"
    else if key == "ASC" then "ASC"
    else "ASC"
  }

  /** The request as `sort` leaves it. */
  function Sorted(req: ProductFilter): ProductFilter
  {
    req.(orderBy := OrderByColumn(req.orderBy), sort := SortDirection(req.sort))
  }

  function SortSql(orderBy: string, sort: string): string
  {
    "\n\t\tGROUP BY \"p\".\"product_title\"" + "\n        ORDER BY " + orderBy + " " + sort
  }

  /** `(page - 1) * limit` in Go's 64-bit arithmetic. */
  function Offset(req: ProductFilter): int
  {
    Wrap64(Wrap64(req.page - 1) * req.limit)
  }

  function PageValues(req: ProductFilter): seq<Value>
  {
    [Int(Offset(req)), Int(req.limit)]
  }

  /** Sorting leaves the page and the limit, hence the bound offset and limit, as they were. */
  lemma SortedPage(req: ProductFilter)
    ensures PageValues(Sorted(req)) == PageValues(req)
  {
    var s := Sorted(req);
    assert s.page == req.page && s.limit == req.limit;
  }

  function PageSql(last: nat): string
  {
    "\tOFFSET " + Placeholder(last + 1) + " LIMIT " + Placeholder(last + 2)
  }

  /** The pieces `FindProduct` appends one by one make up `FindText`. */
  lemma FindTextSteps(q: string, req: ProductFilter, v: seq<Value>, last: nat)
    requires last == |v + WhereValues(req)|
    ensures q + OpenJsonSql + SelectSql + WhereSql(req) + SortSql(OrderByColumn(req.orderBy), SortDirection(req.sort))
      + PageSql(last) + CloseJsonSql == q + FindText(req, v)
  {
    var a, b, c, d := OpenJsonSql, SelectSql, WhereSql(req), SortSql(OrderByColumn(req.orderBy), SortDirection(req.sort));
    var e, f := PageSql(last), CloseJsonSql;
    assert FindText(req, v) == a + b + c + d + e + f;
    AppendShift(q, a, b, c, d, e, f);
  }

  /** Appending the pieces one by one is appending their concatenation. */
  lemma AppendShift(q: string, a: string, b: string, c: string, d: string, e: string, f: string)
    ensures q + a + b + c + d + e + f == q + (a + b + c + d + e + f)
  {
  }

  // ---------------------------------------------------------------------------
  // The statements the engineers build

  /** What `FindProduct` appends to a builder already holding the values `before`. */
  function FindText(req: ProductFilter, before: seq<Value>): string
  {
    OpenJsonSql + SelectSql + WhereSql(req)
    + SortSql(OrderByColumn(req.orderBy), SortDirection(req.sort))
    + PageSql(|before + WhereValues(req)|) + CloseJsonSql
  }

  /** The find statement on a fresh builder, and its values. */
  function FindSql(req: ProductFilter): string
  {
    FindText(req, [])
  }

  function FindArgs(req: ProductFilter): seq<Value>
  {
    WhereValues(req) + PageValues(req)
  }

  function CountStatement(req: ProductFilter): string
  {
    CountSql + WhereSql(req)
  }

  /** What the database call of `Result` or `Count` reports. */
  datatype Fetch<T> = GetFailed(err: string) | UnmarshalFailed(err: string) | Fetched(data: T)

  // ---------------------------------------------------------------------------
  // The builder

  class FindProductBuilder {
    var req: ProductFilter
    var query: string
    var lastStackIndex: nat
    var values: seq<Value>

    constructor (req: ProductFilter)
      ensures this.req == req && query == "" && lastStackIndex == 0 && values == []
    {
      this.req := req;
      query := "";
      lastStackIndex := 0;
      values := [];
    }

    method OpenJsonQuery()
      modifies this
      ensures query == old(query) + OpenJsonSql
      ensures req == old(req) && values == old(values) && lastStackIndex == old(lastStackIndex)
    {
      query := query + OpenJsonSql;
    }

    method InitQuery()
      modifies this
      ensures query == old(query) + SelectSql
      ensures req == old(req) && values == old(values) && lastStackIndex == old(lastStackIndex)
    {
      query := query + SelectSql;
    }

    method CountQuery()
      modifies this
      ensures query == old(query) + CountSql
      ensures req == old(req) && values == old(values) && lastStackIndex == old(lastStackIndex)
    {
      query := query + CountSql;
    }

    /**
     * Collects the filter conditions with `?` markers, then numbers the
     * markers: entry i gets `$i+1` for its first marker and, when it is the
     * last entry, the next remaining marker gets `$i+2`.
     */
    method WhereQuery()
      modifies this
      ensures values == old(values) + WhereValues(req) && lastStackIndex == |values|
      ensures query == old(query) + WhereSql(req)
      ensures req == old(req)
    {
      var queryWhere := "";
      var queryWhereStack: seq<string> := [];
      if req.id != "" {
        values := values + [Str(req.id)];
        queryWhereStack := queryWhereStack + [IdCond];
      }
      if req.search != "" {
        var pattern := "%" + ToLower(req.search) + "%";
        values := values + [Str(pattern), Str(pattern)];
        queryWhereStack := queryWhereStack + [SearchCond];
      }
      assert queryWhereStack == WhereStack(req);
      for i := 0 to |queryWhereStack|
        invariant values == old(values) + WhereValues(req) && req == old(req) && query == old(query)
        invariant i == 0 ==> queryWhere == ""
        invariant 0 < i < |queryWhereStack| ==> queryWhere == IdHead + Placeholder(1)
        invariant i == |queryWhereStack| ==> queryWhere == WhereSql(req)
      {
        if i != |queryWhereStack| - 1 {
          WhereInner(req, i, queryWhere);
          queryWhere := queryWhere + ReplaceFirst(queryWhereStack[i], '?', "$" + NatToString(i + 1));
        } else {
          WhereLast(req, i, queryWhere);
          queryWhere := queryWhere + ReplaceFirst(queryWhereStack[i], '?', "$" + NatToString(i + 1));
          queryWhere := ReplaceFirst(queryWhere, '?', "$" + NatToString(i + 2));
        }
      }
      lastStackIndex := |values|;
      query := query + queryWhere;
    }

    /** Rewrites `orderBy` and `sort` to whitelisted text and appends the ORDER BY. */
    method Sort()
      modifies this
      ensures req == Sorted(old(req))
      ensures query == old(query) + SortSql(req.orderBy, req.sort)
      ensures values == old(values) && lastStackIndex == old(lastStackIndex)
    {
      var key := ToLower(req.orderBy);
      var column := if key == "id" then IdColumn else if key == "title" then TitleColumn
        else if key == "price" then PriceColumn else "";
      if column == "" {
        req := req.(orderBy := TitleColumn);
      } else {
        req := req.(orderBy := column);
      }
      var dir := ToUpper(req.sort);
      var direction := if dir == "DESC" then "DESC" else if dir == "ASC" then "ASC" else "";
      if direction == "" {
        req := req.(sort := "ASC");
      } else {
        req := req.(sort := direction);
      }
      query := query + SortSql(req.orderBy, req.sort);
    }

    /** Appends the offset and the limit and their two placeholders after `lastStackIndex`. */
    method Paginate()
      modifies this
      ensures values == old(values) + PageValues(req) && lastStackIndex == |values|
      ensures query == old(query) + PageSql(old(lastStackIndex))
      ensures req == old(req)
    {
      values := values + [Int(Wrap64(Wrap64(req.page - 1) * req.limit)), Int(req.limit)];
      query := query + PageSql(lastStackIndex);
      lastStackIndex := |values|;
    }

    method CloseJsonQuery()
      modifies this
      ensures query == old(query) + CloseJsonSql
      ensures req == old(req) && values == old(values) && lastStackIndex == old(lastStackIndex)
    {
      query := query + CloseJsonSql;
    }

    method ResetQuery()
      modifies this
      ensures query == "" && values == [] && lastStackIndex == 0 && req == old(req)
    {
      query := "";
      values := [];
      lastStackIndex := 0;
    }

    /** Runs the query; only a decoded result resets the builder. */
    method Result(fetch: Fetch<seq<Product>>) returns (products: seq<Product>)
      modifies this
      ensures fetch.Fetched? ==> products == fetch.data && query == "" && values == [] && lastStackIndex == 0
      ensures !fetch.Fetched? ==>
        products == [] && query == old(query) && values == old(values) && lastStackIndex == old(lastStackIndex)
      ensures req == old(req)
    {
      if !fetch.Fetched? {
        return [];
      }
      ResetQuery();
      products := fetch.data;
    }

    /** Runs the count; only a successful read resets the builder. */
    method Count(fetch: Option<Int64>) returns (count: int)
      modifies this
      ensures fetch.Some? ==> count == fetch.value && query == "" && values == [] && lastStackIndex == 0
      ensures fetch.None? ==>
        count == 0 && query == old(query) && values == old(values) && lastStackIndex == old(lastStackIndex)
      ensures req == old(req)
    {
      if fetch.None? {
        return 0;
      }
      ResetQuery();
      count := fetch.value;
    }
  }

  // ---------------------------------------------------------------------------
  // The engineer

  class FindProductEngineer {
    const builder: FindProductBuilder

    constructor (builder: FindProductBuilder)
      ensures this.builder == builder
    {
      this.builder := builder;
    }

    /** open, init, where, sort, paginate, close, in that order. */
    method FindProduct()
      modifies builder
      ensures builder.query == old(builder.query) + FindText(old(builder.req), old(builder.values))
      ensures builder.values == old(builder.values) + WhereValues(old(builder.req)) + PageValues(old(builder.req))
      ensures builder.lastStackIndex == |builder.values|
      ensures builder.req == Sorted(old(builder.req))
      ensures old(builder.query) == "" && old(builder.values) == [] ==>
        builder.query == FindSql(old(builder.req)) && builder.values == FindArgs(old(builder.req))
    {
      var b := builder;
      ghost var q0, v0, r0 := b.query, b.values, b.req;
      b.OpenJsonQuery();
      b.InitQuery();
      b.WhereQuery();
      ghost var w := b.query;
      ghost var sort := SortSql(OrderByColumn(r0.orderBy), SortDirection(r0.sort));
      ghost var li := b.lastStackIndex;
      b.Sort();
      assert b.query == w + sort;
      b.Paginate();
      assert b.query == w + sort + PageSql(li);
      b.CloseJsonQuery();
      assert b.query == w + sort + PageSql(li) + CloseJsonSql;
      FindTextSteps(q0, r0, v0, li);
      SortedPage(r0);
      AppendToEmpty(q0, FindText(r0, v0));
      AppendToEmpty(v0, WhereValues(r0));
    }

    /** count, then where. */
    method CountProduct()
      modifies builder
      ensures builder.query == old(builder.query) + CountSql + WhereSql(builder.req)
      ensures builder.values == old(builder.values) + WhereValues(builder.req)
      ensures builder.lastStackIndex == |builder.values| && builder.req == old(builder.req)
      ensures old(builder.query) == "" && old(builder.values) == [] ==>
        builder.query == CountStatement(builder.req) && builder.values == WhereValues(builder.req)
    {
      ghost var q0, v0 := builder.query, builder.values;
      builder.CountQuery();
      builder.WhereQuery();
      AppendToEmpty(q0, CountSql);
    }
  }

  // ---------------------------------------------------------------------------
  // Marker numbering

  /** The conditions `whereQuery` stacks, with their `?` markers. */
  function WhereStack(req: ProductFilter): seq<string>
  {
    (if req.id != "" then [IdCond] else []) + (if req.search != "" then [SearchCond] else [])
  }

  /** A round of the numbering loop before the last: only the id condition comes before the search. */
  lemma WhereInner(req: ProductFilter, i: nat, w: string)
    requires i < |WhereStack(req)| - 1 && (i == 0 ==> w == "")
    ensures w + ReplaceFirst(WhereStack(req)[i], '?', "$" + NatToString(i + 1)) == IdHead + Placeholder(1)
  {
    assert i == 0 && WhereStack(req)[0] == IdCond;
    IdReplaced();
    AppendToEmpty(w, IdHead + Placeholder(1));
  }

  /** The last round of the numbering loop completes the WHERE fragment. */
  lemma WhereLast(req: ProductFilter, i: nat, w: string)
    requires i == |WhereStack(req)| - 1
    requires i == 0 ==> w == ""
    requires 0 < i ==> w == IdHead + Placeholder(1)
    ensures ReplaceFirst(w + ReplaceFirst(WhereStack(req)[i], '?', "$" + NatToString(i + 1)), '?', "$" + NatToString(i + 2))
      == WhereSql(req)
  {
    if req.search == "" {
      assert i == 0 && WhereStack(req)[i] == IdCond;
      IdReplaced();
      IdMarkerFree();
      AppendToEmpty(w, IdHead + Placeholder(1));
      ReplaceFirstAbsent(IdHead + Placeholder(1), '?', Placeholder(2));
    } else if req.id == "" {
      assert i == 0 && WhereStack(req)[i] == SearchCond;
      SearchReplaced(w, 1);
      AppendToEmpty(w, SearchText(1));
    } else {
      assert i == 1 && WhereStack(req)[i] == SearchCond;
      IdMarkerFree();
      SearchReplaced(w, 2);
    }
  }

  lemma IdReplaced()
    ensures ReplaceFirst(IdCond, '?', Placeholder(1)) == IdHead + Placeholder(1)
  {
    assert Free(IdHead, '?');
    ReplaceFirstAt(IdHead, '?', Placeholder(1), []);
    assert IdCond == IdHead + ['?'] + [];
  }

  lemma IdMarkerFree()
    ensures Free(IdHead + Placeholder(1), '?')
  {
    assert Free(IdHead, '?');
    PlaceholderFree(1, '?');
    FreeConcat(IdHead, Placeholder(1), '?');
  }

  lemma SearchPiecesFree()
    ensures Free(SearchA, '?') && Free(SearchB, '?') && Free(SearchA, '$') && Free(SearchB, '$')
  {
    var a1, a2 := "\n\t\tAND (LOWER(", "\"p\".\"product_title\") LIKE ";
    var b1, b2 := " OR LOWER(", "\"p\".\"product_desc\") LIKE ";
    assert Free(a1, '?') && Free(a2, '?') && Free(b1, '?') && Free(b2, '?');
    assert Free(a1, '$') && Free(a2, '$') && Free(b1, '$') && Free(b2, '$');
    FreeConcat(a1, a2, '?');
    FreeConcat(b1, b2, '?');
    FreeConcat(a1, a2, '$');
    FreeConcat(b1, b2, '$');
  }

  lemma SearchFirstMarker(k: nat)
    ensures ReplaceFirst(SearchCond, '?', Placeholder(k)) == SearchA + Placeholder(k) + SearchB + "?" + SearchC
  {
    var tail := SearchB + "?" + SearchC;
    SearchPiecesFree();
    assert SearchCond == SearchA + ['?'] + tail;
    ReplaceFirstAt(SearchA, '?', Placeholder(k), tail);
  }

  lemma SearchSecondMarker(k: nat)
    ensures ReplaceFirst(SearchA + Placeholder(k) + SearchB + "?" + SearchC, '?', Placeholder(k + 1)) == SearchText(k)
  {
    var head := SearchA + Placeholder(k) + SearchB;
    SearchPiecesFree();
    PlaceholderFree(k, '?');
    FreeConcat(SearchA, Placeholder(k), '?');
    FreeConcat(SearchA + Placeholder(k), SearchB, '?');
    assert head + "?" + SearchC == head + ['?'] + SearchC;
    ReplaceFirstAt(head, '?', Placeholder(k + 1), SearchC);
  }

  /** Numbering the two markers of the search condition after a marker-free prefix. */
  lemma SearchReplaced(pre: string, k: nat)
    requires Free(pre, '?')
    ensures ReplaceFirst(pre + ReplaceFirst(SearchCond, '?', Placeholder(k)), '?', Placeholder(k + 1))
      == pre + SearchText(k)
  {
    SearchFirstMarker(k);
    var q := SearchA + Placeholder(k) + SearchB + "?" + SearchC;
    ReplaceFirstSkip(pre, q, '?', Placeholder(k + 1));
    SearchSecondMarker(k);
  }

  // ---------------------------------------------------------------------------
  // Properties

  lemma SearchTextPlaceholders(k: nat)
    ensures Placeholders(SearchText(k)) == [k, k + 1]
    ensures Closed(SearchText(k)) && Free(SearchText(k), '?')
  {
    var pk, pk1 := Placeholder(k), Placeholder(k + 1);
    SearchPiecesFree();
    PlaceholdersNone(SearchA);
    PlaceholdersNone(SearchB);
    PlaceholdersNone(SearchC);
    PlaceholderReads(k);
    PlaceholderReads(k + 1);
    PlaceholdersConcat(SearchA, pk);
    PlaceholdersConcat(SearchA + pk, SearchB);
    PlaceholdersConcat(SearchA + pk + SearchB, pk1);
    PlaceholdersConcat(SearchA + pk + SearchB + pk1, SearchC);
    PlaceholderFree(k, '?');
    PlaceholderFree(k + 1, '?');
    FreeConcat(SearchA, pk, '?');
    FreeConcat(SearchA + pk, SearchB, '?');
    FreeConcat(SearchA + pk + SearchB, pk1, '?');
    FreeConcat(SearchA + pk + SearchB + pk1, SearchC, '?');
  }

  lemma IdTextPlaceholders(a: nat)
    ensures Placeholders(IdHead + Placeholder(a)) == [a]
    ensures Closed(IdHead + Placeholder(a)) && Free(IdHead + Placeholder(a), '?')
  {
    assert Free(IdHead, '$') && Free(IdHead, '?');
    PlaceholdersNone(IdHead);
    PlaceholderReads(a);
    PlaceholdersConcat(IdHead, Placeholder(a));
    PlaceholderFree(a, '?');
    FreeConcat(IdHead, Placeholder(a), '?');
  }

  lemma BothFiltersPlaceholders(a: nat)
    ensures Placeholders(IdHead + Placeholder(a) + SearchText(a + 1)) == [a, a + 1, a + 2]
    ensures Free(IdHead + Placeholder(a) + SearchText(a + 1), '?') && Closed(IdHead + Placeholder(a) + SearchText(a + 1))
  {
    IdTextPlaceholders(a);
    SearchTextPlaceholders(a + 1);
    PlaceholdersConcat(IdHead + Placeholder(a), SearchText(a + 1));
    FreeConcat(IdHead + Placeholder(a), SearchText(a + 1), '?');
  }

  /**
   * For every combination of filters the WHERE fragment numbers its
   * placeholders $1..$n left to right, n being the number of values it
   * binds, and no `?` is left.
   */
  lemma WherePlaceholders(req: ProductFilter)
    ensures Placeholders(WhereSql(req)) == OneTo(|WhereValues(req)|)
    ensures Free(WhereSql(req), '?') && Closed(WhereSql(req))
  {
    if req.id != "" && req.search != "" {
      BothFiltersPlaceholders(1);
      assert OneTo(3) == [1, 2, 3];
    } else if req.id != "" {
      IdTextPlaceholders(1);
      assert OneTo(1) == [1];
    } else if req.search != "" {
      SearchTextPlaceholders(1);
      assert OneTo(2) == [1, 2];
    }
  }

  /** An id filter binds the id, first; a search filter binds the lower-cased pattern twice, last. */
  lemma WhereValuesShape(req: ProductFilter)
    ensures |WhereValues(req)| == (if req.id != "" then 1 else 0) + (if req.search != "" then 2 else 0)
    ensures req.id != "" ==> WhereValues(req)[0] == Str(req.id)
    ensures req.search != "" ==> var n := |WhereValues(req)|;
      WhereValues(req)[n - 2] == WhereValues(req)[n - 1] == Str(SearchPattern(req.search))
  {
  }

  lemma OpenJsonFree()
    ensures Free(OpenJsonSql, '$')
  {
    var a, b, c := "SELECT", "\n\t\tarray_to_json(array_agg(\"t\"))", "\n\tFROM (";
    assert Free(a, '$') && Free(b, '$') && Free(c, '$');
    FreeConcat(a, b, '$');
    FreeConcat(a + b, c, '$');
  }

  lemma CountSqlFree()
    ensures Free(CountSql, '$')
  {
    var a, b, c, d := "\n\t\tSELECT", "\n\t\t\tCOUNT(*) AS \"count\"", "\n\t\tFROM \"Product\" \"p\"", "\n\t\tWHERE 1 = 1";
    assert Free(a, '$') && Free(b, '$') && Free(c, '$') && Free(d, '$');
    FreeConcat(a, b, '$');
    FreeConcat(a + b, c, '$');
    FreeConcat(a + b + c, d, '$');
  }

  lemma SortSqlPlaceholders(orderBy: string, sort: string)
    requires Free(orderBy, '$') && Free(sort, '$')
    ensures Placeholders(SortSql(orderBy, sort)) == [] && Closed(SortSql(orderBy, sort))
  {
    var a, b := "\n\t\tGROUP BY \"p\".\"product_title\"", "\n        ORDER BY ";
    assert Free(a, '$') && Free(b, '$') && Free(" ", '$');
    FreeConcat(a, b, '$');
    FreeConcat(a + b, orderBy, '$');
    FreeConcat(a + b + orderBy, " ", '$');
    FreeConcat(a + b + orderBy + " ", sort, '$');
    PlaceholdersNone(SortSql(orderBy, sort));
  }

  lemma PagePlaceholders(last: nat)
    ensures Placeholders(PageSql(last)) == [last + 1, last + 2] && Closed(PageSql(last))
  {
    var a, b := "\tOFFSET ", " LIMIT ";
    var p1, p2 := Placeholder(last + 1), Placeholder(last + 2);
    PageWordsFree();
    PlaceholderReads(last + 1);
    PlaceholderReads(last + 2);
    PlaceholdersConcat(a, p1);
    assert Placeholders(a + p1) == [last + 1];
    PlaceholdersConcat(a + p1, b);
    assert Placeholders(a + p1 + b) == [last + 1];
    PlaceholdersConcat(a + p1 + b, p2);
    assert PageSql(last) == a + p1 + b + p2;
  }

  lemma PageWordsFree()
    ensures Placeholders("\tOFFSET ") == [] && Placeholders(" LIMIT ") == [] && Closed(" LIMIT ")
  {
    assert Free("\tOFFSET ", '$') && Free(" LIMIT ", '$');
    PlaceholdersNone("\tOFFSET ");
    PlaceholdersNone(" LIMIT ");
  }

  /** The sort text comes from the two whitelists, so it carries no placeholder. */
  lemma SortedTextFree(req: ProductFilter)
    ensures Free(OrderByColumn(req.orderBy), '$') && Free(SortDirection(req.sort), '$')
  {
  }

  lemma CloseJsonPlaceholders()
    ensures Placeholders(CloseJsonSql) == [] && Closed(CloseJsonSql)
  {
    assert Free(CloseJsonSql, '$');
    PlaceholdersNone(CloseJsonSql);
  }

  /** The pieces of the find statement put together. */
  lemma FindComposed(w: string, n: nat, orderBy: string, sort: string)
    requires Placeholders(w) == OneTo(n) && Closed(w)
    requires Free(orderBy, '$') && Free(sort, '$')
    ensures Placeholders(OpenJsonSql + SelectSql + w + SortSql(orderBy, sort) + PageSql(n) + CloseJsonSql)
      == OneTo(n + 2)
  {
    var head := OpenJsonSql + SelectSql;
    var sortText, page := SortSql(orderBy, sort), PageSql(n);
    OpenJsonFree();
    SelectFree();
    FreeConcat(OpenJsonSql, SelectSql, '$');
    PlaceholdersNone(head);
    PlaceholdersConcat(head, w);
    assert Placeholders(head + w) == OneTo(n);
    SortSqlPlaceholders(orderBy, sort);
    PlaceholdersConcat(head + w, sortText);
    assert Placeholders(head + w + sortText) == OneTo(n);
    PagePlaceholders(n);
    PlaceholdersConcat(head + w + sortText, page);
    OneToPair(n);
    assert Placeholders(head + w + sortText + page) == OneTo(n + 2);
    CloseJsonPlaceholders();
    PlaceholdersConcat(head + w + sortText + page, CloseJsonSql);
  }

  /** On a fresh builder the find statement's placeholders are $1..$n, one per value, in order. */
  lemma FindPlaceholders(req: ProductFilter)
    ensures Placeholders(FindSql(req)) == OneTo(|FindArgs(req)|)
  {
    WherePlaceholders(req);
    SortedTextFree(req);
    assert [] + WhereValues(req) == WhereValues(req);
    FindComposed(WhereSql(req), |WhereValues(req)|, OrderByColumn(req.orderBy), SortDirection(req.sort));
  }

  /** The count statement's placeholders are $1..$n, one per value. */
  lemma CountPlaceholders(req: ProductFilter)
    ensures Placeholders(CountStatement(req)) == OneTo(|WhereValues(req)|)
  {
    CountSqlFree();
    PlaceholdersNone(CountSql);
    WherePlaceholders(req);
    PlaceholdersConcat(CountSql, WhereSql(req));
  }

  lemma LowerUpperChar(c: char)
    ensures LowerChar(UpperChar(c)) == LowerChar(c) && UpperChar(LowerChar(c)) == UpperChar(c)
  {
  }

  /** The ORDER BY key is matched without regard to case, and only id and price select another column. */
  lemma OrderByCases(orderBy: string)
    ensures OrderByColumn(ToUpper(orderBy)) == OrderByColumn(orderBy)
    ensures OrderByColumn(orderBy) == IdColumn <==> ToLower(orderBy) == "id"
    ensures OrderByColumn(orderBy) == PriceColumn <==> ToLower(orderBy) == "price"
    ensures OrderByColumn(orderBy) in {IdColumn, TitleColumn, PriceColumn}
  {
    forall i | 0 <= i < |orderBy|
      ensures ToLower(ToUpper(orderBy))[i] == ToLower(orderBy)[i]
    {
      LowerUpperChar(orderBy[i]);
    }
    assert ToLower(ToUpper(orderBy)) == ToLower(orderBy);
  }

  /** The direction is matched without regard to case, defaults to ASC, and normalising again changes nothing. */
  lemma SortDirectionCases(sort: string)
    ensures SortDirection(ToLower(sort)) == SortDirection(sort)
    ensures SortDirection(sort) == "DESC" <==> ToUpper(sort) == "DESC"
    ensures SortDirection(sort) in {"ASC", "DESC"}
    ensures SortDirection(SortDirection(sort)) == SortDirection(sort)
  {
    forall i | 0 <= i < |sort|
      ensures ToUpper(ToLower(sort))[i] == ToUpper(sort)[i]
    {
      LowerUpperChar(sort[i]);
    }
    assert ToUpper(ToLower(sort)) == ToUpper(sort);
    assert ToUpper("ASC") == "ASC";
    assert ToUpper("DESC") == "DESC";
  }

  /** `sort` leaves column text in `orderBy`, which is no key: sorting the same request again selects the title. */
  lemma SecondSortSelectsTitle(req: ProductFilter)
    ensures Sorted(Sorted(req)).orderBy == TitleColumn
    ensures Sorted(Sorted(req)).sort == Sorted(req).sort
  {
    var c := OrderByColumn(req.orderBy);
    assert |ToLower(c)| == |c| >= 8;
    SortDirectionCases(req.sort);
  }

  /** Without overflow the offset is `(page - 1) * limit`; nothing clamps it, so page 0 gives a negative offset. */
  lemma OffsetUnclamped(req: ProductFilter)
    ensures IsInt64((req.page - 1) * req.limit) ==> Offset(req) == (req.page - 1) * req.limit
    ensures req.page == 0 && req.limit > 0 ==> Offset(req) < 0
  {
    Wrap64Props(req.page - 1);
    Wrap64Props((req.page - 1) * req.limit);
  }
}
