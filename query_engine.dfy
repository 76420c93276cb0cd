/** The post-processing of `fetchCars` (hooks/use-cars.tsx): brand filter,
    free-text search, total count, total pages and the requested page. */
module QueryEngine {
  import opened Cars
  import opened Text
  import opened Seqs

  /** The brand value that means "no brand filter". */
  const AllBrandsSentinel := "all"

  /** The query a caller passes to the hook; a missing `brand` or `search` is "". */
  datatype Query = Query(brand: string, search: string, page: int, limit: nat)

  /** What the hook exposes after a fetch. */
  datatype QueryResult = QueryResult(cars: seq<Car>, totalCars: nat, totalPages: nat)

  /** `car.brand && car.brand.toLowerCase() === brand.toLowerCase()`. */
  predicate MatchesBrand(c: Car, brand: string) {
    c.brand != "" && Lower(c.brand) == Lower(brand)
  }

  /** The brand filter, skipped for an empty brand and for the sentinel "all". */
  function BrandFilter(cars: seq<Car>, brand: string): (r: seq<Car>)
    ensures IsSubsequence(r, cars)
    ensures brand == "" || brand == AllBrandsSentinel ==> r == cars
    ensures brand != "" && brand != AllBrandsSentinel ==>
              forall c :: c in r <==> c in cars && Lower(c.brand) == Lower(brand)
    ensures brand != "" && brand != AllBrandsSentinel ==>
              forall c :: multiset(r)[c] == if Lower(c.brand) == Lower(brand) then multiset(cars)[c] else 0
  {
    if brand != "" && brand != AllBrandsSentinel then
      var p := (c: Car) => MatchesBrand(c, brand);
      FilterIsSubsequence(cars, p);
      FilterCount(cars, p);
      Filter(cars, p)
    else
      SubsequenceOfItself(cars);
      cars
  }

  /** `(car.model && car.model.toLowerCase().includes(t)) ||
      (car.brand && car.brand.toLowerCase().includes(t))` for the lower-cased term `t`. */
  predicate MatchesSearch(c: Car, termLower: string) {
    (c.model != "" && Includes(Lower(c.model), termLower))
    || (c.brand != "" && Includes(Lower(c.brand), termLower))
  }

  /** For a non-empty term the truthiness guards change nothing: an empty
      field includes no non-empty term. */
  lemma MatchesSearchIff(c: Car, term: string)
    requires term != ""
    ensures MatchesSearch(c, Lower(term)) <==>
              Includes(Lower(c.model), Lower(term)) || Includes(Lower(c.brand), Lower(term))
  {
    IncludesInEmpty(Lower(term));
  }

  /** The search filter, skipped for an empty term. */
  function SearchFilter(cars: seq<Car>, search: string): (r: seq<Car>)
    ensures IsSubsequence(r, cars)
    ensures search == "" ==> r == cars
    ensures search != "" ==>
              forall c :: c in r <==>
                (c in cars && (Includes(Lower(c.model), Lower(search)) || Includes(Lower(c.brand), Lower(search))))
    ensures search != "" ==>
              forall c :: multiset(r)[c] ==
                if Includes(Lower(c.model), Lower(search)) || Includes(Lower(c.brand), Lower(search))
                then multiset(cars)[c] else 0
  {
    if search != "" then
      var termLower := Lower(search);
      var p := (c: Car) => MatchesSearch(c, termLower);
      FilterIsSubsequence(cars, p);
      FilterCount(cars, p);
      forall c ensures p(c) <==> Includes(Lower(c.model), termLower) || Includes(Lower(c.brand), termLower) {
        MatchesSearchIff(c, search);
      }
      Filter(cars, p)
    else
      SubsequenceOfItself(cars);
      cars
  }

  /** The brand filter and the search filter commute. */
  lemma FiltersCommute(cars: seq<Car>, brand: string, search: string)
    ensures SearchFilter(BrandFilter(cars, brand), search) == BrandFilter(SearchFilter(cars, search), brand)
  {
    if brand != "" && brand != AllBrandsSentinel && search != "" {
      var termLower := Lower(search);
      FilterCommutes(cars, (c: Car) => MatchesBrand(c, brand), (c: Car) => MatchesSearch(c, termLower));
    }
  }

  /** Whether one car passes both filters of the query. */
  predicate Selected(c: Car, q: Query) {
    && (q.brand == "" || q.brand == AllBrandsSentinel || MatchesBrand(c, q.brand))
    && (q.search == "" || MatchesSearch(c, Lower(q.search)))
  }

  /** The brand filter of a collection with one more car at its end. */
  lemma BrandFilterAppend(all: seq<Car>, c: Car, brand: string)
    ensures BrandFilter(all + [c], brand) ==
              BrandFilter(all, brand) + (if brand == "" || brand == AllBrandsSentinel || MatchesBrand(c, brand) then [c] else [])
  {
    if brand != "" && brand != AllBrandsSentinel {
      var p := (x: Car) => MatchesBrand(x, brand);
      FilterConcat(all, [c], p);
      assert Filter([c], p) == if p(c) then [c] else [];
    }
  }

  /** The search filter of a collection with one more car at its end. */
  lemma SearchFilterAppend(cars: seq<Car>, c: Car, search: string)
    ensures SearchFilter(cars + [c], search) ==
              SearchFilter(cars, search) + (if search == "" || MatchesSearch(c, Lower(search)) then [c] else [])
  {
    if search != "" {
      var termLower := Lower(search);
      var p := (x: Car) => MatchesSearch(x, termLower);
      FilterConcat(cars, [c], p);
      assert Filter([c], p) == if p(c) then [c] else [];
    }
  }

  /** A car appended to the collection, as `addCar` does, ends the filtered list
      exactly when it passes both filters; the cars before it filter as before. */
  lemma AppendedCarFilteredLast(all: seq<Car>, c: Car, q: Query)
    ensures Filtered(all + [c], q) == Filtered(all, q) + (if Selected(c, q) then [c] else [])
  {
    BrandFilterAppend(all, c, q.brand);
    var bc := if q.brand == "" || q.brand == AllBrandsSentinel || MatchesBrand(c, q.brand) then [c] else [];
    var b := BrandFilter(all, q.brand);
    if bc == [] {
      assert b + bc == b;
    } else {
      SearchFilterAppend(b, c, q.search);
    }
  }

  /** `Math.ceil(count / limit)` for a positive limit, counted out page by page:
      one page per started block of `limit` cars. */
  function TotalPages(count: nat, limit: nat): (n: nat)
    requires limit > 0
    ensures count == 0 <==> n == 0
    ensures n <= count
    decreases count
  {
    if count == 0 then 0
    else if count <= limit then 1
    else 1 + TotalPages(count - limit, limit)
  }

  /** `n` pages of `limit` cars hold all `count` cars, and `n - 1` pages do not:
      `n` is the ceiling of `count / limit`. */
  lemma {:induction false} TotalPagesBounds(count: nat, limit: nat)
    requires limit > 0 && count > 0
    ensures var n := TotalPages(count, limit);
            (n - 1) * limit < count <= n * limit
    decreases count
  {
    if count > limit {
      var m := TotalPages(count - limit, limit);
      TotalPagesBounds(count - limit, limit);
      MulSucc(m - 1, limit);
      MulSucc(m, limit);
    }
  }

  /** `(page - 1) * limit`, the index of the first car of a page, counted out
      page by page (see `PageStartIsOffset`). */
  function PageStart(page: int, limit: nat): (skip: int)
    ensures page >= 1 ==> skip >= 0
    decreases if page >= 1 then page - 1 else 1 - page
  {
    if page == 1 then 0
    else if page > 1 then PageStart(page - 1, limit) + limit
    else PageStart(page + 1, limit) - limit
  }

  lemma MulSucc(a: int, b: int)
    ensures (a + 1) * b == a * b + b
  {
  }

  lemma MulNonNegative(a: nat, b: nat)
    ensures a * b >= 0
  {
  }

  /** The page start is the product the hook computes. */
  lemma {:induction false} PageStartIsOffset(page: int, limit: nat)
    ensures PageStart(page, limit) == (page - 1) * limit
    decreases if page >= 1 then page - 1 else 1 - page
  {
    if page > 1 {
      PageStartIsOffset(page - 1, limit);
      MulSucc(page - 2, limit);
    } else if page < 1 {
      PageStartIsOffset(page + 1, limit);
      MulSucc(page - 1, limit);
    }
  }

  /** `filtered.slice((page - 1) * limit, (page - 1) * limit + limit)`. */
  function PageOf(filtered: seq<Car>, page: int, limit: nat): seq<Car> {
    var skip := PageStart(page, limit);
    JsSlice(filtered, skip, skip + limit)
  }

  /** Both filters, brand first. */
  function Filtered(all: seq<Car>, q: Query): seq<Car> {
    SearchFilter(BrandFilter(all, q.brand), q.search)
  }

  /** The whole post-processing step. */
  function RunQuery(all: seq<Car>, q: Query): (r: QueryResult)
    requires q.limit > 0
    ensures |r.cars| <= q.limit
    ensures r.totalCars <= |all|
    ensures r.totalCars == 0 ==> r.cars == [] && r.totalPages == 0
  {
    var filtered := Filtered(all, q);
    JsSliceLength(filtered, PageStart(q.page, q.limit), PageStart(q.page, q.limit) + q.limit);
    SubsequenceLength(filtered, BrandFilter(all, q.brand));
    SubsequenceLength(BrandFilter(all, q.brand), all);
    QueryResult(PageOf(filtered, q.page, q.limit), |filtered|, TotalPages(|filtered|, q.limit))
  }

  /** The slice `[skip, skip + limit)` of the filtered cars, cut at their end. */
  lemma WindowAt(filtered: seq<Car>, skip: nat, limit: nat)
    requires limit > 0
    ensures var stop := if skip + limit <= |filtered| then skip + limit else |filtered|;
            && |JsSlice(filtered, skip, skip + limit)| <= limit
            && (skip < |filtered| ==> JsSlice(filtered, skip, skip + limit) == filtered[skip..stop])
            && (skip >= |filtered| <==> JsSlice(filtered, skip, skip + limit) == [])
  {
    JsSliceWindow(filtered, skip, skip + limit);
    JsSliceLength(filtered, skip, skip + limit);
  }

  /** For a page from 1 on, the page is the window `[skip, skip + limit)` of the
      filtered cars, cut at their end: at most `limit` cars, none past the end. */
  lemma PageWindow(filtered: seq<Car>, page: int, limit: nat)
    requires page >= 1 && limit > 0
    ensures var skip := PageStart(page, limit);
            var stop := if skip + limit <= |filtered| then skip + limit else |filtered|;
            && |PageOf(filtered, page, limit)| <= limit
            && (skip < |filtered| ==> PageOf(filtered, page, limit) == filtered[skip..stop])
            && (skip >= |filtered| <==> PageOf(filtered, page, limit) == [])
  {
    WindowAt(filtered, PageStart(page, limit), limit);
  }

  /** Pages 1 to n, concatenated. */
  function PagesUpTo(filtered: seq<Car>, n: nat, limit: nat): seq<Car> {
    if n == 0 then [] else PagesUpTo(filtered, n - 1, limit) + PageOf(filtered, n, limit)
  }

  /** Pages 1 to n together are the cars before page n + 1 starts. */
  lemma {:induction false} PagesUpToPrefix(filtered: seq<Car>, n: nat, limit: nat)
    requires limit > 0
    ensures var stop := PageStart(n + 1, limit);
            PagesUpTo(filtered, n, limit) == filtered[..if stop <= |filtered| then stop else |filtered|]
  {
    if n > 0 {
      PagesUpToPrefix(filtered, n - 1, limit);
      var skip := PageStart(n, limit);
      assert PageStart(n + 1, limit) == skip + limit;
      WindowAt(filtered, skip, limit);
      var len := |filtered|;
      if skip < len {
        var stop := if skip + limit <= len then skip + limit else len;
        assert filtered[..skip] + filtered[skip..stop] == filtered[..stop];
      }
    }
  }

  /** Concatenating pages 1 to totalPages gives back exactly the filtered cars. */
  lemma AllPagesReassemble(filtered: seq<Car>, limit: nat)
    requires limit > 0
    ensures PagesUpTo(filtered, TotalPages(|filtered|, limit), limit) == filtered
  {
    var n := TotalPages(|filtered|, limit);
    PagesUpToPrefix(filtered, n, limit);
    if |filtered| > 0 {
      TotalPagesBounds(|filtered|, limit);
      PageStartIsOffset(n + 1, limit);
    }
  }

  /** The query result restated: the count is that of the filtered cars, the page
      count is its ceiling over `limit`, and the requested page is their window from
      `PageStart(page, limit)`, that is from `(page - 1) * limit`. */
  lemma RunQueryMeaning(all: seq<Car>, q: Query)
    requires q.limit > 0 && q.page >= 1
    ensures var r := RunQuery(all, q);
            var f := Filtered(all, q);
            var skip := PageStart(q.page, q.limit);
            && r.totalCars == |f|
            && r.totalPages == TotalPages(|f|, q.limit)
            && (r.totalCars > 0 ==> (r.totalPages - 1) * q.limit < r.totalCars <= r.totalPages * q.limit)
            && (skip < |f| ==> r.cars == f[skip..if skip + q.limit <= |f| then skip + q.limit else |f|])
            && (skip >= |f| <==> r.cars == [])
  {
    var f := Filtered(all, q);
    var r := RunQuery(all, q);
    assert r.cars == PageOf(f, q.page, q.limit) && r.totalCars == |f|;
    PageWindow(f, q.page, q.limit);
    if |f| > 0 {
      TotalPagesBounds(|f|, q.limit);
    }
  }

  /** More than one page exactly when more cars than fit on one page. */
  lemma MoreThanOnePage(count: nat, limit: nat)
    requires limit > 0
    ensures TotalPages(count, limit) > 1 <==> count > limit
  {
    var n := TotalPages(count, limit);
    if count > 0 {
      TotalPagesBounds(count, limit);
      if n > 1 {
        MulSucc(n - 2, limit);
        MulNonNegative(n - 2, limit);
      } else {
        assert n == 1;
      }
    }
  }

  /** The pagination control is shown exactly when there is more than one page,
      that is when more cars match than fit on one page (app/page.tsx). */
  lemma PaginationShown(all: seq<Car>, q: Query)
    requires q.limit > 0
    ensures RunQuery(all, q).totalPages > 1 <==> |Filtered(all, q)| > q.limit
  {
    MoreThanOnePage(|Filtered(all, q)|, q.limit);
  }

  /** Two cars, no filter, page 1 of size 5: both cars on one page. */
  lemma TwoCarsOnePage(a: Car, b: Car)
    ensures RunQuery([a, b], Query("", "", 1, 5)) == QueryResult([a, b], 2, 1)
  {
  }

  /** Seven cars, no filter, page 2 of size 5: the last two cars, two pages in all. */
  lemma SevenCarsSecondPage(cars: seq<Car>)
    requires |cars| == 7
    ensures RunQuery(cars, Query("", "", 2, 5)) == QueryResult(cars[5..7], 7, 2)
  {
  }
}
