/** The home page of app/page.tsx: the brand list, the page, search and brand
    state, and adding a car remote first, locally on failure. */
module Home {
  import opened Cars
  import opened Seqs
  import opened Http
  import opened Storage
  import opened QueryEngine
  import opened UseCars

  /** The page size the home page asks the hook for. */
  const PageSize: nat := 5

  /** `cars.map((car) => car.brand)`. */
  function BrandsOf(cars: seq<Car>): (r: seq<string>)
    ensures |r| == |cars|
    ensures forall i :: 0 <= i < |cars| ==> r[i] == cars[i].brand
  {
    seq(|cars|, i requires 0 <= i < |cars| => cars[i].brand)
  }

  /** `[...new Set(cars.map((car) => car.brand))].filter(Boolean)`: each non-empty
      brand once, in the order in which the brands first occur. */
  function AllBrandsOf(cars: seq<Car>): (r: seq<string>)
    ensures forall b :: b in r <==> b != "" && b in BrandsOf(cars)
    ensures InFirstOccurrenceOrder(r, BrandsOf(cars))
    ensures NoDuplicates(r)
  {
    var brands := BrandsOf(cars);
    var distinct := Distinct(brands);
    var truthy := (b: string) => b != "";
    var key := (b: string) => IndexOf(brands, b);
    DistinctFirstOccurrenceOrder(brands);
    assert IncreasingBy(distinct, key);
    FilterKeepsIncreasing(distinct, truthy, key);
    Filter(distinct, truthy)
  }

  /** What adding a car reported. Adding never fails: the local fallback always
      returns a car, so the "Failed to add car" branch cannot be reached. */
  datatype AddOutcome = AddedViaApi | AddedLocally(car: Car)

  class HomePage {
    const hook: CarsHook
    var currentPage: int
    var searchTerm: string
    var selectedBrand: string
    var refreshKey: int
    var allBrands: seq<string>

    constructor (hook: CarsHook)
      ensures this.hook == hook
      ensures currentPage == 1 && searchTerm == "" && selectedBrand == AllBrandsSentinel
      ensures refreshKey == 0 && allBrands == []
    {
      this.hook := hook;
      currentPage := 1;
      searchTerm := "";
      selectedBrand := AllBrandsSentinel;
      refreshKey := 0;
      allBrands := [];
    }

    /** The query the page hands to the hook. */
    function CurrentQuery(): Query
      reads this
    {
      Query(selectedBrand, searchTerm, currentPage, PageSize)
    }

    /** The brand effect: reads the storage key directly (not through the seed
        fallback). Only a stored array changes the list; an absent key, an
        unparsable value and a non-array (whose `map` throws) leave it as it was. */
    method FetchAllBrands()
      modifies this
      ensures hook.store.slot.Stored? ==> allBrands == AllBrandsOf(hook.store.slot.cars)
      ensures !hook.store.slot.Stored? ==> allBrands == old(allBrands)
      ensures currentPage == old(currentPage) && searchTerm == old(searchTerm)
      ensures selectedBrand == old(selectedBrand) && refreshKey == old(refreshKey)
    {
      match hook.store.slot
      case Stored(parsedCars) =>
        allBrands := AllBrandsOf(parsedCars);
      case _ =>
    }

    /** `handleRefresh` (also the list's `onCarDeleted`): bumps `refreshKey` and
        re-fetches the current query, given the outcome of the GET and whether
        the browser accepts the cache write. */
    method HandleRefresh(refetch: ListResponse, cacheAccepted: bool)
      modifies this, hook, hook.store
      ensures refreshKey == old(refreshKey) + 1
      ensures currentPage == old(currentPage) && searchTerm == old(searchTerm)
      ensures selectedBrand == old(selectedBrand) && allBrands == old(allBrands)
      ensures hook.store.seed == old(hook.store.seed)
      ensures var api := ApiCollection(refetch);
              && hook.usingLocalStorage == api.None?
              && hook.store.slot == (if api.Some? then SaveSlot(old(hook.store.slot), api.value, cacheAccepted)
                                     else old(hook.store.slot))
              && QueryResult(hook.cars, hook.totalCars, hook.totalPages)
                 == RunQuery(if api.Some? then api.value else old(hook.store.Read()), CurrentQuery())
    {
      refreshKey := refreshKey + 1;
      hook.FetchCars(refetch, CurrentQuery(), cacheAccepted);
    }

    /** `handlePageChange`. */
    method HandlePageChange(page: int)
      modifies this
      ensures currentPage == page
      ensures searchTerm == old(searchTerm) && selectedBrand == old(selectedBrand)
      ensures refreshKey == old(refreshKey) && allBrands == old(allBrands)
    {
      currentPage := page;
    }

    /** `handleSearchChange`: a new term sends the user back to page 1. */
    method HandleSearchChange(value: string)
      modifies this
      ensures searchTerm == value && currentPage == 1
      ensures selectedBrand == old(selectedBrand) && refreshKey == old(refreshKey) && allBrands == old(allBrands)
    {
      searchTerm := value;
      currentPage := 1;
    }

    /** `handleBrandChange`: a new brand sends the user back to page 1. */
    method HandleBrandChange(value: string)
      modifies this
      ensures selectedBrand == value && currentPage == 1
      ensures searchTerm == old(searchTerm) && refreshKey == old(refreshKey) && allBrands == old(allBrands)
    {
      selectedBrand := value;
      currentPage := 1;
    }

    /** `handleAddCar(carData)`, given the POST outcome, the id the local path
        generates, whether the browser accepts each local write, and the outcome
        of the GET of the re-fetch that follows. A 2xx POST is the whole add; any
        other outcome adds the car locally. Both report success, bump `refreshKey`
        and re-fetch the current query. */
    method HandleAddCar(carData: CarInput, post: WriteResponse, newId: string, addAccepted: bool,
                        refetch: ListResponse, cacheAccepted: bool) returns (outcome: AddOutcome)
      modifies this, hook, hook.store
      ensures outcome == if Succeeded(post) then AddedViaApi else AddedLocally(WithId(carData, newId))
      ensures refreshKey == old(refreshKey) + 1
      ensures currentPage == old(currentPage) && searchTerm == old(searchTerm)
      ensures selectedBrand == old(selectedBrand) && allBrands == old(allBrands)
      ensures hook.store.seed == old(hook.store.seed)
      ensures var added := if Succeeded(post) then old(hook.store.slot)
                           else SaveSlot(old(hook.store.slot), old(hook.store.Read()) + [WithId(carData, newId)], addAccepted);
              var api := ApiCollection(refetch);
              && hook.usingLocalStorage == api.None?
              && hook.store.slot == (if api.Some? then SaveSlot(added, api.value, cacheAccepted) else added)
              && QueryResult(hook.cars, hook.totalCars, hook.totalPages)
                 == RunQuery(if api.Some? then api.value else ReadSlot(added, old(hook.store.seed)), CurrentQuery())
    {
      var success := false;
      if Succeeded(post) {
        success := true;
        outcome := AddedViaApi;
      } else {
        var newCar := hook.store.AddCar(carData, newId, addAccepted);
        success := true;
        outcome := AddedLocally(newCar);
      }
      if success {
        refreshKey := refreshKey + 1;
        hook.FetchCars(refetch, CurrentQuery(), cacheAccepted);
      }
    }
  }
}
