/** The state of the `useCars` hook and its remote-then-local read
    (`fetchCars` in hooks/use-cars.tsx). */
module UseCars {
  import opened Wrappers
  import opened Cars
  import opened Http
  import opened Storage
  import opened QueryEngine

  /** What `response.json()` yields for a 2xx answer. */
  datatype Payload = JsonArray(cars: seq<Car>) | JsonOther | NotJson

  /** The outcome of the GET request. */
  datatype ListResponse = Listed(status: int, body: Payload) | ListNetworkError

  /** The collection the API served, or None when the read must fall back to
      local storage (rejected fetch, non-2xx status, body that is not JSON). */
  function ApiCollection(resp: ListResponse): (r: Option<seq<Car>>)
    ensures r.Some? <==> resp.Listed? && Ok(resp.status) && !resp.body.NotJson?
    ensures r.Some? && resp.body.JsonArray? ==> r.value == resp.body.cars
    ensures r.Some? && resp.body.JsonOther? ==> r.value == []
  {
    match resp
    case ListNetworkError => None
    case Listed(status, body) =>
      if !Ok(status) then None
      else match body
        case JsonArray(cars) => Some(cars)
        case JsonOther => Some([])
        case NotJson => None
  }

  /** A non-2xx status is handled exactly like a network error. */
  lemma HttpErrorIsNetworkError(status: int, body: Payload)
    requires !Ok(status)
    ensures ApiCollection(Listed(status, body)) == ApiCollection(ListNetworkError)
  {
  }

  class CarsHook {
    const store: CarStore
    var cars: seq<Car>
    var loading: bool
    var totalPages: nat
    var totalCars: nat
    var usingLocalStorage: bool

    /** The hook's initial state. */
    constructor (store: CarStore)
      ensures this.store == store
      ensures cars == [] && loading && totalPages == 1 && totalCars == 0 && !usingLocalStorage
    {
      this.store := store;
      cars := [];
      loading := true;
      totalPages := 1;
      totalCars := 0;
      usingLocalStorage := false;
    }

    /** `fetchCars()` for the query `q`, given the outcome of the GET request and
        whether the browser accepts the cache write. On success the API's
        collection is cached and the flag cleared; on any failure the local
        collection is used and the flag set. Either way the exposed state is the
        query engine's result over the collection that served. */
    method FetchCars(resp: ListResponse, q: Query, accepted: bool)
      requires q.limit > 0
      modifies this, store
      ensures !loading
      ensures ApiCollection(resp).Some? ==>
                && store.slot == SaveSlot(old(store.slot), ApiCollection(resp).value, accepted)
                && store.seed == old(store.seed)
                && !usingLocalStorage
                && RunQuery(ApiCollection(resp).value, q) == QueryResult(cars, totalCars, totalPages)
      ensures ApiCollection(resp).None? ==>
                && store.slot == old(store.slot) && store.seed == old(store.seed)
                && usingLocalStorage
                && RunQuery(old(store.Read()), q) == QueryResult(cars, totalCars, totalPages)
    {
      loading := true;
      var allCars: seq<Car> := [];
      var served := false;
      if resp.Listed? && Ok(resp.status) {
        match resp.body
        case JsonArray(data) =>
          allCars := data;
          served := true;
        case JsonOther =>
          allCars := [];
          served := true;
        case NotJson =>
      }
      if served {
        usingLocalStorage := false;
        store.Save(allCars, accepted);
      } else {
        allCars := store.Read();
        usingLocalStorage := true;
      }
      var result := RunQuery(allCars, q);
      totalCars := result.totalCars;
      totalPages := result.totalPages;
      cars := result.cars;
      loading := false;
    }
  }
}
