/** The local collection store of hooks/use-cars.tsx: one storage key holding
    the whole serialized collection, read and rewritten in full by every
    local operation, with the built-in `mockCars` as the fallback. */
module Storage {
  import opened Wrappers
  import opened Cars
  import opened Seqs

  /** What `localStorage.getItem` and `JSON.parse` make of the storage key.
      Missing stands for both `null` and the empty string (both falsy). */
  datatype Slot = Missing | Unparsable | NotAnArray | Stored(cars: seq<Car>)

  /** `getCarsFromStorage`: the stored array when the key parses to one,
      otherwise the seed collection. */
  function ReadSlot(slot: Slot, seed: seq<Car>): seq<Car> {
    if slot.Stored? then slot.cars else seed
  }

  /** `saveCarsToStorage`: the slot after a write that the browser accepted or
      (quota, serialization) silently refused. */
  function SaveSlot(slot: Slot, cars: seq<Car>, accepted: bool): Slot {
    if accepted then Stored(cars) else slot
  }

  /** Whatever the slot held, nothing valid falls back to the seed, and a
      stored array is returned as is. */
  lemma ReadSlotCases(slot: Slot, seed: seq<Car>)
    ensures slot.Stored? ==> ReadSlot(slot, seed) == slot.cars
    ensures slot in {Missing, Unparsable, NotAnArray} ==> ReadSlot(slot, seed) == seed
  {
  }

  /** An accepted write is what the next read returns. */
  lemma ReadAfterSave(slot: Slot, seed: seq<Car>, cars: seq<Car>)
    ensures ReadSlot(SaveSlot(slot, cars, true), seed) == cars
  {
  }

  /** Writing back what was read changes no record, whether or not the write is accepted. */
  lemma SaveWhatWasReadIsIdempotent(slot: Slot, seed: seq<Car>, accepted: bool)
    ensures ReadSlot(SaveSlot(slot, ReadSlot(slot, seed), accepted), seed) == ReadSlot(slot, seed)
  {
  }

  /** Some car has this id. */
  ghost predicate HasId(cars: seq<Car>, id: string) {
    exists k :: 0 <= k < |cars| && cars[k].id == id
  }

  /** `findIndex((car) => car.id === id)`: the first index with that id, or -1. */
  function FirstIndex(cars: seq<Car>, id: string): (i: int)
    ensures -1 <= i < |cars|
    ensures i == -1 <==> !HasId(cars, id)
    ensures i >= 0 ==> cars[i].id == id && forall k :: 0 <= k < i ==> cars[k].id != id
    decreases |cars|
  {
    if cars == [] then -1
    else if cars[0].id == id then 0
    else
      var j := FirstIndex(cars[1..], id);
      assert forall k :: 0 < k < |cars| ==> cars[k] == cars[1..][k - 1];
      if j == -1 then -1 else j + 1
  }

  /** `find((car) => car.id === id) || null`: the first car with that id. */
  function FindCar(cars: seq<Car>, id: string): (r: Option<Car>)
    ensures r.None? <==> !HasId(cars, id)
    ensures r.Some? ==> r.value in cars && r.value.id == id
    ensures r.Some? ==> exists i :: 0 <= i < |cars| && cars[i] == r.value &&
                                    forall k :: 0 <= k < i ==> cars[k].id != id
  {
    var i := FirstIndex(cars, id);
    if i == -1 then None else Some(cars[i])
  }

  /** `filter((car) => car.id !== id)`: every car with that id removed, the rest in order. */
  function WithoutId(cars: seq<Car>, id: string): (r: seq<Car>)
    ensures IsSubsequence(r, cars)
    ensures forall c :: c in r <==> c in cars && c.id != id
    ensures forall c :: multiset(r)[c] == if c.id != id then multiset(cars)[c] else 0
    ensures |r| == |cars| <==> !HasId(cars, id)
    ensures HasId(cars, id) ==> |r| < |cars|
    ensures !HasId(cars, id) ==> r == cars
  {
    var p := (c: Car) => c.id != id;
    FilterIsSubsequence(cars, p);
    FilterKeepsLength(cars, p);
    FilterCount(cars, p);
    FilterAll(cars, p);
    Filter(cars, p)
  }

  /** `currentCars[carIndex] = { ...currentCars[carIndex], ...updatedData }`
      with carIndex the first index with that id; no change when there is none. */
  function UpdateFirst(cars: seq<Car>, id: string, patch: CarPatch): (r: seq<Car>)
    ensures |r| == |cars|
    ensures !HasId(cars, id) ==> r == cars
    ensures HasId(cars, id) ==>
              var i := FirstIndex(cars, id);
              && r[i] == Merge(cars[i], patch)
              && forall k :: 0 <= k < |cars| && k != i ==> r[k] == cars[k]
  {
    var i := FirstIndex(cars, id);
    if i == -1 then cars else cars[i := Merge(cars[i], patch)]
  }

  /** The store: the storage key's content and the module-level `mockCars`
      array, which `updateCar` can change through an alias. */
  class CarStore {
    var slot: Slot
    var seed: seq<Car>

    constructor (initial: Slot)
      ensures slot == initial && seed == MockCars
    {
      slot := initial;
      seed := MockCars;
    }

    /** `getCarsFromStorage()`. */
    function Read(): seq<Car>
      reads this
    {
      ReadSlot(slot, seed)
    }

    /** `saveCarsToStorage(carsData)`; a refused write leaves the slot as it was. */
    method Save(carsData: seq<Car>, accepted: bool)
      modifies this
      ensures slot == SaveSlot(old(slot), carsData, accepted)
      ensures seed == old(seed)
    {
      if accepted {
        slot := Stored(carsData);
      }
    }

    /** `addCar(newCar)` with the generated id passed in: returns the input with that
        id, and the stored collection becomes the old one followed by that car. */
    method AddCar(newCar: CarInput, id: string, accepted: bool) returns (carWithId: Car)
      modifies this
      ensures carWithId == WithId(newCar, id)
      ensures slot == SaveSlot(old(slot), old(Read()) + [carWithId], accepted)
      ensures seed == old(seed)
      ensures accepted ==> |Read()| == |old(Read())| + 1 && Read()[..|old(Read())|] == old(Read())
      ensures accepted ==> Read()[|old(Read())|] == carWithId
    {
      carWithId := WithId(newCar, id);
      var currentCars := Read();
      var updatedCars := currentCars + [carWithId];
      Save(updatedCars, accepted);
    }

    /** `updateCar(id, updatedData)`: false without a write when no car has the id;
        otherwise the first car with the id is merged with the update and the
        collection written back. When the collection came from `mockCars`, the
        assignment changes `mockCars` itself. */
    method UpdateCar(id: string, updatedData: CarPatch, accepted: bool) returns (ok: bool)
      modifies this
      ensures ok <==> HasId(old(Read()), id)
      ensures !ok ==> slot == old(slot) && seed == old(seed)
      ensures ok ==> slot == SaveSlot(old(slot), UpdateFirst(old(Read()), id, updatedData), accepted)
      ensures ok ==> seed == if old(slot).Stored? then old(seed) else UpdateFirst(old(Read()), id, updatedData)
    {
      var fromSeed := !slot.Stored?;
      var currentCars := Read();
      var carIndex := FirstIndex(currentCars, id);
      if carIndex == -1 {
        return false;
      }
      currentCars := currentCars[carIndex := Merge(currentCars[carIndex], updatedData)];
      if fromSeed {
        seed := currentCars;
      }
      Save(currentCars, accepted);
      ok := true;
    }

    /** `deleteCar(id)`: removes every car with the id; false without a write when
        nothing was removed. */
    method DeleteCar(id: string, accepted: bool) returns (ok: bool)
      modifies this
      ensures ok <==> HasId(old(Read()), id)
      ensures slot == if ok then SaveSlot(old(slot), WithoutId(old(Read()), id), accepted) else old(slot)
      ensures seed == old(seed)
    {
      var currentCars := Read();
      var filteredCars := WithoutId(currentCars, id);
      if |filteredCars| == |currentCars| {
        return false;
      }
      Save(filteredCars, accepted);
      ok := true;
    }

    /** `getCar(id)`: the first car with the id in the current collection. */
    function GetCar(id: string): (r: Option<Car>)
      reads this
      ensures r.None? <==> !HasId(Read(), id)
      ensures r.Some? ==> r.value in Read() && r.value.id == id
      ensures r.Some? ==> exists i :: 0 <= i < |Read()| && Read()[i] == r.value &&
                                      forall k :: 0 <= k < i ==> Read()[k].id != id
    {
      FindCar(Read(), id)
    }

    /** The mount effect: when the key is absent or empty, write `mockCars`. */
    method SeedIfEmpty(accepted: bool)
      modifies this
      ensures slot == if old(slot) == Missing then SaveSlot(Missing, old(seed), accepted) else old(slot)
      ensures seed == old(seed)
    {
      if slot == Missing {
        Save(seed, accepted);
      }
    }
  }
}
