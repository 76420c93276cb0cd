/** Deleting a car from the list of components/car-list.tsx: remote first,
    locally on failure. */
module CarListing {
  import opened Http
  import opened Storage

  /** The message shown when neither source deleted the car. */
  const FailedToDelete := "Failed to delete car"

  datatype DeleteOutcome = DeletedViaApi | DeletedLocally | DeleteFailed(message: string)

  class CarList {
    const store: CarStore
    /** How many times `onCarDeleted` has been called. */
    var deletedCallbacks: nat

    constructor (store: CarStore)
      ensures this.store == store && deletedCallbacks == 0
    {
      this.store := store;
      deletedCallbacks := 0;
    }

    /** `handleDelete(id)`, given the DELETE outcome and whether the browser accepts
        the local write. A 2xx answer is the whole delete; a non-2xx status is
        handled like a network error, by the local `deleteCar`, which succeeds
        exactly when the id is stored locally. `onCarDeleted` runs once on success
        and not at all on failure. */
    method HandleDelete(id: string, resp: WriteResponse, accepted: bool) returns (outcome: DeleteOutcome)
      modifies this, store
      ensures Succeeded(resp) ==> outcome == DeletedViaApi && store.slot == old(store.slot)
      ensures !Succeeded(resp) ==>
                outcome == if HasId(old(store.Read()), id) then DeletedLocally else DeleteFailed(FailedToDelete)
      ensures !Succeeded(resp) ==>
                store.slot == if HasId(old(store.Read()), id)
                              then SaveSlot(old(store.slot), WithoutId(old(store.Read()), id), accepted)
                              else old(store.slot)
      ensures store.seed == old(store.seed)
      ensures deletedCallbacks == old(deletedCallbacks) + if outcome.DeleteFailed? then 0 else 1
    {
      var success := false;
      if Succeeded(resp) {
        success := true;
        outcome := DeletedViaApi;
      } else {
        var deleted := store.DeleteCar(id, accepted);
        if deleted {
          success := true;
          outcome := DeletedLocally;
        }
      }
      if success {
        deletedCallbacks := deletedCallbacks + 1;
      } else {
        outcome := DeleteFailed(FailedToDelete);
      }
    }
  }
}
