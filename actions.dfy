/**
 * The job-application store and the four actions on it. The store stands
 * for the `job_applications` table: the records by id, the next id the
 * table hands out, and a clock that ticks once per insert and stands for
 * `created_at`.
 */
module Actions {
  import opened Model
  import Listing

  datatype CreateResult = Created(app: JobApplication) | NotAuthenticated

  /** `$data['user_id'] ?? Auth::id()`: the owner sent in the data unless it is absent or null. */
  function ResolveOwner(data: Input, authId: Option<int>): (owner: Value)
    ensures "user_id" in data && data["user_id"] != Null ==> owner == data["user_id"]
    ensures ("user_id" !in data || data["user_id"] == Null) && authId.Some? ==> owner == Num(authId.value)
    ensures owner == Null <==> ("user_id" !in data || data["user_id"] == Null) && authId.None?
  {
    if "user_id" in data && data["user_id"] != Null then data["user_id"]
    else if authId.Some? then Num(authId.value)
    else Null
  }

  class JobApplicationStore {
    var records: map<nat, JobApplication>
    var nextId: nat
    var clock: nat

    ghost predicate Valid()
      reads this
    {
      forall k :: k in records ==> records[k].id == k && k < nextId && records[k].created < clock
    }

    constructor ()
      ensures Valid() && records == map[] && nextId == 1 && clock == 0
    {
      records, nextId, clock := map[], 1, 0;
    }

    /** ListJobApplications: the caller's records, newest first. */
    function List(caller: int): seq<JobApplication>
      reads this
    {
      Listing.List(records, nextId, caller)
    }

    /**
     * CreateJobApplication: resolve the owner, refuse a falsy one, and insert
     * a record made of the fillable part of `data` with that owner.
     */
    method Create(data: Input, authId: Option<int>) returns (result: CreateResult)
      requires Valid()
      modifies this
      ensures Valid()
      ensures result.NotAuthenticated? <==> Falsy(ResolveOwner(data, authId))
      ensures result.NotAuthenticated? ==>
        records == old(records) && nextId == old(nextId) && clock == old(clock)
      ensures result.Created? ==>
        && result.app.id == old(nextId) && old(nextId) !in old(records)
        && result.app.created == old(clock)
        && result.app.attrs == Fill(map[], data)["user_id" := ResolveOwner(data, authId)]
        && records == old(records)[result.app.id := result.app]
        && |records| == |old(records)| + 1
        && nextId == old(nextId) + 1 && clock == old(clock) + 1
    {
      var owner := ResolveOwner(data, authId);
      if Falsy(owner) {
        return NotAuthenticated;
      }
      var app := JobApplication(nextId, clock, Fill(map[], data)["user_id" := owner]);
      records := records[nextId := app];
      nextId, clock := nextId + 1, clock + 1;
      result := Created(app);
    }

    /**
     * UpdateJobApplication: every fillable field of `data` overwrites the
     * stored one; the record's id, creation tick and other fields, and every
     * other record, stay as they were. The updated record is returned.
     */
    method Update(id: nat, data: Input) returns (app: JobApplication)
      requires Valid() && id in records
      modifies this
      ensures Valid()
      ensures app.id == id && app.created == old(records[id].created)
      ensures app.attrs == Fill(old(records[id].attrs), data)
      ensures records == old(records)[id := app]
      ensures nextId == old(nextId) && clock == old(clock)
    {
      app := records[id].(attrs := Fill(records[id].attrs, data));
      records := records[id := app];
    }

    /**
     * DeleteJobApplication: `$model->delete()` answers false only when a
     * `deleting` listener cancels the deletion; `vetoed` is that listener's
     * verdict. On success the record is gone and nothing else changed.
     */
    method Delete(id: nat, vetoed: bool) returns (deleted: bool)
      requires Valid() && id in records
      modifies this
      ensures Valid()
      ensures deleted == !vetoed
      ensures deleted ==> records == old(records) - {id} && |records| == |old(records)| - 1
      ensures !deleted ==> records == old(records)
      ensures id !in records <==> deleted
      ensures nextId == old(nextId) && clock == old(clock)
    {
      deleted := !vetoed;
      if deleted {
        records := records - {id};
      }
    }
  }

  /** Applying the same update data twice leaves the record as applying it once. */
  lemma UpdateIdempotent(app: JobApplication, data: Input)
    ensures app.(attrs := Fill(Fill(app.attrs, data), data)) == app.(attrs := Fill(app.attrs, data))
  {
    FillIdempotent(app.attrs, data);
  }
}
