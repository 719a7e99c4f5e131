/**
 * JobApplicationController: each endpoint finds the record (404), validates
 * the form request (422), asks the policy (403), runs the action and wraps
 * the result in an envelope with the endpoint's status code.
 *
 * The caller is the authenticated user's id; route binding is the lookup of
 * `id` in the store and happens before the controller runs.
 */
module Controller {
  import opened Model
  import Policy
  import Requests
  import Listing
  import opened Actions

  datatype Data = NoData | NullData | One(app: JobApplication) | Many(apps: seq<JobApplication>)

  datatype Body =
    | Envelope(status: string, message: string, data: Data)
      /** The create request's own failure body. */
    | Invalid(message: string, errors: set<string>)
      /** The framework's failure body for the update request; its message is the framework's. */
    | Unprocessable(errors: set<string>)
    | Forbidden
    | NotFound
    | ServerError

  datatype Response = Response(code: nat, body: Body)

  const InvalidMessage := "The given data was invalid."

  function Index(store: JobApplicationStore, caller: int): (resp: Response)
    reads store
    ensures resp.code == 200 && resp.body.Envelope? && resp.body.status == "success"
    ensures resp.body.data.Many? && Listing.NewestFirst(resp.body.data.apps)
    ensures forall i :: 0 <= i < |resp.body.data.apps| ==> OwnedBy(resp.body.data.apps[i], caller)
  {
    // the policy lets every user list
    assert Policy.ViewAny(Policy.User(caller));
    Response(200, Envelope("success", "Job applications retrieved successfully", Many(store.List(caller))))
  }

  /** Everything the caller owns is in the index, once; nothing else is. */
  lemma IndexIsExactlyTheCallersRecords(store: JobApplicationStore, caller: int, app: JobApplication)
    requires store.Valid()
    ensures multiset(Index(store, caller).body.data.apps)[app]
         == if app.id in store.records && store.records[app.id] == app && OwnedBy(app, caller) then 1 else 0
  {
    Listing.ListIsExactlyTheCallersRecords(store.records, store.nextId, caller, app);
  }

  method StoreApplication(store: JobApplicationStore, caller: int, input: Input, isUrl: string -> bool)
    returns (resp: Response)
    requires store.Valid()
    modifies store
    ensures store.Valid()
    ensures var errors := Requests.Errors(Requests.StoreRules, input, isUrl);
      errors != {} ==> resp == Response(422, Invalid(InvalidMessage, errors))
    ensures resp.code != 201 ==>
      store.records == old(store.records) && store.nextId == old(store.nextId) && store.clock == old(store.clock)
    ensures resp.code == 201 <==> Requests.Errors(Requests.StoreRules, input, isUrl) == {} && caller != 0
    ensures Requests.Errors(Requests.StoreRules, input, isUrl) == {} && caller == 0 ==> resp == Response(500, ServerError)
    ensures resp.code == 201 ==>
      && resp.body.Envelope? && resp.body.status == "success" && resp.body.data.One?
      && var app := resp.body.data.app;
      && OwnedBy(app, caller)
      && app.attrs == Requests.Validated(Requests.StoreRules, input)["user_id" := Num(caller)]
      && app.id !in old(store.records)
      && store.records == old(store.records)[app.id := app]
  {
    var errors := Requests.Errors(Requests.StoreRules, input, isUrl);
    if errors != {} {
      return Response(422, Invalid(InvalidMessage, errors));
    }
    // the policy lets every user create
    assert Policy.Create(Policy.User(caller));
    // array_merge: the caller's id overrides anything under `user_id`
    var data := Requests.Validated(Requests.StoreRules, input)["user_id" := Num(caller)];
    var result := store.Create(data, Some(caller));
    if result.NotAuthenticated? {
      return Response(500, ServerError);
    }
    assert result.app.attrs == data by {
      Requests.ValidatedHasNoOwner(input);
      FillEmpty(data);
      assert ResolveOwner(data, Some(caller)) == Num(caller);
      OverrideTwice(Requests.Validated(Requests.StoreRules, input), "user_id", Num(caller));
    }
    resp := Response(201, Envelope("success", "Job application created successfully", One(result.app)));
  }

  function Show(store: JobApplicationStore, caller: int, id: nat): (resp: Response)
    reads store
    ensures id !in store.records ==> resp == Response(404, NotFound)
    ensures id in store.records && !OwnedBy(store.records[id], caller) ==> resp == Response(403, Forbidden)
    ensures resp.code == 200 <==> id in store.records && OwnedBy(store.records[id], caller)
    ensures resp.code == 200 ==> resp.body == Envelope("success", "Job application retrieved successfully", One(store.records[id]))
  {
    if id !in store.records then Response(404, NotFound)
    else if !Policy.View(Policy.User(caller), store.records[id]) then Response(403, Forbidden)
    else Response(200, Envelope("success", "Job application retrieved successfully", One(store.records[id])))
  }

  method UpdateApplication(store: JobApplicationStore, caller: int, id: nat, input: Input, isUrl: string -> bool)
    returns (resp: Response)
    requires store.Valid()
    modifies store
    ensures store.Valid()
    ensures store.nextId == old(store.nextId) && store.clock == old(store.clock)
    ensures id !in old(store.records) ==> resp == Response(404, NotFound)
    ensures id in old(store.records) && Requests.Errors(Requests.UpdateRules, input, isUrl) != {} ==>
      resp == Response(422, Unprocessable(Requests.Errors(Requests.UpdateRules, input, isUrl)))
    ensures (id in old(store.records) && Requests.Errors(Requests.UpdateRules, input, isUrl) == {}
             && !OwnedBy(old(store.records[id]), caller)) ==> resp == Response(403, Forbidden)
    ensures resp.code != 200 ==> store.records == old(store.records)
    ensures resp.code == 200 <==>
      id in old(store.records) && Requests.Errors(Requests.UpdateRules, input, isUrl) == {}
      && OwnedBy(old(store.records[id]), caller)
    ensures resp.code == 200 ==>
      && resp.body.Envelope? && resp.body.status == "success" && resp.body.data.One?
      && var app := resp.body.data.app;
      && app.id == id
      && app.attrs == Fill(old(store.records[id].attrs), Requests.Validated(Requests.UpdateRules, input))
      && OwnedBy(app, caller)
      && store.records == old(store.records)[id := app]
  {
    if id !in store.records {
      return Response(404, NotFound);
    }
    var errors := Requests.Errors(Requests.UpdateRules, input, isUrl);
    if errors != {} {
      return Response(422, Unprocessable(errors));
    }
    if !Policy.Update(Policy.User(caller), store.records[id]) {
      return Response(403, Forbidden);
    }
    Requests.ValidatedHasNoOwner(input);
    var app := store.Update(id, Requests.Validated(Requests.UpdateRules, input));
    resp := Response(200, Envelope("success", "Job application updated successfully", One(app)));
  }

  method DestroyApplication(store: JobApplicationStore, caller: int, id: nat, vetoed: bool)
    returns (resp: Response)
    requires store.Valid()
    modifies store
    ensures store.Valid()
    ensures store.nextId == old(store.nextId) && store.clock == old(store.clock)
    ensures id !in old(store.records) ==> resp == Response(404, NotFound)
    ensures id in old(store.records) && !OwnedBy(old(store.records[id]), caller) ==> resp == Response(403, Forbidden)
    ensures id in old(store.records) && OwnedBy(old(store.records[id]), caller) ==>
      if vetoed then resp == Response(400, Envelope("error", "Failed to delete job application", NoData))
      else resp == Response(200, Envelope("success", "Job application deleted successfully", NullData))
    ensures resp.code == 200 ==> store.records == old(store.records) - {id}
    ensures resp.code != 200 ==> store.records == old(store.records)
  {
    if id !in store.records {
      return Response(404, NotFound);
    }
    if !Policy.Delete(Policy.User(caller), store.records[id]) {
      return Response(403, Forbidden);
    }
    var deleted := store.Delete(id, vetoed);
    if !deleted {
      return Response(400, Envelope("error", "Failed to delete job application", NoData));
    }
    resp := Response(200, Envelope("success", "Job application deleted successfully", NullData));
  }
}
