/**
 * `JobApplication::where('user_id', $caller)->latest()->get()`: the caller's
 * records, newest first. The store's records are gathered in descending id
 * order and then sorted, stably, by creation tick, most recent first; the
 * order among records created at the same tick is not promised.
 */
module Listing {
  import opened Model

  /** Every key of the map names the record stored under it. */
  ghost predicate WellKeyed(records: map<nat, JobApplication>) {
    forall k :: k in records ==> records[k].id == k
  }

  /** `app` is stored under its own id, below `bound`. */
  ghost predicate StoredBelow(records: map<nat, JobApplication>, bound: nat, app: JobApplication) {
    app.id < bound && app.id in records && records[app.id] == app
  }

  predicate NewestFirst(apps: seq<JobApplication>) {
    forall i, j :: 0 <= i < j < |apps| ==> apps[i].created >= apps[j].created
  }

  /** The caller's records among the keys below `n`, highest key first. */
  function Owned(records: map<nat, JobApplication>, caller: int, n: nat): (r: seq<JobApplication>)
    ensures |r| <= n
    ensures forall i :: 0 <= i < |r| ==> OwnedBy(r[i], caller)
  {
    if n == 0 then []
    else
      var k := n - 1;
      (if k in records && OwnedBy(records[k], caller) then [records[k]] else []) + Owned(records, caller, k)
  }

  /** Puts `app` in front of the first record that is not newer than it. */
  function InsertByCreated(app: JobApplication, apps: seq<JobApplication>): (r: seq<JobApplication>)
    requires NewestFirst(apps)
    ensures NewestFirst(r)
    ensures multiset(r) == multiset(apps) + multiset{app}
    ensures |r| > 0 && (r[0] == app || (apps != [] && r[0] == apps[0]))
  {
    if apps == [] || app.created >= apps[0].created then [app] + apps
    else
      assert apps == [apps[0]] + apps[1..];
      var rest := InsertByCreated(app, apps[1..]);
      PrependNewest(apps[0], rest);
      [apps[0]] + rest
  }

  /** A record no older than the head of a newest-first list may go in front of it. */
  lemma PrependNewest(app: JobApplication, apps: seq<JobApplication>)
    requires NewestFirst(apps) && (apps != [] ==> app.created >= apps[0].created)
    ensures NewestFirst([app] + apps)
  {
    forall i, j | 0 <= i < j < |apps| + 1 ensures ([app] + apps)[i].created >= ([app] + apps)[j].created {
      if i == 0 {
        assert apps[0].created >= apps[j - 1].created;
      }
    }
  }

  /** Stable sort on the creation tick, most recent first. */
  function SortNewestFirst(apps: seq<JobApplication>): (r: seq<JobApplication>)
    ensures NewestFirst(r)
    ensures multiset(r) == multiset(apps)
  {
    if apps == [] then []
    else
      assert apps == [apps[0]] + apps[1..];
      InsertByCreated(apps[0], SortNewestFirst(apps[1..]))
  }

  /** The listing of `caller` over the records with keys below `bound`. */
  function List(records: map<nat, JobApplication>, bound: nat, caller: int): (apps: seq<JobApplication>)
    ensures NewestFirst(apps)
    ensures forall i :: 0 <= i < |apps| ==> OwnedBy(apps[i], caller)
  {
    var r := SortNewestFirst(Owned(records, caller, bound));
    forall i | 0 <= i < |r| ensures OwnedBy(r[i], caller) {
      assert r[i] in multiset(r);
      OwnedHasOnlyOwned(records, caller, bound, r[i]);
    }
    r
  }

  lemma {:induction false} OwnedHasOnlyOwned(records: map<nat, JobApplication>, caller: int, n: nat, app: JobApplication)
    requires app in multiset(Owned(records, caller, n))
    ensures OwnedBy(app, caller)
  {
    var k := n - 1;
    var head := if k in records && OwnedBy(records[k], caller) then [records[k]] else [];
    assert Owned(records, caller, n) == head + Owned(records, caller, k);
    if app !in multiset(head) {
      OwnedHasOnlyOwned(records, caller, k, app);
    }
  }

  /** Each of the caller's records below `n` occurs once; nothing else occurs. */
  lemma {:induction false} OwnedCounts(records: map<nat, JobApplication>, caller: int, n: nat, app: JobApplication)
    requires WellKeyed(records)
    ensures multiset(Owned(records, caller, n))[app]
         == if StoredBelow(records, n, app) && OwnedBy(app, caller) then 1 else 0
  {
    if n > 0 {
      var k := n - 1;
      OwnedCounts(records, caller, k, app);
      OwnedStep(records, caller, k, app);
      if app.id == k {
        assert !StoredBelow(records, k, app);
      } else {
        assert StoredBelow(records, n, app) == StoredBelow(records, k, app);
      }
    }
  }

  /** Raising the bound past key `k` adds the record under `k` when it is the caller's. */
  lemma OwnedStep(records: map<nat, JobApplication>, caller: int, k: nat, app: JobApplication)
    requires WellKeyed(records)
    ensures multiset(Owned(records, caller, k + 1))[app] == multiset(Owned(records, caller, k))[app]
      + if app.id == k && k in records && records[k] == app && OwnedBy(app, caller) then 1 else 0
  {
    var head := if k in records && OwnedBy(records[k], caller) then [records[k]] else [];
    assert Owned(records, caller, k + 1) == head + Owned(records, caller, k);
  }

  /**
   * The listing holds every record of the caller exactly once and no record
   * of anybody else, in creation order, newest first.
   */
  lemma ListIsExactlyTheCallersRecords(records: map<nat, JobApplication>, bound: nat, caller: int, app: JobApplication)
    requires WellKeyed(records)
    ensures multiset(List(records, bound, caller))[app]
         == if StoredBelow(records, bound, app) && OwnedBy(app, caller) then 1 else 0
  {
    OwnedCounts(records, caller, bound, app);
  }

  /** A record owned by somebody else is never listed. */
  lemma ListHidesOthers(records: map<nat, JobApplication>, bound: nat, caller: int, other: int)
    requires caller != other
    ensures forall i :: 0 <= i < |List(records, bound, caller)| ==> !OwnedBy(List(records, bound, caller)[i], other)
  {
  }
}
