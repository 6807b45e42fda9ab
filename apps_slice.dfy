/**
 * The apps slice: the `apps` reference list and a page cache split into an
 * active and an inactive partition, updated in place by the reducer cases of
 * `getAppsPaginated`, `createApp` and `updateApp`.
 */
module AppsSlice {
  import opened Wrappers
  import opened PageCache
  import ThunkErrors

  /**
   * `updateApp` fulfilled, on the two partitions: each partition's pages are
   * walked, patching the record in place in the partition its new `isActive`
   * selects and filtering it out of the other; then the ACTIVE partition is
   * dropped if the record was found there and is now inactive, or else the
   * INACTIVE one if it was found there and is now active.
   */
  ghost function Reconciled(c: Partitions, r: Record): Partitions {
    var wasInActive := HasId(c.active.pages, r.id);
    var wasInInactive := HasId(c.inactive.pages, r.id);
    var a := Patch(c.active, r, r.isActive);
    var i := Patch(c.inactive, r, !r.isActive);
    if wasInActive && !r.isActive then Partitions(Invalidate(a), i)
    else if wasInInactive && r.isActive then Partitions(a, Invalidate(i))
    else Partitions(a, i)
  }

  /**
   * What the reconciliation amounts to: the partition matching the record's
   * new status is patched in place; the other one, the record's origin, is
   * dropped wholesale (pages and loaded list, not the total) when it held the
   * record and is otherwise untouched. So at most one partition is cleared,
   * none when the record was only where it belongs, no copy of the record is
   * left where it no longer belongs, and the cache stays coherent.
   */
  lemma ReconciledSpec(c: Partitions, r: Record)
    requires c.Valid()
    ensures Reconciled(c, r).Valid()
    ensures Reconciled(c, r).Of(r.isActive) == Patch(c.Of(r.isActive), r, true)
    ensures HasId(c.Of(!r.isActive).pages, r.id) ==>
              Reconciled(c, r).Of(!r.isActive) == Invalidate(c.Of(!r.isActive))
    ensures !HasId(c.Of(!r.isActive).pages, r.id) ==>
              Reconciled(c, r).Of(!r.isActive) == c.Of(!r.isActive)
    ensures !HasId(Reconciled(c, r).Of(!r.isActive).pages, r.id)
  {
    var here, there := c.Of(r.isActive), c.Of(!r.isActive);
    PatchKeepSpec(here, r);
    PatchRemoveSpec(there, r);
    if !HasId(there.pages, r.id) {
      PatchAbsent(there, r, false);
    }
  }

  /**
   * After the update every copy of the id still cached is the new record,
   * provided no page held the id twice.
   */
  lemma ReconciledCopies(c: Partitions, r: Record)
    requires c.Valid()
    requires forall p :: p in c.Of(r.isActive).pages ==> UniqueIds(c.Of(r.isActive).pages[p])
    ensures forall b: bool, p, k ::
              (p in Reconciled(c, r).Of(b).pages && 0 <= k < |Reconciled(c, r).Of(b).pages[p]|
               && Reconciled(c, r).Of(b).pages[p][k].id == r.id) ==> Reconciled(c, r).Of(b).pages[p][k] == r
  {
    ReconciledSpec(c, r);
    PatchKeepSpec(c.Of(r.isActive), r);
    var out := Reconciled(c, r);
    forall b: bool, p, k | p in out.Of(b).pages && 0 <= k < |out.Of(b).pages[p]| && out.Of(b).pages[p][k].id == r.id
      ensures out.Of(b).pages[p][k] == r
    {
      if b != r.isActive {
        assert HasRecord(out.Of(b).pages[p], r.id);
        assert false;
      }
    }
  }

  /**
   * The update walks on the two partitions as values: each partition's pages
   * visited through its loaded list, then at most one partition dropped.
   */
  method ReconcileCaches(c: Partitions, r: Record) returns (out: Partitions)
    requires c.Valid()
    ensures out == Reconciled(c, r) && out.Valid()
  {
    ReconciledSpec(c, r);
    var active, wasInActive := PatchPages(c.active.pages, c.active.loaded, r, r.isActive);
    var inactive, wasInInactive := PatchPages(c.inactive.pages, c.inactive.loaded, r, !r.isActive);
    var a := Cache(active, c.active.loaded, c.active.total);
    var i := Cache(inactive, c.inactive.loaded, c.inactive.total);
    if wasInActive && !r.isActive {
      out := Partitions(Invalidate(a), i);
    } else if wasInInactive && r.isActive {
      out := Partitions(a, Invalidate(i));
    } else {
      out := Partitions(a, i);
    }
  }

  /**
   * What `getApps` and `getAppsPaginated` reject with: both fallbacks are
   * "Getting apps failed"; an answered failure always leaves a message.
   */
  function FetchRejection(f: ThunkErrors.Failure): (r: ThunkErrors.Rejection)
    ensures r.payload.None? <==> f.NoResponse?
    ensures r.payload.Some? ==> r.payload.value != "" && r.notice == r.payload
  {
    ThunkErrors.Reject(f, "Getting apps failed", "Getting apps failed")
  }

  /** What `createApp` rejects with: "Signup failed" for an empty join, else "Something went wrong". */
  function CreateRejection(f: ThunkErrors.Failure): (r: ThunkErrors.Rejection)
    ensures r.payload.None? <==> f.NoResponse?
    ensures r.payload.Some? ==> r.payload.value != "" && r.notice == r.payload
  {
    ThunkErrors.Reject(f, "Signup failed", "Something went wrong")
  }

  /** What `updateApp` rejects with: the same fallbacks as `createApp`. */
  function UpdateRejection(f: ThunkErrors.Failure): (r: ThunkErrors.Rejection)
    ensures r.payload.None? <==> f.NoResponse?
    ensures r.payload.Some? ==> r.payload.value != "" && r.notice == r.payload
  {
    ThunkErrors.Reject(f, "Signup failed", "Something went wrong")
  }

  /** The slice state; each method is one reducer case. */
  class AppsState {
    var apps: RefList
    var paginatedPagesActive: Pages
    var paginatedPagesInactive: Pages
    var totalPagesActive: int
    var totalPagesInactive: int
    var loadedPagesActive: seq<int>
    var loadedPagesInactive: seq<int>
    var loading: bool
    var loadingRowId: Option<int>
    var error: Option<string>
    var message: Option<string>

    /** The two partitions as values. */
    function Caches(): Partitions
      reads this
    {
      Partitions(Cache(paginatedPagesActive, loadedPagesActive, totalPagesActive),
                 Cache(paginatedPagesInactive, loadedPagesInactive, totalPagesInactive))
    }

    ghost predicate Valid()
      reads this
    {
      Caches().Valid()
    }

    /** `initialState`. */
    constructor ()
      ensures Valid()
      ensures apps == Unloaded && Caches() == Partitions(Empty(), Empty())
      ensures !loading && loadingRowId.None? && error.None? && message.None?
    {
      apps := Unloaded;
      paginatedPagesActive, paginatedPagesInactive := map[], map[];
      totalPagesActive, totalPagesInactive := 0, 0;
      loadedPagesActive, loadedPagesInactive := [], [];
      loading := false;
      loadingRowId := None;
      error := None;
      message := None;
    }

    /** `clearPaginatedCache`: both partitions emptied, both totals 0. */
    method ClearPaginatedCache()
      requires Valid()
      modifies this
      ensures Valid() && Caches() == Partitions(Empty(), Empty())
      ensures apps == old(apps) && loading == old(loading) && loadingRowId == old(loadingRowId)
      ensures error == old(error) && message == old(message)
    {
      paginatedPagesActive := map[];
      paginatedPagesInactive := map[];
      loadedPagesActive := [];
      loadedPagesInactive := [];
      totalPagesActive := 0;
      totalPagesInactive := 0;
    }

    /** `getApps.fulfilled`: the reference list replaced by the server's list. */
    method GetAppsFulfilled(items: seq<Record>)
      requires Valid()
      modifies this
      ensures Valid() && apps == Loaded(items) && !loading
      ensures Caches() == old(Caches()) && loadingRowId == old(loadingRowId)
      ensures error == old(error) && message == old(message)
    {
      apps := Loaded(items);
      loading := false;
    }

    /** `getApps.pending`: unlike the paginated thunk's, it also clears `message`. */
    method GetAppsPending()
      requires Valid()
      modifies this
      ensures Valid() && loading && error.None? && message.None?
      ensures Caches() == old(Caches()) && apps == old(apps) && loadingRowId == old(loadingRowId)
    {
      loading := true;
      error := None;
      message := None;
    }

    /** `getAppsPaginated.pending`. */
    method GetAppsPaginatedPending()
      requires Valid()
      modifies this
      ensures Valid() && loading && error.None?
      ensures Caches() == old(Caches()) && apps == old(apps)
      ensures loadingRowId == old(loadingRowId) && message == old(message)
    {
      loading := true;
      error := None;
    }

    /**
     * `getAppsPaginated.fulfilled`: the page stored in the partition `isActive`
     * selects, added once to its loaded list, its total overwritten.
     */
    method GetAppsPaginatedFulfilled(page: int, isActive: bool, data: PageData)
      requires Valid()
      modifies this
      ensures Valid() && Caches() == StoreIn(old(Caches()), isActive, page, data)
      ensures !loading && apps == old(apps) && loadingRowId == old(loadingRowId)
      ensures error == old(error) && message == old(message)
    {
      var recs := RecordsOf(data);
      if isActive {
        StoreSpec(Caches().active, page, data);
        paginatedPagesActive := paginatedPagesActive[page := recs];
        if page !in loadedPagesActive {
          loadedPagesActive := loadedPagesActive + [page];
        }
        totalPagesActive := TotalOf(data);
      } else {
        StoreSpec(Caches().inactive, page, data);
        paginatedPagesInactive := paginatedPagesInactive[page := recs];
        if page !in loadedPagesInactive {
          loadedPagesInactive := loadedPagesInactive + [page];
        }
        totalPagesInactive := TotalOf(data);
      }
      loading := false;
    }

    /** `getAppsPaginated.rejected` and `getApps.rejected`: the cache untouched. */
    method GetAppsPaginatedRejected(f: ThunkErrors.Failure)
      requires Valid()
      modifies this
      ensures Valid() && !loading && error == FetchRejection(f).payload
      ensures Caches() == old(Caches()) && apps == old(apps)
      ensures loadingRowId == old(loadingRowId) && message == old(message)
    {
      loading := false;
      error := FetchRejection(f).payload;
    }

    /** `createApp.pending`. */
    method CreateAppPending()
      requires Valid()
      modifies this
      ensures Valid() && loading && error.None? && message.None?
      ensures Caches() == old(Caches()) && apps == old(apps) && loadingRowId == old(loadingRowId)
    {
      loading := true;
      error := None;
      message := None;
    }

    /**
     * `createApp.fulfilled`: appended to the reference list unless it is the
     * sentinel; only the active pages and loaded list are dropped.
     */
    method CreateAppFulfilled(app: Record)
      requires Valid()
      modifies this
      ensures Valid() && !loading && apps == RefAppended(old(apps), app)
      ensures Caches() == Partitions(Invalidate(old(Caches()).active), old(Caches()).inactive)
      ensures loadingRowId == old(loadingRowId) && error == old(error) && message == old(message)
    {
      loading := false;
      if apps.Loaded? {
        apps := Loaded(apps.items + [app]);
      }
      paginatedPagesActive := map[];
      loadedPagesActive := [];
    }

    /** `createApp.rejected`. */
    method CreateAppRejected(f: ThunkErrors.Failure)
      requires Valid()
      modifies this
      ensures Valid() && !loading && error == CreateRejection(f).payload
      ensures Caches() == old(Caches()) && apps == old(apps)
      ensures loadingRowId == old(loadingRowId) && message == old(message)
    {
      loading := false;
      error := CreateRejection(f).payload;
    }

    /** `updateApp.pending`: the row being saved is marked. */
    method UpdateAppPending(id: int)
      requires Valid()
      modifies this
      ensures Valid() && loadingRowId == Some(id) && error.None?
      ensures Caches() == old(Caches()) && apps == old(apps)
      ensures loading == old(loading) && message == old(message)
    {
      loadingRowId := Some(id);
      error := None;
    }

    /**
     * `updateApp.fulfilled`: the reference list mapped, the two partitions
     * reconciled (see `Reconciled` and `ReconciledSpec`).
     */
    method UpdateAppFulfilled(app: Record)
      requires Valid()
      modifies this
      ensures Valid() && loadingRowId.None?
      ensures apps == RefReplaced(old(apps), app)
      ensures Caches() == Reconciled(old(Caches()), app)
      ensures loading == old(loading) && error == old(error) && message == old(message)
    {
      var out := ReconcileCaches(Caches(), app);
      loadingRowId := None;
      if apps.Loaded? {
        apps := Loaded(ReplaceById(apps.items, app));
      }
      paginatedPagesActive, loadedPagesActive, totalPagesActive := out.active.pages, out.active.loaded, out.active.total;
      paginatedPagesInactive, loadedPagesInactive, totalPagesInactive := out.inactive.pages, out.inactive.loaded, out.inactive.total;
    }

    /** `updateApp.rejected`: the row mark cleared, the cache untouched. */
    method UpdateAppRejected(f: ThunkErrors.Failure)
      requires Valid()
      modifies this
      ensures Valid() && loadingRowId.None? && error == UpdateRejection(f).payload
      ensures Caches() == old(Caches()) && apps == old(apps)
      ensures loading == old(loading) && message == old(message)
    {
      loadingRowId := None;
      error := UpdateRejection(f).payload;
    }
  }
}
