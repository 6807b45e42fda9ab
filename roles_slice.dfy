/**
 * The roles slice: the `roles` reference list and a single page cache.
 */
module RolesSlice {
  import opened Wrappers
  import opened PageCache
  import ThunkErrors

  /**
   * What `getRoles` and `getRolesPaginated` reject with: both fallbacks are
   * "Getting Roles failed"; an answered failure always leaves a message.
   */
  function FetchRejection(f: ThunkErrors.Failure): (r: ThunkErrors.Rejection)
    ensures r.payload.None? <==> f.NoResponse?
    ensures r.payload.Some? ==> r.payload.value != "" && r.notice == r.payload
  {
    ThunkErrors.Reject(f, "Getting Roles failed", "Getting Roles failed")
  }

  /** What `addRole` rejects with: "Adding failed" for an empty join, else "Something went wrong". */
  function AddRejection(f: ThunkErrors.Failure): (r: ThunkErrors.Rejection)
    ensures r.payload.None? <==> f.NoResponse?
    ensures r.payload.Some? ==> r.payload.value != "" && r.notice == r.payload
  {
    ThunkErrors.Reject(f, "Adding failed", "Something went wrong")
  }

  /** What `updateRole` rejects with: "Updating failed" for an empty join, else "Something went wrong". */
  function UpdateRejection(f: ThunkErrors.Failure): (r: ThunkErrors.Rejection)
    ensures r.payload.None? <==> f.NoResponse?
    ensures r.payload.Some? ==> r.payload.value != "" && r.notice == r.payload
  {
    ThunkErrors.Reject(f, "Updating failed", "Something went wrong")
  }

  /** The two thunks whose rejection ends `loading` (`getRoles` rejects like `getRolesPaginated`). */
  datatype LoadingThunk = GetRolesPaginated | AddRole

  /** The rejection rule of the thunk that rejected. */
  function LoadingRejection(t: LoadingThunk, f: ThunkErrors.Failure): (r: ThunkErrors.Rejection)
    ensures r.payload.None? <==> f.NoResponse?
    ensures r.payload.Some? ==> r.payload.value != "" && r.notice == r.payload
    ensures t.GetRolesPaginated? ==> r == FetchRejection(f)
    ensures t.AddRole? ==> r == AddRejection(f)
  {
    match t
    case GetRolesPaginated => FetchRejection(f)
    case AddRole => AddRejection(f)
  }

  /** The slice state; each method is one reducer case. */
  class RolesState {
    var roles: RefList
    var paginatedPages: Pages
    var totalPages: int
    var loadedPages: seq<int>
    var loading: bool
    var loadingRowId: Option<int>
    var error: Option<string>

    ghost function Cached(): Cache
      reads this
    {
      Cache(paginatedPages, loadedPages, totalPages)
    }

    ghost predicate Valid()
      reads this
    {
      Cached().Valid()
    }

    /** `initialState`. */
    constructor ()
      ensures Valid() && roles == Unloaded && Cached() == Empty()
      ensures !loading && loadingRowId.None? && error.None?
    {
      roles := Unloaded;
      paginatedPages := map[];
      totalPages := 0;
      loadedPages := [];
      loading := false;
      loadingRowId := None;
      error := None;
    }

    /** `clearPaginatedCache`: pages, loaded list and total reset. */
    method ClearPaginatedCache()
      requires Valid()
      modifies this
      ensures Valid() && Cached() == Empty()
      ensures roles == old(roles) && loading == old(loading) && loadingRowId == old(loadingRowId) && error == old(error)
    {
      paginatedPages := map[];
      loadedPages := [];
      totalPages := 0;
    }

    /** `getRoles.fulfilled`: the reference list replaced by the server's list. */
    method GetRolesFulfilled(items: seq<Record>)
      requires Valid()
      modifies this
      ensures Valid() && roles == Loaded(items) && !loading
      ensures Cached() == old(Cached()) && loadingRowId == old(loadingRowId) && error == old(error)
    {
      roles := Loaded(items);
      loading := false;
    }

    /** `getRolesPaginated.pending` and `addRole.pending`. */
    method FetchPending()
      requires Valid()
      modifies this
      ensures Valid() && loading && error.None?
      ensures Cached() == old(Cached()) && roles == old(roles) && loadingRowId == old(loadingRowId)
    {
      loading := true;
      error := None;
    }

    /** `getRolesPaginated.fulfilled`: page stored, added once to the loaded list, total overwritten. */
    method GetRolesPaginatedFulfilled(page: int, data: PageData)
      requires Valid()
      modifies this
      ensures Valid() && Cached() == Store(old(Cached()), page, data)
      ensures !loading && roles == old(roles) && loadingRowId == old(loadingRowId) && error == old(error)
    {
      StoreSpec(Cached(), page, data);
      paginatedPages := paginatedPages[page := RecordsOf(data)];
      if page !in loadedPages {
        loadedPages := loadedPages + [page];
      }
      totalPages := TotalOf(data);
      loading := false;
    }

    /** `getRolesPaginated.rejected` and `addRole.rejected`: the cache untouched. */
    method FetchRejected(t: LoadingThunk, f: ThunkErrors.Failure)
      requires Valid()
      modifies this
      ensures Valid() && !loading && error == LoadingRejection(t, f).payload
      ensures Cached() == old(Cached()) && roles == old(roles) && loadingRowId == old(loadingRowId)
    {
      loading := false;
      error := LoadingRejection(t, f).payload;
    }

    /**
     * `addRole.fulfilled`: appended to the reference list unless it is the
     * sentinel; pages and loaded list dropped, the total kept.
     */
    method AddRoleFulfilled(role: Record)
      requires Valid()
      modifies this
      ensures Valid() && !loading && roles == RefAppended(old(roles), role)
      ensures Cached() == Invalidate(old(Cached()))
      ensures loadingRowId == old(loadingRowId) && error == old(error)
    {
      loading := false;
      if roles.Loaded? {
        roles := Loaded(roles.items + [role]);
      }
      paginatedPages := map[];
      loadedPages := [];
    }

    /** `updateRole.pending`: the row being saved is marked. */
    method UpdateRolePending(id: int)
      requires Valid()
      modifies this
      ensures Valid() && loadingRowId == Some(id) && error.None?
      ensures Cached() == old(Cached()) && roles == old(roles) && loading == old(loading)
    {
      loadingRowId := Some(id);
      error := None;
    }

    /**
     * `updateRole.fulfilled`: the reference list mapped, the first copy of the
     * id on every cached page replaced at its index (see `PatchKeepSpec`).
     */
    method UpdateRoleFulfilled(role: Record)
      requires Valid()
      modifies this
      ensures Valid() && loadingRowId.None?
      ensures roles == RefReplaced(old(roles), role)
      ensures Cached() == Patch(old(Cached()), role, true)
      ensures loading == old(loading) && error == old(error)
    {
      ghost var c := Cached();
      loadingRowId := None;
      if roles.Loaded? {
        roles := Loaded(ReplaceById(roles.items, role));
      }
      var pages, _ := PatchPages(paginatedPages, loadedPages, role, true);
      paginatedPages := pages;
      PatchValid(c, role, true);
    }

    /** `updateRole.rejected`: the row mark cleared, the cache untouched. */
    method UpdateRoleRejected(f: ThunkErrors.Failure)
      requires Valid()
      modifies this
      ensures Valid() && loadingRowId.None? && error == UpdateRejection(f).payload
      ensures Cached() == old(Cached()) && roles == old(roles) && loading == old(loading)
    {
      loadingRowId := None;
      error := UpdateRejection(f).payload;
    }
  }
}
