/**
 * The users slice: the `users` reference list and an active/inactive page
 * cache. Unlike the apps slice, an update only patches records in place and
 * never moves one between partitions.
 */
module UsersSlice {
  import opened Wrappers
  import opened PageCache
  import ThunkErrors

  /** `updateUser` fulfilled on the two partitions: both walked, both patched in place. */
  function Patched(c: Partitions, r: Record): Partitions {
    Partitions(Patch(c.active, r, true), Patch(c.inactive, r, true))
  }

  /**
   * In BOTH partitions, whatever the record's new `isActive`: the loaded lists,
   * totals, page numbers and page lengths stay as they were, every record with
   * another id stays at its index, a record present before is still present,
   * and (ids unique per page) every copy of the id becomes the new record.
   */
  lemma PatchedSpec(c: Partitions, r: Record)
    requires c.Valid()
    ensures Patched(c, r).Valid()
    ensures forall b: bool :: Patched(c, r).Of(b).loaded == c.Of(b).loaded && Patched(c, r).Of(b).total == c.Of(b).total
    ensures forall b: bool :: Patched(c, r).Of(b).pages.Keys == c.Of(b).pages.Keys
    ensures forall b: bool, p :: p in c.Of(b).pages ==> |Patched(c, r).Of(b).pages[p]| == |c.Of(b).pages[p]|
    ensures forall b: bool, p, k ::
              (p in c.Of(b).pages && 0 <= k < |c.Of(b).pages[p]| && c.Of(b).pages[p][k].id != r.id)
              ==> Patched(c, r).Of(b).pages[p][k] == c.Of(b).pages[p][k]
    ensures forall b: bool :: HasId(c.Of(b).pages, r.id) ==> HasId(Patched(c, r).Of(b).pages, r.id)
    ensures (forall b: bool, p :: p in c.Of(b).pages ==> UniqueIds(c.Of(b).pages[p])) ==>
              forall b: bool, p, k :: (p in c.Of(b).pages && 0 <= k < |c.Of(b).pages[p]| && c.Of(b).pages[p][k].id == r.id)
                ==> Patched(c, r).Of(b).pages[p][k] == r
  {
    PatchKeepSpec(c.active, r);
    PatchKeepSpec(c.inactive, r);
    forall b: bool | HasId(c.Of(b).pages, r.id) ensures HasId(Patched(c, r).Of(b).pages, r.id) {
      var p :| p in c.Of(b).pages && HasRecord(c.Of(b).pages[p], r.id);
      var k :| 0 <= k < |c.Of(b).pages[p]| && c.Of(b).pages[p][k].id == r.id;
      var j := FindIndex(c.Of(b).pages[p], r.id);
      assert Patched(c, r).Of(b).pages[p][j] == r;
    }
  }

  /**
   * What `getUsers` and `getUsersPaginated` reject with: both fallbacks are
   * "Getting users failed"; an answered failure always leaves a message.
   */
  function FetchRejection(f: ThunkErrors.Failure): (r: ThunkErrors.Rejection)
    ensures r.payload.None? <==> f.NoResponse?
    ensures r.payload.Some? ==> r.payload.value != "" && r.notice == r.payload
  {
    ThunkErrors.Reject(f, "Getting users failed", "Getting users failed")
  }

  /** What `createUser` rejects with; on field errors it shows no notification. */
  function CreateRejection(f: ThunkErrors.Failure): (r: ThunkErrors.Rejection)
    ensures r.payload.None? <==> f.NoResponse?
    ensures r.payload.Some? ==> r.payload.value != ""
    ensures f.Body? && f.errors.Some? ==> r.notice.None?
  {
    ThunkErrors.CreateUserReject(f)
  }

  /** What `updateUser` rejects with: "Updating user failed" for an empty join, else "Something went wrong". */
  function UpdateRejection(f: ThunkErrors.Failure): (r: ThunkErrors.Rejection)
    ensures r.payload.None? <==> f.NoResponse?
    ensures r.payload.Some? ==> r.payload.value != "" && r.notice == r.payload
  {
    ThunkErrors.Reject(f, "Updating user failed", "Something went wrong")
  }

  /** The two thunks whose rejection ends `loading` (`getUsers` rejects like `getUsersPaginated`). */
  datatype LoadingThunk = GetUsersPaginated | CreateUser

  /** The rejection rule of the thunk that rejected. */
  function LoadingRejection(t: LoadingThunk, f: ThunkErrors.Failure): (r: ThunkErrors.Rejection)
    ensures r.payload.None? <==> f.NoResponse?
    ensures r.payload.Some? ==> r.payload.value != ""
    ensures t.GetUsersPaginated? ==> r == FetchRejection(f)
    ensures t.CreateUser? ==> r == CreateRejection(f)
  {
    match t
    case GetUsersPaginated => FetchRejection(f)
    case CreateUser => CreateRejection(f)
  }

  /** The slice state; each method is one reducer case. */
  class UsersState {
    var users: RefList
    var paginatedPagesActive: Pages
    var paginatedPagesInactive: Pages
    var totalPagesActive: int
    var totalPagesInactive: int
    var loadedPagesActive: seq<int>
    var loadedPagesInactive: seq<int>
    var loading: bool
    var loadingRowId: Option<int>
    var error: Option<string>

    ghost function Caches(): Partitions
      reads this
    {
      Partitions(Cache(paginatedPagesActive, loadedPagesActive, totalPagesActive),
                 Cache(paginatedPagesInactive, loadedPagesInactive, totalPagesInactive))
    }

    ghost predicate Valid()
      reads this
    {
      Caches().Valid()
    }

    /** `initialState`. */
    constructor ()
      ensures Valid()
      ensures users == Unloaded && Caches() == Partitions(Empty(), Empty())
      ensures !loading && loadingRowId.None? && error.None?
    {
      users := Unloaded;
      paginatedPagesActive, paginatedPagesInactive := map[], map[];
      totalPagesActive, totalPagesInactive := 0, 0;
      loadedPagesActive, loadedPagesInactive := [], [];
      loading := false;
      loadingRowId := None;
      error := None;
    }

    /** `clearPaginatedCache`. */
    method ClearPaginatedCache()
      requires Valid()
      modifies this
      ensures Valid() && Caches() == Partitions(Empty(), Empty())
      ensures users == old(users) && loading == old(loading) && loadingRowId == old(loadingRowId) && error == old(error)
    {
      paginatedPagesActive := map[];
      paginatedPagesInactive := map[];
      loadedPagesActive := [];
      loadedPagesInactive := [];
      totalPagesActive := 0;
      totalPagesInactive := 0;
    }

    /** `getUsers.fulfilled`: the reference list replaced by the server's list. */
    method GetUsersFulfilled(items: seq<Record>)
      requires Valid()
      modifies this
      ensures Valid() && users == Loaded(items) && !loading
      ensures Caches() == old(Caches()) && loadingRowId == old(loadingRowId) && error == old(error)
    {
      users := Loaded(items);
      loading := false;
    }

    /** `getUsersPaginated.pending` and `createUser.pending`. */
    method FetchPending()
      requires Valid()
      modifies this
      ensures Valid() && loading && error.None?
      ensures Caches() == old(Caches()) && users == old(users) && loadingRowId == old(loadingRowId)
    {
      loading := true;
      error := None;
    }

    /** `getUsersPaginated.fulfilled`. */
    method GetUsersPaginatedFulfilled(page: int, isActive: bool, data: PageData)
      requires Valid()
      modifies this
      ensures Valid() && Caches() == StoreIn(old(Caches()), isActive, page, data)
      ensures !loading && users == old(users) && loadingRowId == old(loadingRowId) && error == old(error)
    {
      var recs := RecordsOf(data);
      if isActive {
        StoreSpec(Caches().active, page, data);
        paginatedPagesActive := paginatedPagesActive[page := recs];
        if page !in loadedPagesActive {
          loadedPagesActive := loadedPagesActive + [page];
        }
        totalPagesActive := TotalOf(data);
      } else {
        StoreSpec(Caches().inactive, page, data);
        paginatedPagesInactive := paginatedPagesInactive[page := recs];
        if page !in loadedPagesInactive {
          loadedPagesInactive := loadedPagesInactive + [page];
        }
        totalPagesInactive := TotalOf(data);
      }
      loading := false;
    }

    /** `getUsersPaginated.rejected` and `createUser.rejected`: the cache untouched. */
    method FetchRejected(t: LoadingThunk, f: ThunkErrors.Failure)
      requires Valid()
      modifies this
      ensures Valid() && !loading && error == LoadingRejection(t, f).payload
      ensures Caches() == old(Caches()) && users == old(users) && loadingRowId == old(loadingRowId)
    {
      loading := false;
      error := LoadingRejection(t, f).payload;
    }

    /**
     * `createUser.fulfilled`: appended to the reference list unless it is the
     * sentinel; only the active pages and loaded list are dropped.
     */
    method CreateUserFulfilled(user: Record)
      requires Valid()
      modifies this
      ensures Valid() && !loading && users == RefAppended(old(users), user)
      ensures Caches() == Partitions(Invalidate(old(Caches()).active), old(Caches()).inactive)
      ensures loadingRowId == old(loadingRowId) && error == old(error)
    {
      loading := false;
      if users.Loaded? {
        users := Loaded(users.items + [user]);
      }
      paginatedPagesActive := map[];
      loadedPagesActive := [];
    }

    /** `updateUser.pending`: the row being saved is marked. */
    method UpdateUserPending(id: int)
      requires Valid()
      modifies this
      ensures Valid() && loadingRowId == Some(id) && error.None?
      ensures Caches() == old(Caches()) && users == old(users) && loading == old(loading)
    {
      loadingRowId := Some(id);
      error := None;
    }

    /** `updateUser.fulfilled`: reference list mapped, both partitions patched in place. */
    method UpdateUserFulfilled(user: Record)
      requires Valid()
      modifies this
      ensures Valid() && loadingRowId.None?
      ensures users == RefReplaced(old(users), user)
      ensures Caches() == Patched(old(Caches()), user)
      ensures loading == old(loading) && error == old(error)
    {
      ghost var c := Caches();
      loadingRowId := None;
      if users.Loaded? {
        users := Loaded(ReplaceById(users.items, user));
      }
      var active, _ := PatchPages(paginatedPagesActive, loadedPagesActive, user, true);
      var inactive, _ := PatchPages(paginatedPagesInactive, loadedPagesInactive, user, true);
      paginatedPagesActive, paginatedPagesInactive := active, inactive;
      PatchValid(c.active, user, true);
      PatchValid(c.inactive, user, true);
    }

    /** `updateUser.rejected`: the row mark cleared, the cache untouched. */
    method UpdateUserRejected(f: ThunkErrors.Failure)
      requires Valid()
      modifies this
      ensures Valid() && loadingRowId.None? && error == UpdateRejection(f).payload
      ensures Caches() == old(Caches()) && users == old(users) && loading == old(loading)
    {
      loadingRowId := None;
      error := UpdateRejection(f).payload;
    }
  }
}
