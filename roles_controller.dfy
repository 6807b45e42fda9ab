/**
 * The roles endpoints: the paginated list, creation (which demands a
 * `userId`) and update by id. The store is given as the answers it returns
 * or the errors it throws; the audit log write is not modelled.
 */
module RolesController {
  import opened Wrappers
  import Pagination

  /** `GET /api/roles/paginated`: the shared list endpoint, rows under `roles`. */
  function GetRolesPaginated<R>(pageArg: Option<int>, limitArg: Option<int>, find: (int, int) -> Result<(nat, seq<R>)>)
    : (r: Pagination.Reply<Pagination.PageBody<R>>)
    ensures limitArg.Some? && limitArg.value < 0 ==> r == Pagination.Fail(400, "Invalid limit")
    ensures r.Json? ==> r.status == 200 && r.body.currentPage == Pagination.ParseQuery(pageArg, limitArg).page
  {
    Pagination.PaginatedSpec(pageArg, limitArg, find);
    Pagination.Paginated(pageArg, limitArg, find)
  }

  /**
   * `POST /api/roles`: a missing or falsy `userId` (`None` or 0) is refused
   * with 400 "Please select properly"; otherwise the created role is answered
   * with 201, and an error thrown by the create with 400 and its message.
   */
  function AddRole<R>(userId: Option<int>, created: Result<R>): (r: Pagination.Reply<R>)
    ensures userId.None? || userId.value == 0 ==> r == Pagination.Fail(400, "Please select properly")
    ensures userId.Some? && userId.value != 0 && created.Ok? ==> r == Pagination.Json(201, created.value)
    ensures userId.Some? && userId.value != 0 && created.Err? ==> r == Pagination.Fail(400, created.message)
  {
    if userId.None? || userId.value == 0 then Pagination.Fail(400, "Please select properly")
    else match created
      case Ok(role) => Pagination.Json(201, role)
      case Err(m) => Pagination.Fail(400, m)
  }

  /**
   * The `userId` check comes before any create: without one the reply does
   * not depend on what the create would have done, and a role is answered
   * only when a `userId` was given.
   */
  lemma AddRoleChecksFirst<R>(userId: Option<int>, c1: Result<R>, c2: Result<R>)
    ensures userId.None? || userId.value == 0 ==> AddRole(userId, c1) == AddRole(userId, c2)
    ensures AddRole(userId, c1).Json? ==> userId.Some? && userId.value != 0 && c1 == Ok(AddRole(userId, c1).body)
  {
  }

  /** The 404 text for a missing role. */
  function NotFound(id: string): (m: string)
    ensures |m| == |id| + 23
    ensures m[13..13 + |id|] == id
  {
    "role with id " + id + " not found"
  }

  /** The 404 text names the id: different ids give different texts. */
  lemma NotFoundInjective(a: string, b: string)
    ensures NotFound(a) == NotFound(b) ==> a == b
  {
    if NotFound(a) == NotFound(b) {
      assert a == NotFound(a)[13..13 + |a|];
    }
  }

  /**
   * `PUT /api/roles/:id`: `find` is the lookup by primary key (an error it
   * throws is answered with 400); a missing role is 404 with the text naming
   * the id; otherwise the role after `update` is answered with 200, or 400
   * when the update throws.
   */
  function UpdateRole<R>(id: string, find: Result<Option<R>>, update: R -> Result<R>): (r: Pagination.Reply<R>)
    ensures find == Ok(None) <==> r == Pagination.Fail(404, NotFound(id))
    ensures r.Json? ==> r.status == 200 && find.Ok? && find.value.Some? && update(find.value.value) == Ok(r.body)
    ensures find.Err? ==> r == Pagination.Fail(400, find.message)
  {
    match find
    case Err(m) => Pagination.Fail(400, m)
    case Ok(None) => Pagination.Fail(404, NotFound(id))
    case Ok(Some(role)) =>
      match update(role)
      case Ok(updated) => Pagination.Json(200, updated)
      case Err(m) => Pagination.Fail(400, m)
  }
}
