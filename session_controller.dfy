/**
 * The sessions endpoints: the paginated list and deletion by id, whose
 * success body is the confirmation text the sessions slice tests for.
 */
module SessionController {
  import opened Wrappers
  import Pagination
  import SessionsSlice

  /** `GET /api/sessions/paginated`: the shared list endpoint, rows under `sessions`. */
  function GetSessionsPaginated<S>(pageArg: Option<int>, limitArg: Option<int>, find: (int, int) -> Result<(nat, seq<S>)>)
    : (r: Pagination.Reply<Pagination.PageBody<S>>)
    ensures limitArg.Some? && limitArg.value < 0 ==> r == Pagination.Fail(400, "Invalid limit")
    ensures r.Json? ==> r.status == 200 && r.body.currentPage == Pagination.ParseQuery(pageArg, limitArg).page
  {
    Pagination.PaginatedSpec(pageArg, limitArg, find);
    Pagination.Paginated(pageArg, limitArg, find)
  }

  /** The body of a successful delete: `{msg}`. */
  datatype MsgBody = MsgBody(msg: string)

  /** The 404 text for a missing session. */
  function NotFound(id: string): (m: string)
    ensures |m| == |id| + 26
    ensures m[16..16 + |id|] == id
  {
    "session with id " + id + " not found"
  }

  /** The 404 text names the id: different ids give different texts. */
  lemma NotFoundInjective(a: string, b: string)
    ensures NotFound(a) == NotFound(b) ==> a == b
  {
    if NotFound(a) == NotFound(b) {
      assert a == NotFound(a)[16..16 + |a|];
    }
  }

  /**
   * `DELETE /api/sessions/:id`: `find` is the lookup by primary key and
   * `destroyed` the outcome of destroying the row (an error either throws is
   * answered with 400); a missing session is 404 naming the id; a destroyed
   * one is 200 with the confirmation text.
   */
  function DeleteSession<S>(id: string, find: Result<Option<S>>, destroyed: Result<()>): (r: Pagination.Reply<MsgBody>)
    ensures find == Ok(None) <==> r == Pagination.Fail(404, NotFound(id))
    ensures r.Json? <==> find.Ok? && find.value.Some? && destroyed.Ok?
    ensures r.Json? ==> r.status == 200
    ensures find.Err? ==> r == Pagination.Fail(400, find.message)
  {
    match find
    case Err(m) => Pagination.Fail(400, m)
    case Ok(None) => Pagination.Fail(404, NotFound(id))
    case Ok(Some(_)) =>
      match destroyed
      case Ok(_) => Pagination.Json(200, MsgBody("session deleted permanently"))
      case Err(m) => Pagination.Fail(400, m)
  }

  /**
   * The two ends agree: every successful delete answers the exact text the
   * sessions slice's delete action tests for, so the slice confirms it with
   * the deleted id.
   */
  lemma DeleteConfirmedBySlice<S>(id: string, find: Result<Option<S>>, destroyed: Result<()>, rowId: int)
    ensures DeleteSession(id, find, destroyed).Json? ==>
              SessionsSlice.ConfirmDelete(rowId, Some(DeleteSession(id, find, destroyed).body.msg)) == Some(rowId)
  {
  }
}
