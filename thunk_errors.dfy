/**
 * How the slices' async actions turn a failed request into the value they
 * reject with (`rejectWithValue`) and the error notification they show.
 */
module ThunkErrors {
  import opened Wrappers
  import Js

  /**
   * What the `catch` block sees. `NoResponse`: no `error.response` (or no
   * `data` in it), so reading `error.response.data.errors` itself throws.
   * `Body`: the server's body, with its optional `errors` array (each entry's
   * `msg`, an absent one read as "") and its optional `msg`.
   */
  datatype Failure = NoResponse | Body(errors: Option<seq<string>>, msg: Option<string>)

  /**
   * The outcome of the `catch` block: the rejection payload (`None` when the
   * block itself threw and the action carries no payload) and the error
   * notification dispatched, if any.
   */
  datatype Rejection = Rejection(payload: Option<string>, notice: Option<string>)

  /**
   * The shared pattern: `errors.map(e => e.msg).join(", ") || joinFallback`
   * when the body has an `errors` array (an empty array is truthy), otherwise
   * `msg || msgFallback`; the same text is shown as an error notification.
   */
  function Reject(f: Failure, joinFallback: string, msgFallback: string): (r: Rejection)
    ensures f.NoResponse? ==> r == Rejection(None, None)
    ensures f.Body? ==> r.payload.Some? && r.notice == r.payload
    ensures f.Body? && joinFallback != "" && msgFallback != "" ==> r.payload.value != ""
  {
    match f
    case NoResponse => Rejection(None, None)
    case Body(Some(msgs), _) =>
      var m := Js.StrOr(Some(Js.Join(msgs, ", ")), joinFallback);
      Rejection(Some(m), Some(m))
    case Body(None, msg) =>
      var m := Js.StrOr(msg, msgFallback);
      Rejection(Some(m), Some(m))
  }

  /**
   * The rejection text is never empty when the fallbacks are not; with field
   * errors it is their join exactly when some message is there to join, and
   * the fallback when the array is empty or holds one blank message.
   */
  lemma RejectMessage(f: Failure, joinFallback: string, msgFallback: string)
    requires f.Body? && joinFallback != "" && msgFallback != ""
    ensures Reject(f, joinFallback, msgFallback).payload.value != ""
    ensures f.errors.Some? && (|f.errors.value| > 1 || (|f.errors.value| == 1 && f.errors.value[0] != "")) ==>
              Reject(f, joinFallback, msgFallback).payload.value == Js.Join(f.errors.value, ", ")
    ensures f.errors.Some? && (|f.errors.value| == 0 || (|f.errors.value| == 1 && f.errors.value[0] == "")) ==>
              Reject(f, joinFallback, msgFallback).payload.value == joinFallback
    ensures f.errors.None? && f.msg.Some? && f.msg.value != "" ==>
              Reject(f, joinFallback, msgFallback).payload.value == f.msg.value
    ensures f.errors.None? && (f.msg.None? || f.msg.value == "") ==>
              Reject(f, joinFallback, msgFallback).payload.value == msgFallback
  {
    if f.errors.Some? {
      Js.JoinEmptyIff(f.errors.value, ", ");
    }
  }

  /**
   * `createUser`'s variant: field errors reject with their join (or "Signup
   * failed") WITHOUT a notification; otherwise `msg || "Something went wrong"`
   * with one.
   */
  function CreateUserReject(f: Failure): (r: Rejection)
    ensures r.payload == Reject(f, "Signup failed", "Something went wrong").payload
    ensures f.Body? && f.errors.Some? ==> r.notice.None?
    ensures f.Body? && f.errors.None? ==> r.notice == r.payload
  {
    match f
    case NoResponse => Rejection(None, None)
    case Body(Some(msgs), _) =>
      var joined := Js.Join(msgs, ", ");
      Rejection(Some(Js.StrOr(Some(joined), "Signup failed")), None)
    case Body(None, msg) =>
      var m := Js.StrOr(msg, "Something went wrong");
      Rejection(Some(m), Some(m))
  }
}
