/**
 * The admin login form (app/admin/login/page.tsx): what `handleSubmit` does
 * with the reply of the login endpoint. Only a successful reply for a user
 * whose role is "admin" writes the browser store.
 */
module AdminLogin {
  import opened Wrappers
  import opened BrowserStorage
  import opened AuthGuard

  const DashboardPath: string := "/admin"
  const DefaultFailure: string := "Đăng nhập thất bại"
  const NoPermission: string := "Bạn không có quyền truy cập trang quản trị"
  const RetryMessage: string := "Có lỗi xảy ra, vui lòng thử lại"

  /** `data.data`: the issued token and the user it belongs to. */
  datatype LoginData = LoginData(token: string, user: User)

  /**
   * The reply, after `res.json()`: `Threw` when the request or the JSON read
   * failed; otherwise `success`, `error` ("" when absent) and `data`.
   */
  datatype LoginReply =
    | Threw
    | Replied(success: bool, error: string, data: Option<LoginData>)

  datatype LoginOutcome = Denied(message: string) | Granted(token: string, user: User)

  /**
   * How a reply ends. A successful reply without `data` throws a TypeError
   * at `data.data.user` and gets the generic retry message.
   */
  function Outcome(reply: LoginReply): (o: LoginOutcome)
    ensures o.Granted? <==>
      reply.Replied? && reply.success && reply.data.Some? && reply.data.value.user.role == AdminRole
    ensures o.Granted? ==> o.token == reply.data.value.token && o.user == reply.data.value.user
    ensures o.Denied? ==> o.message != ""
    ensures reply.Replied? && !reply.success ==>
      o == Denied(if reply.error != "" then reply.error else DefaultFailure)
    ensures reply.Replied? && reply.success && reply.data.Some? && reply.data.value.user.role != AdminRole ==>
      o == Denied(NoPermission)
    ensures reply.Threw? || (reply.Replied? && reply.success && reply.data.None?) ==> o == Denied(RetryMessage)
  {
    match reply
    case Threw => Denied(RetryMessage)
    case Replied(success, error, data) =>
      if !success then Denied(if error != "" then error else DefaultFailure)
      else if data.None? then Denied(RetryMessage)
      else if data.value.user.role != AdminRole then Denied(NoPermission)
      else Granted(data.value.token, data.value.user)
  }

  /** The login page's `error` and `loading` state and where it sent the browser. */
  class LoginPage {
    const store: Storage
    var error: string
    var loading: bool
    /** The last `window.location.href` assignment. */
    var location: Option<string>

    constructor (store: Storage)
      ensures this.store == store && error == "" && !loading && location == None
    {
      this.store := store;
      error := "";
      loading := false;
      location := None;
    }

    /**
     * `handleSubmit`: clear the error, set `loading`, then act on the reply;
     * the `finally` clears `loading` on every path. `serialize` is
     * `JSON.stringify` of the user record.
     */
    method HandleSubmit(reply: LoginReply, serialize: User -> string)
      modifies this, store
      ensures !loading
      ensures match Outcome(reply)
        case Denied(message) =>
          error == message && store.items == old(store.items) && location == old(location)
        case Granted(token, u) =>
          error == "" && location == Some(DashboardPath)
          && store.items == old(store.items)[TokenKey := token][UserKey := serialize(u)]
    {
      error := "";
      loading := true;
      match reply {
        case Threw =>
          error := RetryMessage;
        case Replied(success, message, data) =>
          if !success {
            error := if message != "" then message else DefaultFailure;
          } else if data.None? {
            error := RetryMessage;
          } else if data.value.user.role != AdminRole {
            error := NoPermission;
          } else {
            store.SetItem(TokenKey, data.value.token);
            store.SetItem(UserKey, serialize(data.value.user));
            location := Some(DashboardPath);
          }
      }
      loading := false;
    }
  }

  /**
   * A granted login leaves a store that the admin-only guard accepts, when
   * the token is non-empty and `JSON.parse` reads back what
   * `JSON.stringify` wrote.
   */
  lemma GrantedLoginPassesGuard(items: map<string, string>, reply: LoginReply,
                                serialize: User -> string, parse: string -> Option<User>)
    requires Outcome(reply).Granted?
    requires Outcome(reply).token != ""
    requires serialize(Outcome(reply).user) != ""
    requires parse(serialize(Outcome(reply).user)) == Some(Outcome(reply).user)
    ensures var o := Outcome(reply);
      Classify(items[TokenKey := o.token][UserKey := serialize(o.user)], true, parse) == Authenticated(o.user)
  {
  }
}
