/**
 * The authentication service: one session slot (`localStorage['user']`)
 * that `login` fills and `logout` empties, and the readers of that slot.
 */
module Auth {
  import opened Wrappers

  /** The login reply, stored as it comes. A missing `token` is "". */
  datatype LoginResponse = LoginResponse(token: string, username: string, email: string, fullName: string, role: string)

  /** What the login form passes in. */
  datatype Credentials = Credentials(email: string, password: string)

  /** The body of POST /api/auth/login. */
  datatype LoginRequest = LoginRequest(usernameOrEmail: string, password: string)

  /** The body of POST /api/auth/register. */
  datatype RegisterData = RegisterData(fullName: string, username: string, email: string, password: string)

  /** `user?.token` is truthy. */
  predicate HasToken(user: Option<LoginResponse>) {
    user.Some? && user.value.token != ""
  }

  /** `getAuthHeader` for a given slot content. */
  function AuthHeaderOf(user: Option<LoginResponse>): (h: map<string, string>)
    ensures h != map[] <==> HasToken(user)
    ensures HasToken(user) ==> h.Keys == {"Authorization"} && h["Authorization"] == "Bearer " + user.value.token
  {
    if HasToken(user) then
      var h := map["Authorization" := "Bearer " + user.value.token];
      assert "Authorization" in h;
      h
    else map[]
  }

  /** `isAdmin` for a given slot content: the role is exactly "Admin". */
  predicate IsAdminUser(user: Option<LoginResponse>) {
    user.Some? && user.value.role == "Admin"
  }

  /** An empty slot yields no header and no administrator. */
  lemma EmptySlotHasNoRights()
    ensures AuthHeaderOf(None) == map[]
    ensures !IsAdminUser(None)
  {
  }

  /** Only the exact role "Admin" is an administrator; the test is case-sensitive, so "admin" is not. */
  lemma AdminRoleIsCaseSensitive(u: LoginResponse)
    requires u.role != "Admin"
    ensures !IsAdminUser(Some(u))
  {
  }

  /** The process-wide session slot. */
  class Session {
    var user: Option<LoginResponse>

    constructor ()
      ensures user == None
    {
      user := None;
    }

    /**
     * `login(data)`: sends the credentials, then stores the reply only if
     * it carries a token. `reply` is None when the request throws; then
     * the error propagates and nothing is stored.
     */
    method Login(data: Credentials, reply: Option<LoginResponse>) returns (sent: LoginRequest, result: Option<LoginResponse>)
      modifies this
      ensures sent == LoginRequest(data.email, data.password)
      ensures result == reply
      ensures user == if reply.Some? && reply.value.token != "" then reply else old(user)
      ensures reply.Some? && reply.value.token != "" ==>
        GetCurrentUser() == reply && GetAuthHeader() == map["Authorization" := "Bearer " + reply.value.token]
    {
      sent := LoginRequest(data.email, data.password);
      result := reply;
      if reply.Some? && reply.value.token != "" {
        user := reply;
      }
    }

    /** `logout()`: removes the slot. */
    method Logout()
      modifies this
      ensures user == None
      ensures GetCurrentUser() == None && GetAuthHeader() == map[] && !IsAdmin()
    {
      user := None;
    }

    /** `getCurrentUser()`. */
    function GetCurrentUser(): Option<LoginResponse>
      reads this
    {
      user
    }

    /** `getAuthHeader()`: a Bearer header exactly when the stored user has a token, `{}` otherwise. */
    function GetAuthHeader(): (h: map<string, string>)
      reads this
      ensures h != map[] <==> user.Some? && user.value.token != ""
      ensures h != map[] ==> h == map["Authorization" := "Bearer " + user.value.token]
    {
      AuthHeaderOf(user)
    }

    /** `isAdmin()`: only a stored user can be an administrator, whatever its token. */
    function IsAdmin(): (r: bool)
      reads this
      ensures r ==> GetCurrentUser().Some? && GetCurrentUser().value.role == "Admin"
      ensures r == IsAdminUser(GetCurrentUser())
    {
      IsAdminUser(user)
    }
  }
}
