/** The older auth store of `desawisata/src/store/authStore.js`: the user and token,
    set directly, by a login whose reply must carry both, and cleared by logout.
    Registration only passes the reply on. The settled outcome of each remote call is a
    parameter; the JSON bodies are those of `AuthStore`. */
module DesawisataAuth {
  import opened Js
  import AuthStore

  const LOGIN_INVALID_MESSAGE: string := "Data login tidak valid"

  /** `data.token && data.user_data` */
  predicate LoginAccepted(data: AuthStore.LoginData) {
    Truthy(data.token) && data.userData.Some?
  }

  /** The message of the error thrown for a reply without a session:
      `data.message || 'Data login tidak valid'`. */
  function LoginRejection(data: AuthStore.LoginData): (m: string)
    ensures m != []
    ensures Truthy(data.message) ==> m == data.message.value
    ensures !Truthy(data.message) ==> m == LOGIN_INVALID_MESSAGE
  {
    Or(data.message, LOGIN_INVALID_MESSAGE)
  }

  /** What `login` settles to for a reply: the reply itself when it opens a session,
      otherwise the thrown error; a failed call is rethrown unchanged. */
  function LoginResult(reply: Result<AuthStore.LoginData>): (r: Result<AuthStore.LoginData>)
    ensures r.Ok? <==> reply.Ok? && LoginAccepted(reply.value)
    ensures r.Ok? ==> r == reply
    ensures reply.Err? ==> r == reply
    ensures reply.Ok? && !LoginAccepted(reply.value) ==> r == Err(LoginRejection(reply.value))
  {
    if reply.Err? then reply
    else if LoginAccepted(reply.value) then reply
    else Err(LoginRejection(reply.value))
  }

  class Store {
    var user: Option<AuthStore.User>
    var token: Option<string>

    constructor ()
      ensures user == None && token == None
    {
      user := None;
      token := None;
    }

    /** `setUser(userData, authToken)` */
    method SetUser(userData: Option<AuthStore.User>, authToken: Option<string>)
      modifies this
      ensures user == userData && token == authToken
    {
      user, token := userData, authToken;
    }

    /** `login(username, password)` for the settled `reply` of `apiLogin`. The session
        is stored exactly when the login succeeds; otherwise nothing changes. */
    method Login(reply: Result<AuthStore.LoginData>) returns (r: Result<AuthStore.LoginData>)
      modifies this
      ensures r == LoginResult(reply)
      ensures r.Ok? ==> user == r.value.userData && token == r.value.token
      ensures r.Err? ==> user == old(user) && token == old(token)
    {
      if reply.Err? {
        return reply;
      }
      var data := reply.value;
      if Truthy(data.token) && data.userData.Some? {
        user, token := data.userData, data.token;
        return reply;
      }
      r := Err(Or(data.message, LOGIN_INVALID_MESSAGE));
    }

    /** `register(...)` for the settled `reply` of `apiRegister`: passed on, state
        untouched, no automatic login. */
    method Register(reply: Result<AuthStore.RegisterData>) returns (r: Result<AuthStore.RegisterData>)
      ensures r == reply
    {
      r := reply;
    }

    /** `logout()` */
    method Logout()
      modifies this
      ensures user == None && token == None
    {
      user, token := None, None;
    }
  }

  /** A login that succeeds always leaves a usable session: a non-empty token and a
      user. A failed one reports a non-empty reason, so a caller showing
      `err.message || fallback` never shows its fallback for a rejected reply. */
  lemma LoginOutcomes(reply: Result<AuthStore.LoginData>)
    ensures var r := LoginResult(reply);
            && (r.Ok? ==> Truthy(r.value.token) && r.value.userData.Some?)
            && (reply.Ok? && r.Err? ==> r.message != [])
  {
  }

  /** A rejected reply is judged only by its two session fields: its message changes
      the error text, never the verdict. */
  lemma VerdictIgnoresMessage(data: AuthStore.LoginData, m: Option<string>)
    ensures LoginResult(Ok(data)).Ok? == LoginResult(Ok(data.(message := m))).Ok?
  {
  }
}
