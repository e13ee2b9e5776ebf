/** The client's session (src/context/AuthProvider.tsx): the signed-in user,
    the bearer token held in memory, the token kept in `localStorage`, and
    the loading flag of the start-up check. Network answers are parameters. */
module Session {
  import opened Common
  import opened Types

  /** What `/auth/login` or `/auth/register` answered, or that `fetch` rejected. */
  datatype AuthOutcome = AuthOk(response: AuthResponse) | AuthNotOk(body: string) | AuthThrown(message: string)

  /** What `/auth/me` answered, or that `fetch` rejected. */
  datatype MeOutcome = MeOk(user: User) | MeNotOk | MeThrown

  /** The error `login` or `register` throws for a failed request. */
  function AuthFailure(outcome: AuthOutcome, fallback: string): (msg: string)
    requires !outcome.AuthOk?
    ensures outcome.AuthNotOk? && outcome.body != "" ==> msg == outcome.body
    ensures outcome.AuthNotOk? && outcome.body == "" ==> msg == fallback
    ensures outcome.AuthThrown? ==> msg == outcome.message
  {
    match outcome
    case AuthNotOk(body) => if body == "" then fallback else body
    case AuthThrown(message) => message
  }

  const LoginFallback: string := "Login failed"
  const RegisterFallback: string := "Registration failed"

  /** The header the start-up check sends. */
  function BearerHeader(token: string): string
  {
    "Bearer " + token
  }

  /** `if (storedToken)`: null and the empty string are both falsy. */
  predicate Truthy(stored: Option<string>)
  {
    stored.Some? && stored.value != ""
  }

  class AuthProvider {
    var user: Option<User>
    var token: Option<string>
    /** `localStorage.getItem('token')`. */
    var storedToken: Option<string>
    var isLoading: bool

    /** The token in memory is the stored token, and a user is only ever
        held together with a token. */
    ghost predicate Valid()
      reads this
    {
      token == storedToken && (user.Some? ==> token.Some?)
    }

    /** Mounting: the token state starts as whatever storage holds. */
    constructor (stored: Option<string>)
      ensures Valid()
      ensures user == None && token == stored && storedToken == stored && isLoading
    {
      user := None;
      token := stored;
      storedToken := stored;
      isLoading := true;
    }

    method Logout()
      modifies this`user, this`token, this`storedToken
      ensures Valid()
      ensures user == None && token == None && storedToken == None
    {
      token := None;
      user := None;
      storedToken := None;
    }

    /** `initAuth`: resolve a stored token through `/auth/me`. Returns the
        Authorization header it sent, if it sent a request. */
    method InitAuth(outcome: MeOutcome) returns (sent: Option<string>)
      requires Valid()
      modifies this
      ensures Valid()
      ensures !isLoading
      ensures !Truthy(old(storedToken)) ==>
        sent == None && user == old(user) && token == old(token) && storedToken == old(storedToken)
      ensures Truthy(old(storedToken)) ==> sent == Some(BearerHeader(old(storedToken).value))
      ensures Truthy(old(storedToken)) && outcome.MeOk? ==>
        user == Some(outcome.user) && token == old(storedToken) && storedToken == old(storedToken)
      ensures Truthy(old(storedToken)) && !outcome.MeOk? ==>
        user == None && token == None && storedToken == None
    {
      var stored := storedToken;
      sent := None;
      if Truthy(stored) {
        sent := Some(BearerHeader(stored.value));
        match outcome {
          case MeOk(u) =>
            user := Some(u);
            token := stored;
          case MeNotOk =>
            Logout();
          case MeThrown =>
            Logout();
        }
      }
      isLoading := false;
    }

    /** `login`: a failed request throws before any state changes. */
    method Login(outcome: AuthOutcome) returns (error: Option<string>)
      requires Valid()
      modifies this`user, this`token, this`storedToken
      ensures Valid()
      ensures !outcome.AuthOk? ==>
        error == Some(AuthFailure(outcome, LoginFallback)) &&
        user == old(user) && token == old(token) && storedToken == old(storedToken)
      ensures outcome.AuthOk? ==>
        error == None && user == Some(outcome.response.user) &&
        token == Some(outcome.response.token) && storedToken == Some(outcome.response.token)
    {
      error := SignIn(outcome, LoginFallback);
    }

    /** `register`: same shape as `login`, with its own fallback message. */
    method Register(outcome: AuthOutcome) returns (error: Option<string>)
      requires Valid()
      modifies this`user, this`token, this`storedToken
      ensures Valid()
      ensures !outcome.AuthOk? ==>
        error == Some(AuthFailure(outcome, RegisterFallback)) &&
        user == old(user) && token == old(token) && storedToken == old(storedToken)
      ensures outcome.AuthOk? ==>
        error == None && user == Some(outcome.response.user) &&
        token == Some(outcome.response.token) && storedToken == Some(outcome.response.token)
    {
      error := SignIn(outcome, RegisterFallback);
    }

    /** The body `login` and `register` share. */
    method SignIn(outcome: AuthOutcome, fallback: string) returns (error: Option<string>)
      requires Valid()
      modifies this`user, this`token, this`storedToken
      ensures Valid()
      ensures !outcome.AuthOk? ==>
        error == Some(AuthFailure(outcome, fallback)) &&
        user == old(user) && token == old(token) && storedToken == old(storedToken)
      ensures outcome.AuthOk? ==>
        error == None && user == Some(outcome.response.user) &&
        token == Some(outcome.response.token) && storedToken == Some(outcome.response.token)
    {
      if !outcome.AuthOk? {
        return Some(AuthFailure(outcome, fallback));
      }
      var authData := outcome.response;
      token := Some(authData.token);
      user := Some(authData.user);
      storedToken := Some(authData.token);
      error := None;
    }
  }
}
