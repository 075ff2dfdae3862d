/** The login form of the Vite variant (src/pages/Login.tsx): it submits the
    typed credentials through the auth context and shows the server's
    message, or a fixed one, when the login is rejected. */
module LoginPage {
  import opened Common
  import opened Types
  import opened UserJson
  import AuthContext

  const DefaultError := "Credenciais inválidas"

  /** `err.response?.data?.message || 'Credenciais inválidas'`: the server's
      message when it sent a non-empty one, the fixed text otherwise; a
      rejected login therefore always shows some error. */
  function ErrorMessage(e: ApiError): (m: string)
    ensures m != ""
    ensures Truthy(e.message) ==> m == e.message.value
    ensures !Truthy(e.message) ==> m == DefaultError
  {
    if Truthy(e.message) then e.message.value else DefaultError
  }

  class LoginForm {
    var username: string
    var password: string
    var isLoading: bool
    var error: string

    constructor ()
      ensures username == "" && password == "" && !isLoading && error == ""
    {
      username := "";
      password := "";
      isLoading := false;
      error := "";
    }

    /** What the form shows while the login is in flight. */
    method BeginSubmit()
      modifies this`isLoading, this`error
      ensures isLoading && error == ""
    {
      isLoading := true;
      error := "";
    }

    /** The catch and finally blocks once the login settles. */
    method Settle(outcome: Result<()>)
      modifies this`isLoading, this`error
      ensures !isLoading
      ensures outcome.Err? ==> error == ErrorMessage(outcome.error)
      ensures outcome.Ok? ==> error == old(error)
    {
      if outcome.Err? {
        error := ErrorMessage(outcome.error);
      }
      isLoading := false;
    }

    /** `handleSubmit`: the error is empty after a resolved login and the
        rejection's message after a failed one; loading settles either way. */
    method HandleSubmit(auth: AuthContext.AuthProvider, response: Result<LoginResponse>)
      modifies this`isLoading, this`error, auth`user, auth.store
      ensures !isLoading
      ensures response.Ok? ==> error == "" && auth.user == Some(AuthContext.SignedInUser(username))
      ensures response.Err? ==> error == ErrorMessage(response.error) && auth.user == old(auth.user)
      ensures response.Ok? ==> auth.store.items == AuthContext.AfterLogin(old(auth.store.items), response.value.access_token, username)
      ensures response.Err? ==> auth.store.items == old(auth.store.items)
    {
      BeginSubmit();
      var _, outcome := auth.Login(username, password, response);
      Settle(outcome);
    }
  }
}
