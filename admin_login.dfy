/**
 * The admin login page: submit the two fields to the data provider's login;
 * on success store the token under `adminToken` and go to the dashboard, on
 * failure show an inline error and stay.
 */
module AdminLogin {
  import opened Types
  import Api
  import opened Browser

  const LoginError := "Invalid username or password"

  /**
   * What a login attempt leads to: a stored token and a move, an error
   * message, or nothing at all when a response arrives without success and
   * without an error (the mock provider never sends one).
   */
  datatype LoginEffect = Enter(token: string) | Refuse(message: string) | Stay

  function LoginEffectOf(username: string, password: string): (e: LoginEffect)
    ensures e.Enter? <==> username == "admin" && password == "password"
    ensures e.Enter? ==> e.token == "mock-token"
    ensures e.Refuse? <==> !(username == "admin" && password == "password")
    ensures e.Refuse? ==> e.message == LoginError
    ensures !e.Stay?
  {
    match Api.Login(username, password)
    case Ok(res) => if res.success then Enter(res.token) else Stay
    case Err(_) => Refuse(LoginError)
  }

  class LoginPage {
    var username: string
    var password: string
    var error: string

    constructor ()
      ensures username == "" && password == "" && error == ""
    {
      username := "";
      password := "";
      error := "";
    }

    method TypeUsername(text: string)
      modifies this
      ensures username == text && password == old(password) && error == old(error)
    {
      username := text;
    }

    method TypePassword(text: string)
      modifies this
      ensures password == text && username == old(username) && error == old(error)
    {
      password := text;
    }

    /**
     * The form's submit.  The request carries exactly the two fields; only
     * admin/password stores a token and reaches the dashboard.
     */
    method HandleLogin(w: Window)
      modifies this, w
      ensures username == old(username) && password == old(password)
      ensures LoginEffectOf(old(username), old(password)).Enter? ==>
        && w.storage == old(w.storage)[TokenKey := "mock-token"]
        && w.path == DashboardPath
        && error == old(error)
      ensures LoginEffectOf(old(username), old(password)).Refuse? ==>
        && error == LoginError
        && w.storage == old(w.storage)
        && w.path == old(w.path)
      ensures LoginEffectOf(old(username), old(password)).Stay? ==>
        error == old(error) && w.storage == old(w.storage) && w.path == old(w.path)
    {
      var res := Api.Login(username, password);
      match res
      case Ok(r) =>
        if r.success {
          w.SetItem(TokenKey, r.token);
          w.Navigate(DashboardPath);
        }
      case Err(_) =>
        error := LoginError;
    }
  }
}
