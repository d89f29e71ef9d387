/**
 * `AuthContext`: the signed-in machine id shared by the app. Logging in only records the id; it
 * checks nothing and returns nothing.
 */
module AuthContext {
  import opened Wrappers

  const OutsideProviderMessage: string := "useAuth must be used within an AuthProvider"

  /** `AuthProvider`'s state. */
  class AuthProvider {
    var user: Option<string>

    constructor()
      ensures user == None
    {
      user := None;
    }

    /** `login`: records the id, replacing any earlier one; its result is `undefined` (`None`). */
    method Login(username: string) returns (result: Option<bool>)
      modifies this
      ensures user == Some(username) && result == None
    {
      user := Some(username);
      result := None;
    }

    /** `logout`. */
    method Logout()
      modifies this
      ensures user == None
    {
      user := None;
    }
  }

  /** `useAuth`: the provider's context, or the error thrown when there is no provider. */
  function UseAuth(context: Option<AuthProvider>): (r: Result<AuthProvider, string>)
    ensures context.None? <==> r.Err?
    ensures r.Err? ==> r.error == OutsideProviderMessage
    ensures r.Ok? ==> Some(r.value) == context
  {
    match context
    case None => Err(OutsideProviderMessage)
    case Some(provider) => Ok(provider)
  }
}
