/**
 * `LoginDialog`: asks for a machine id and a password and signs in through the auth context. Only
 * the machine ids 5701, 5702 and 5703 are accepted; the password is never checked here.
 */
module LoginDialog {
  import opened Wrappers
  import opened AuthContext

  const MissingId: string := "Ange ett maskin-ID"
  const InvalidId: string := "Ogiltigt maskin-ID. Anv\U{00E4}nd 5701, 5702 eller 5703."
  const LoginFailed: string := "Felaktigt l\U{00F6}senord eller anv\U{00E4}ndar-ID"

  /** The machine ids the dialog accepts. */
  predicate IsKnownId(username: string)
  {
    username == "5701" || username == "5702" || username == "5703"
  }

  /** How `handleLogin` ends: rejected before `login`, signed in (with the toast text), or failed. */
  datatype Outcome = Rejected(message: string) | SignedIn(toastText: string) | Failed(message: string)

  /**
   * `handleLogin` as a chain of checks; `loginResult` is what `login` returned, consulted only when
   * `login` was called.
   */
  function LoginOutcome(username: string, password: string, loginResult: Option<bool>): (outcome: Outcome)
    ensures outcome.Rejected? <==> !IsKnownId(username)
    ensures username == "" ==> outcome == Rejected(MissingId)
    ensures username != "" && !IsKnownId(username) ==> outcome == Rejected(InvalidId)
    ensures outcome.SignedIn? <==> IsKnownId(username) && loginResult == Some(true)
  {
    if username == "" then Rejected(MissingId)
    else if !IsKnownId(username) then Rejected(InvalidId)
    else if loginResult == Some(true) then SignedIn("Inloggad som " + username)
    else Failed(LoginFailed)
  }

  /** The password plays no part in the outcome. */
  lemma PasswordNotChecked(username: string, p1: string, p2: string, loginResult: Option<bool>)
    ensures LoginOutcome(username, p1, loginResult) == LoginOutcome(username, p2, loginResult)
  {
  }

  /**
   * With the context's `login`, which returns nothing, a known id always ends in the failure
   * message, although the user was recorded.
   */
  lemma VoidLoginReportsFailure(username: string, password: string)
    requires IsKnownId(username)
    ensures LoginOutcome(username, password, None) == Failed(LoginFailed)
  {
  }

  class LoginDialogState {
    const auth: AuthProvider
    var username: string
    var password: string
    var error: Option<string>
    /** Whether `onOpenChange(false)` was called. */
    var closed: bool
    var toast: Option<string>

    constructor(auth: AuthProvider)
      ensures this.auth == auth && username == "" && password == "" && error == None && !closed && toast == None
    {
      this.auth := auth;
      username := "";
      password := "";
      error := None;
      closed := false;
      toast := None;
    }

    /** `handleLogin`: rejected ids set the error without calling `login`; a known id is recorded. */
    method HandleLogin() returns (outcome: Outcome)
      modifies this, auth
      ensures outcome == LoginOutcome(username, password, None)
      ensures !IsKnownId(username) ==> auth.user == old(auth.user) && error == Some(outcome.message)
      ensures IsKnownId(username) ==> auth.user == Some(username) && error == Some(LoginFailed)
      ensures closed == old(closed) && toast == old(toast)
      ensures username == old(username) && password == old(password)
    {
      if username == "" {
        error := Some(MissingId);
        return Rejected(MissingId);
      }
      if !IsKnownId(username) {
        error := Some(InvalidId);
        return Rejected(InvalidId);
      }
      var success := auth.Login(username);
      // `login` returns nothing, so the closing-and-toast branch for a truthy result is never taken
      // here; `LoginOutcome` keeps it for a `login` that does answer.
      assert success == None;
      error := Some(LoginFailed);
      return Failed(LoginFailed);
    }
  }
}
