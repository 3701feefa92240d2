/** The client's token state (AuthManager.swift): a JWT and the user's email, both kept
    in user defaults, and a published signed-in flag. */
module Auth {
  import opened Wrappers

  class AuthManager {
    var token: string
    var email: string
    var isAuthenticated: bool

    /** The flag agrees with the stored token. */
    predicate Consistent()
      reads this
    {
      isAuthenticated == (token != "")
    }

    /** Starts from the stored defaults; signed in iff a token was stored. */
    constructor(storedToken: string, storedEmail: string)
      ensures token == storedToken && email == storedEmail
      ensures isAuthenticated == (storedToken != "")
      ensures Consistent()
    {
      token := storedToken;
      email := storedEmail;
      isAuthenticated := storedToken != "";
    }

    /** Stores the token as given (even an empty one), the email or "" when there is
        none, and marks the user signed in. */
    method SetToken(newToken: string, newEmail: Option<string>)
      modifies this
      ensures token == newToken && email == newEmail.GetOr("") && isAuthenticated
      ensures Consistent() <==> newToken != ""
    {
      token := newToken;
      email := newEmail.GetOr("");
      isAuthenticated := true;
    }

    method Logout()
      modifies this
      ensures token == "" && email == "" && !isAuthenticated
      ensures Consistent()
    {
      token := "";
      email := "";
      isAuthenticated := false;
    }

    /** The token sent with requests: nil exactly when none is stored. */
    function CurrentToken(): (t: Option<string>)
      reads this
      ensures t.None? <==> token == ""
      ensures t.Some? ==> t.value == token && t.value != ""
    {
      if token == "" then None else Some(token)
    }
  }

  /** Signing in with an empty token leaves the user marked signed in while no token
      is sent: the flag and the token fall out of step. */
  method EmptyTokenSignIn(storedToken: string, storedEmail: string)
    returns (signedIn: bool, sent: Option<string>)
    ensures signedIn && sent.None?
  {
    var auth := new AuthManager(storedToken, storedEmail);
    auth.SetToken("", None);
    signedIn, sent := auth.isAuthenticated, auth.CurrentToken();
  }

  /** Logging out after any sign-in leaves nothing to send. */
  method SignInThenLogout(storedToken: string, newToken: string, newEmail: Option<string>)
    returns (signedIn: bool, sent: Option<string>)
    ensures !signedIn && sent.None?
  {
    var auth := new AuthManager(storedToken, "");
    auth.SetToken(newToken, newEmail);
    auth.Logout();
    signedIn, sent := auth.isAuthenticated, auth.CurrentToken();
  }
}
