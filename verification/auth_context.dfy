/**
 * The auth provider's session: the signed-in user, the token kept in the
 * browser's local storage, the `Authorization` header installed on every
 * later request, and the flag that says the session is still being
 * restored. Storage and the header are plain fields here.
 */
module AuthContext {
  import opened Wrappers

  datatype User = User(id: string, name: string, email: string, emailVerified: Option<bool>)

  /** The body of a successful login: the token and the user it belongs to. */
  datatype LoginData = LoginData(token: string, user: Option<User>)

  /**
   * How a call that may raise settles: with a value, or rejected with the
   * message of the error it raises.
   */
  datatype Outcome<+T> = Resolved(value: T) | Rejected(error: string)

  /**
   * The caller-facing result of a server call whose failure is re-raised as
   * an error carrying the server's message, or `fallback` without one.
   */
  function Settle<T>(reply: Reply<T>, fallback: string): (o: Outcome<T>)
    ensures reply.Ok? <==> o.Resolved?
    ensures reply.Ok? ==> o.value == reply.value
    ensures reply.Fail? ==> o.error == ErrorText(reply, fallback)
  {
    match reply
    case Ok(v) => Resolved(v)
    case Fail(_) => Rejected(ErrorText(reply, fallback))
  }

  /** The header value for a token. */
  function Bearer(token: string): string { "Bearer " + token }

  /** A stored token counts only when present and non-empty. */
  predicate Truthy(token: Option<string>) { token.Some? && token.value != "" }

  class Session {
    var user: Option<User>
    var loading: bool
    var storedToken: Option<string>
    var authHeader: Option<string>

    /** Signed in exactly when there is a user. */
    predicate IsAuthenticated()
      reads this`user
    {
      user.Some?
    }

    /** Whenever a header is installed, it carries the stored token. */
    predicate Consistent()
      reads this`storedToken, this`authHeader
    {
      authHeader.Some? ==> storedToken.Some? && authHeader.value == Bearer(storedToken.value)
    }

    /**
     * A fresh provider: no user, still loading, no header yet, and whatever
     * token an earlier visit left in storage.
     */
    constructor (stored: Option<string>)
      ensures user == None && loading && storedToken == stored && authHeader == None
      ensures Consistent() && !IsAuthenticated()
    {
      user := None;
      loading := true;
      storedToken := stored;
      authHeader := None;
    }

    /**
     * Asks the server who the token belongs to. Success installs that user;
     * failure forgets the token and the header and keeps the user. Loading
     * ends on both outcomes.
     */
    method FetchUserProfile(reply: Reply<Option<User>>)
      modifies this`user, this`loading, this`storedToken, this`authHeader
      ensures !loading
      ensures reply.Ok? ==> user == reply.value && storedToken == old(storedToken) && authHeader == old(authHeader)
      ensures reply.Fail? ==> user == old(user) && storedToken == None && authHeader == None
      ensures old(Consistent()) ==> Consistent()
    {
      if reply.Ok? {
        user := reply.value;
      } else {
        storedToken := None;
        authHeader := None;
      }
      loading := false;
    }

    /**
     * The mount effect: with a stored token, install its header and fetch
     * the profile; without one, just stop loading. Either way loading ends.
     */
    method Startup(profile: Reply<Option<User>>)
      modifies this`user, this`loading, this`storedToken, this`authHeader
      ensures !loading
      ensures !Truthy(old(storedToken)) ==>
        user == old(user) && storedToken == old(storedToken) && authHeader == old(authHeader)
      ensures Truthy(old(storedToken)) && profile.Ok? ==>
        user == profile.value && storedToken == old(storedToken) && authHeader == Some(Bearer(old(storedToken).value))
      ensures Truthy(old(storedToken)) && profile.Fail? ==>
        user == old(user) && storedToken == None && authHeader == None
      ensures old(Consistent()) ==> Consistent()
    {
      if Truthy(storedToken) {
        authHeader := Some(Bearer(storedToken.value));
        FetchUserProfile(profile);
      } else {
        loading := false;
      }
    }

    /**
     * Success stores the token, installs its header and signs the user in;
     * failure changes nothing and raises the server's message or
     * "Login failed".
     */
    method Login(email: string, password: string, reply: Reply<LoginData>) returns (o: Outcome<()>)
      modifies this`user, this`storedToken, this`authHeader
      ensures o == if reply.Ok? then Resolved(()) else Rejected(ErrorText(reply, "Login failed"))
      ensures reply.Ok? ==>
        && storedToken == Some(reply.value.token) && authHeader == Some(Bearer(reply.value.token))
        && user == reply.value.user
      ensures reply.Fail? ==> user == old(user) && storedToken == old(storedToken) && authHeader == old(authHeader)
      ensures reply.Ok? || old(Consistent()) ==> Consistent()
    {
      if reply.Ok? {
        storedToken := Some(reply.value.token);
        authHeader := Some(Bearer(reply.value.token));
        user := reply.value.user;
        o := Resolved(());
      } else {
        o := Rejected(ErrorText(reply, "Login failed"));
      }
    }

    /**
     * Registers an account and hands back the server's body; nobody is
     * signed in by it, since the address still has to be verified. Raises
     * the server's message or "Signup failed".
     */
    method Signup<D>(name: string, email: string, password: string, reply: Reply<D>) returns (o: Outcome<D>)
      ensures o == Settle(reply, "Signup failed")
      ensures user == old(user) && storedToken == old(storedToken) && authHeader == old(authHeader)
    {
      o := Settle(reply, "Signup failed");
    }

    /** Forgets the token and the header and signs the user out. */
    method Logout()
      modifies this`user, this`storedToken, this`authHeader
      ensures user == None && storedToken == None && authHeader == None
      ensures !IsAuthenticated() && Consistent()
    {
      storedToken := None;
      authHeader := None;
      user := None;
    }

    /** Requests a reset mail; raises the server's message or "Failed to send reset email". */
    method ForgotPassword<D>(email: string, reply: Reply<D>) returns (o: Outcome<D>)
      ensures o == Settle(reply, "Failed to send reset email")
    {
      o := Settle(reply, "Failed to send reset email");
    }

    /** Sets a new password with a reset token; raises the server's message or "Failed to reset password". */
    method ResetPassword(token: string, newPassword: string, reply: Reply<()>) returns (o: Outcome<()>)
      ensures o == Settle(reply, "Failed to reset password")
    {
      o := Settle(reply, "Failed to reset password");
    }

    /** Confirms an address; raises the server's message or "Failed to verify email". */
    method VerifyEmail(token: string, reply: Reply<()>) returns (o: Outcome<()>)
      ensures o == Settle(reply, "Failed to verify email")
    {
      o := Settle(reply, "Failed to verify email");
    }

    /** Sends the verification mail again; raises the server's message or "Failed to resend verification". */
    method ResendVerification(email: string, reply: Reply<()>) returns (o: Outcome<()>)
      ensures o == Settle(reply, "Failed to resend verification")
    {
      o := Settle(reply, "Failed to resend verification");
    }
  }

  /**
   * A session restored from a stored token that the server no longer
   * accepts ends signed out, with nothing left in storage and no header,
   * and is no longer loading.
   */
  method RejectedTokenSignsOut(token: string, reason: Option<string>) returns (s: Session)
    requires token != ""
    ensures !s.IsAuthenticated() && !s.loading && s.storedToken == None && s.authHeader == None
  {
    s := new Session(Some(token));
    s.Startup(Fail(reason));
  }

  /**
   * A session restored from a stored token the server accepts is signed in
   * as the server's user, with the token's header installed.
   */
  method AcceptedTokenSignsIn(token: string, u: User) returns (s: Session)
    requires token != ""
    ensures s.IsAuthenticated() && s.user == Some(u) && !s.loading
    ensures s.storedToken == Some(token) && s.authHeader == Some(Bearer(token))
  {
    s := new Session(Some(token));
    s.Startup(Ok(Some(u)));
  }

  /** With nothing stored, startup only ends the loading: nobody is signed in. */
  method NoTokenStaysSignedOut() returns (s: Session)
    ensures !s.IsAuthenticated() && !s.loading && s.storedToken == None && s.authHeader == None
  {
    s := new Session(None);
    s.Startup(Fail(None));
  }
}
