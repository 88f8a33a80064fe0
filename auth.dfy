/**
 * The session provider: `isAuthenticated` and `user` state, plus the `token` and `user`
 * storage entries it writes. A login answer is `Threw` (the call failed), `NoData` (no
 * `data` in the answer) or `Data` with a token and a user.
 */
module Auth {
  import opened Common
  import opened Entities

  datatype LoginOutcome = Threw | NoData | Data(token: string, user: User)

  /** What the two password calls pass on to the API. */
  datatype PasswordRequest = ForgotRequest(email: string) | ResetRequest(token: string, newPassword: string)

  /** The provider state together with the two storage entries. */
  datatype Session = Session(
    isAuthenticated: bool, user: Option<User>, storedToken: Option<string>, storedUser: Option<User>)

  /** A storage entry is truthy when present and not the empty string. */
  predicate Truthy(entry: Option<string>) { entry.Some? && entry.value != "" }

  /** A provider just created over the given storage: signed out until the mount effect runs. */
  function Fresh(storedToken: Option<string>, storedUser: Option<User>): Session {
    Session(false, None, storedToken, storedUser)
  }

  /** The mount effect: signed in iff a token is stored; `user` only if a user entry is stored too. */
  function Mount(s: Session): (r: Session)
    ensures r.storedToken == s.storedToken && r.storedUser == s.storedUser
    ensures r.isAuthenticated <==> s.isAuthenticated || Truthy(s.storedToken)
    ensures Truthy(s.storedToken) && s.storedUser.Some? ==> r.user == s.storedUser
    ensures Truthy(s.storedToken) && s.storedUser.None? ==> r.user == s.user
    ensures !Truthy(s.storedToken) ==> r == s
  {
    if Truthy(s.storedToken) then
      s.(isAuthenticated := true, user := if s.storedUser.Some? then s.storedUser else s.user)
    else s
  }

  /** `login`: only an answer with data changes anything. */
  function LoginStep(s: Session, outcome: LoginOutcome): (r: (Session, bool))
    ensures r.1 <==> outcome.Data?
    ensures !outcome.Data? ==> r.0 == s
    ensures outcome.Data? ==> r.0 == Session(true, Some(outcome.user), Some(outcome.token), Some(outcome.user))
  {
    match outcome
    case Data(token, user) => (Session(true, Some(user), Some(token), Some(user)), true)
    case _ => (s, false)
  }

  /** `logout`: both entries removed, signed out. */
  function LogoutStep(s: Session): (r: Session)
    ensures !r.isAuthenticated && r.user.None? && r.storedToken.None? && r.storedUser.None?
  {
    Session(false, None, None, None)
  }

  class AuthProvider {
    var isAuthenticated: bool
    var user: Option<User>
    var storedToken: Option<string>
    var storedUser: Option<User>

    function State(): Session
      reads this
    {
      Session(isAuthenticated, user, storedToken, storedUser)
    }

    /** The provider over the given storage, after its mount effect. */
    constructor(token: Option<string>, userEntry: Option<User>)
      ensures State() == Mount(Fresh(token, userEntry))
    {
      isAuthenticated := false;
      user := None;
      storedToken := token;
      storedUser := userEntry;
      if token.Some? && token.value != "" {
        isAuthenticated := true;
        if userEntry.Some? {
          user := userEntry;
        }
      }
    }

    method Login(outcome: LoginOutcome) returns (ok: bool)
      modifies this
      ensures (State(), ok) == LoginStep(old(State()), outcome)
    {
      match outcome {
        case Data(token, u) =>
          storedToken := Some(token);
          storedUser := Some(u);
          isAuthenticated := true;
          user := Some(u);
          ok := true;
        case _ =>
          ok := false;
      }
    }

    /** Returns the navigation target. */
    method Logout() returns (target: string)
      modifies this
      ensures State() == LogoutStep(old(State())) && target == "/login"
    {
      storedToken := None;
      storedUser := None;
      isAuthenticated := false;
      user := None;
      target := "/login";
    }

    /**
     * `forgotPassword`: passes the address on, and answers true iff that call did not throw
     * (`throws` says which requests fail). The session is untouched.
     */
    method ForgotPassword(email: string, throws: PasswordRequest -> bool) returns (sent: PasswordRequest, ok: bool)
      ensures sent == ForgotRequest(email)
      ensures ok <==> !throws(ForgotRequest(email))
    {
      sent := ForgotRequest(email);
      ok := !throws(sent);
    }

    /**
     * `resetPassword`: passes the token and the new password on, and answers true iff that
     * call did not throw. The session is untouched.
     */
    method ResetPassword(token: string, newPassword: string, throws: PasswordRequest -> bool)
      returns (sent: PasswordRequest, ok: bool)
      ensures sent == ResetRequest(token, newPassword)
      ensures ok <==> !throws(ResetRequest(token, newPassword))
    {
      sent := ResetRequest(token, newPassword);
      ok := !throws(sent);
    }
  }

  /** Logging out twice is logging out once. */
  lemma LogoutIdempotent(s: Session)
    ensures LogoutStep(LogoutStep(s)) == LogoutStep(s)
  {
  }

  /** After logout a reloaded provider is signed out. */
  lemma ReloadAfterLogout(s: Session)
    ensures var out := LogoutStep(s);
      !Mount(Fresh(out.storedToken, out.storedUser)).isAuthenticated
  {
  }

  /** A reload after a successful login restores the same session exactly when the token is non-empty. */
  lemma ReloadAfterLogin(s: Session, token: string, u: User)
    ensures var after := LoginStep(s, Data(token, u)).0;
      (Mount(Fresh(after.storedToken, after.storedUser)) == after) <==> token != ""
  {
  }

  /** The mount effect changes nothing when run a second time. */
  lemma MountIdempotent(s: Session)
    ensures Mount(Mount(s)) == Mount(s)
  {
  }
}
