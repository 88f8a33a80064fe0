/**
 * The sign-in page's submit handler: after a successful login it reads the stored token and
 * user back and sends a super admin to the traders list and everyone else to the files.
 */
module LoginPage {
  import opened Common
  import opened Entities
  import Auth
  import MockApiService

  datatype SubmitEffect = Navigate(to: string) | ShowError(message: string) | NoEffect

  /** The role read back from the `user` entry; a missing entry parses as `{}`, which has none. */
  function StoredRole(storedUser: Option<User>): Role {
    if storedUser.Some? then storedUser.value.role else NoRole
  }

  /** `handleSubmit` after `login` answered `success`. */
  function AfterLogin(success: bool, storedToken: Option<string>, storedUser: Option<User>): (r: SubmitEffect)
    ensures !success <==> r == ShowError("Invalid credentials. Please try again.")
    ensures success && !Auth.Truthy(storedToken) ==> r == NoEffect
    ensures success && Auth.Truthy(storedToken) ==>
      (r == Navigate("/traders") <==> StoredRole(storedUser) == RoleNumber(SuperAdmin))
    ensures success && Auth.Truthy(storedToken) ==>
      (r == Navigate("/files") <==> StoredRole(storedUser) != RoleNumber(SuperAdmin))
  {
    if !success then ShowError("Invalid credentials. Please try again.")
    else if Auth.Truthy(storedToken) then
      if StoredRole(storedUser) == RoleNumber(SuperAdmin) then Navigate("/traders") else Navigate("/files")
    else NoEffect
  }

  /** The whole flow: the provider's login step, then the redirect read from the storage it wrote. */
  function SubmitFlow(s: Auth.Session, outcome: Auth.LoginOutcome): SubmitEffect {
    var (after, success) := Auth.LoginStep(s, outcome);
    AfterLogin(success, after.storedToken, after.storedUser)
  }

  /** The mock backend's admin answers with the role text 'admin', so it lands on the files page. */
  lemma MockAdminGoesToFiles(s: Auth.Session)
    ensures var answer := MockApiService.Login("admin@example.com", "password");
      answer.Ok? && SubmitFlow(s, Auth.Data(answer.value.token, answer.value.user)) == Navigate("/files")
  {
  }

  /** A user whose stored role is the number 1 lands on the traders list, given a non-empty token. */
  lemma SuperAdminGoesToTraders(s: Auth.Session, token: string, u: User)
    requires token != "" && u.role == RoleNumber(SuperAdmin)
    ensures SubmitFlow(s, Auth.Data(token, u)) == Navigate("/traders")
  {
  }

  /** A failed login shows the error and navigates nowhere. */
  lemma FailureShowsError(s: Auth.Session, outcome: Auth.LoginOutcome)
    requires !outcome.Data?
    ensures SubmitFlow(s, outcome) == ShowError("Invalid credentials. Please try again.")
  {
  }
}
