/**
 * The invite registration page (src/pages/RegisterPage.tsx). Its state is four React state
 * variables; the validation effect and the submit handler change them step by step, and the
 * page shows a spinner, an error screen or the form depending on them. The submit handler, which
 * changes the page before awaiting, is split in two: the part before the request and the part
 * that settles it with the response. The validation effect changes nothing before its request,
 * so it is one method that takes the response as a parameter.
 */
module RegisterPage {
  import opened Wrappers
  import opened JsValues
  import opened Users
  import opened Gateway
  import opened AuthSlice
  import Routes

  const NoTokenMessage: string := "No invite token provided. Please use the link from your invitation email."
  const InvalidInviteMessage: string := "Invalid or expired invite token."
  const RegistrationFailedMessage: string := "Registration failed"
  const RegistrationSucceededMessage: string := "Registration successful!"

  /** What `validateInvite` answers: the invited address and role, shown read-only. */
  datatype InviteData = InviteData(email: string, role: Role)

  datatype PageState = PageState(loading: bool, validating: bool, inviteData: Option<InviteData>, error: Option<string>)

  /** The state when the page mounts. */
  const Mounted: PageState := PageState(false, true, None, None)

  /** The body of `registerViaInvite`: the token and the two form fields, never e-mail or role. */
  datatype RegisterRequest = RegisterRequest(token: Option<string>, name: string, password: string)

  datatype RegisterValues = RegisterValues(name: string, password: string, confirmPassword: string)

  datatype View = Spinner | ErrorScreen(message: string) | RegistrationForm(email: Option<string>, role: Option<Role>)

  /** The request `validateToken` sends: none at all without a truthy token. */
  function ValidationRequest(token: Option<string>): (r: Option<string>)
    ensures r.Some? <==> Truthy(token)
    ensures r.Some? ==> r == token
  {
    if Truthy(token) then token else None
  }

  /**
   * `validateToken` run to completion. Nothing is reset first: an earlier error or invite stays
   * unless this run overwrites it.
   */
  function AfterValidate(s: PageState, token: Option<string>, response: Response<InviteData>): (r: PageState)
    ensures !r.validating && r.loading == s.loading
    ensures !Truthy(token) ==> r.error == Some(NoTokenMessage) && r.inviteData == s.inviteData
    ensures Truthy(token) && response.Resolved? ==> r.inviteData == Some(response.data) && r.error == s.error
    ensures Truthy(token) && response.Rejected? ==>
              r.error == Some(FailureText(response.message, InvalidInviteMessage)) && r.inviteData == s.inviteData
  {
    if !Truthy(token) then s.(error := Some(NoTokenMessage), validating := false)
    else match response
      case Resolved(data) => s.(inviteData := Some(data), validating := false)
      case Rejected(message) => s.(error := Some(FailureText(message, InvalidInviteMessage)), validating := false)
  }

  /** The rendered branch: spinner while validating, then a truthy error, then the form. */
  function ViewOf(s: PageState): (v: View)
    ensures v == Spinner <==> s.validating
    ensures v.ErrorScreen? <==> !s.validating && Truthy(s.error)
    ensures v.ErrorScreen? ==> v.message == s.error.value
    ensures v.RegistrationForm? ==> v.email == (if s.inviteData.Some? then Some(s.inviteData.value.email) else None)
    ensures v.RegistrationForm? ==> v.role == (if s.inviteData.Some? then Some(s.inviteData.value.role) else None)
  {
    if s.validating then Spinner
    else if Truthy(s.error) then ErrorScreen(s.error.value)
    else RegistrationForm(
      if s.inviteData.Some? then Some(s.inviteData.value.email) else None,
      if s.inviteData.Some? then Some(s.inviteData.value.role) else None)
  }

  /** The confirm-password validator: an empty confirmation is left to the `required` rule. */
  function ConfirmPasswordAccepts(password: string, confirmation: string): (ok: bool)
    ensures ok && confirmation != "" ==> confirmation == password
    ensures confirmation == "" || confirmation == password ==> ok
  {
    confirmation == "" || confirmation == password
  }

  /** All rules of the form: name and password required, password at least 6, confirmation required and matching. */
  predicate RegisterFormValid(v: RegisterValues)
  {
    && v.name != ""
    && v.password != "" && |v.password| >= 6
    && v.confirmPassword != ""
    && ConfirmPasswordAccepts(v.password, v.confirmPassword)
  }

  /** A form that passes its rules submits a password of at least six characters that was typed twice. */
  lemma ValidFormConfirmsPassword(v: RegisterValues)
    requires RegisterFormValid(v)
    ensures v.confirmPassword == v.password && |v.password| >= 6
  {
  }

  /** Mounting without a token shows the fixed error message, whatever the gateway would have said. */
  lemma MissingTokenShowsError(token: Option<string>, response: Response<InviteData>)
    requires !Truthy(token)
    ensures ValidationRequest(token) == None
    ensures ViewOf(AfterValidate(Mounted, token, response)) == ErrorScreen(NoTokenMessage)
  {
  }

  /** Mounting with a token the gateway accepts shows the form pre-filled with the invite. */
  lemma AcceptedTokenShowsForm(token: Option<string>, invite: InviteData)
    requires Truthy(token)
    ensures ViewOf(AfterValidate(Mounted, token, Resolved(invite))) == RegistrationForm(Some(invite.email), Some(invite.role))
  {
  }

  /** Mounting with a token the gateway rejects shows the server's reason or the fallback. */
  lemma RejectedTokenShowsError(token: Option<string>, message: Option<string>)
    requires Truthy(token)
    ensures ViewOf(AfterValidate(Mounted, token, Rejected(message))) == ErrorScreen(FailureText(message, InvalidInviteMessage))
  {
  }

  /** An error left by an earlier run still hides the form after a later run succeeds. */
  lemma StaleErrorPersists(s: PageState, token: Option<string>, invite: InviteData)
    requires Truthy(s.error) && Truthy(token)
    ensures ViewOf(AfterValidate(s, token, Resolved(invite))) == ErrorScreen(s.error.value)
  {
  }

  /** The `/dashboard` the page moves to after registering renders the dashboard for the new user. */
  lemma RegistrationLandsOnDashboard(s: Session, registered: User)
    ensures AfterSetCredentials(s, registered).auth.user == Some(registered)
    ensures Routes.Resolve("/dashboard", AfterSetCredentials(s, registered).auth.user) ==
              Routes.Resolution(Routes.DashboardPage, 0)
  {
    Routes.MemberPages(Some(registered));
  }

  class RegisterPage {
    /** The `token` query parameter as of the latest render. */
    var token: Option<string>
    const auth: AuthStore
    var loading: bool
    var validating: bool
    var inviteData: Option<InviteData>
    var error: Option<string>

    function Current(): PageState
      reads this
    {
      PageState(loading, validating, inviteData, error)
    }

    /** Mounting: `token` is the `token` query parameter (null when missing). */
    constructor (token: Option<string>, auth: AuthStore)
      ensures this.token == token && this.auth == auth
      ensures Current() == Mounted
    {
      this.token := token;
      this.auth := auth;
      loading, validating, inviteData, error := false, true, None, None;
    }

    /**
     * The `token` query parameter changes while the page stays mounted: the page re-renders with
     * the new token and keeps everything it shows (the effect then runs again, `ValidateToken`).
     */
    method TokenChanged(newToken: Option<string>)
      modifies this
      ensures token == newToken
      ensures Current() == old(Current())
    {
      token := newToken;
    }

    /**
     * The validation effect, run at mount and after every change of `token`; `response` is what `validateInvite(token)` yields, consulted only
     * when a request is sent. `sent` is the token passed to the gateway, if any.
     */
    method ValidateToken(response: Response<InviteData>) returns (sent: Option<string>)
      modifies this
      ensures token == old(token)
      ensures sent == ValidationRequest(token)
      ensures Current() == AfterValidate(old(Current()), token, response)
    {
      sent := None;
      if !Truthy(token) {
        error := Some(NoTokenMessage);
        validating := false;
        return;
      }
      sent := token;
      match response {
        case Resolved(data) =>
          inviteData := Some(data);
        case Rejected(message) =>
          error := Some(FailureText(message, InvalidInviteMessage));
      }
      validating := false;
    }

    /** `onFinish` up to the request: `loading` is on while `registerViaInvite` runs. */
    method SubmitStart(values: RegisterValues) returns (request: RegisterRequest)
      modifies this
      ensures token == old(token)
      ensures request == RegisterRequest(token, values.name, values.password)
      ensures Current() == old(Current()).(loading := true)
    {
      loading := true;
      request := RegisterRequest(token, values.name, values.password);
    }

    /**
     * `onFinish` after the request: on success the returned user becomes the session and the
     * page moves to `/dashboard`; on failure the session is untouched. `loading` ends off either way.
     */
    method SubmitSettle(response: Response<User>) returns (toast: Toast, navigateTo: Option<string>)
      modifies this, auth, auth.storage
      ensures token == old(token)
      ensures Current() == old(Current()).(loading := false)
      ensures response.Resolved? ==>
                && auth.Current() == AfterSetCredentials(old(auth.Current()), response.data)
                && toast == SuccessToast(RegistrationSucceededMessage)
                && navigateTo == Some("/dashboard")
      ensures response.Rejected? ==>
                && auth.Current() == old(auth.Current())
                && toast == ErrorToast(FailureText(response.message, RegistrationFailedMessage))
                && navigateTo == None
    {
      match response {
        case Resolved(data) =>
          auth.SetCredentials(data);
          toast := SuccessToast(RegistrationSucceededMessage);
          navigateTo := Some("/dashboard");
        case Rejected(message) =>
          toast := ErrorToast(FailureText(message, RegistrationFailedMessage));
          navigateTo := None;
      }
      loading := false;
    }
  }
}
