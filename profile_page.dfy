/**
 * The profile page (src/pages/ProfilePage.tsx): a form pre-filled from the session, a submit
 * handler that sends the changed identity (and a new password only when one was typed), and
 * stores the server's answer as the new session while keeping the token already held.
 */
module ProfilePage {
  import opened Wrappers
  import opened Users
  import opened Gateway
  import opened AuthSlice

  const UpdatedMessage: string := "Profile updated successfully"
  const UpdateFailedMessage: string := "Failed to update profile"

  /** The four form fields; an untouched field is the empty string. */
  datatype ProfileForm = ProfileForm(name: string, email: string, newPassword: string, confirmNewPassword: string)

  /** The body of `updateProfile`: `password` is present only when a new one was typed. */
  datatype UpdatePayload = UpdatePayload(name: string, email: string, password: Option<string>)

  /** The pre-fill effect: with a user, its name and e-mail replace those two fields. */
  function Prefill(user: Option<User>, form: ProfileForm): (f: ProfileForm)
    ensures user.Some? ==> f.name == user.value.name && f.email == user.value.email
    ensures user.None? ==> f == form
    ensures f.newPassword == form.newPassword && f.confirmNewPassword == form.confirmNewPassword
  {
    if user.Some? then form.(name := user.value.name, email := user.value.email) else form
  }

  /** What the submitted payload holds for the given form values. */
  predicate IsPayloadFor(values: ProfileForm, payload: UpdatePayload)
  {
    && payload.name == values.name && payload.email == values.email
    && (payload.password.Some? <==> values.newPassword != "")
    && (payload.password.Some? ==> payload.password.value == values.newPassword)
  }

  /** The `newPassword` rule `min: 6`: like every rule that is not `required`, it skips an empty field. */
  function NewPasswordAccepts(newPassword: string): (ok: bool)
    ensures ok && newPassword != "" ==> |newPassword| >= 6
    ensures newPassword == "" ==> ok
  {
    newPassword == "" || |newPassword| >= 6
  }

  /** The confirm-new-password validator: passes on an empty confirmation, an empty new password, or a match. */
  function ConfirmNewPasswordAccepts(newPassword: string, confirmation: string): (ok: bool)
    ensures ok && confirmation != "" && newPassword != "" ==> confirmation == newPassword
    ensures confirmation == "" || newPassword == "" || confirmation == newPassword ==> ok
  {
    confirmation == "" || newPassword == "" || newPassword == confirmation
  }

  /** Every rule of the form; the e-mail format rule belongs to the form library and is not modelled. */
  predicate ProfileFormValid(values: ProfileForm)
  {
    && values.name != "" && values.email != ""
    && NewPasswordAccepts(values.newPassword)
    && ConfirmNewPasswordAccepts(values.newPassword, values.confirmNewPassword)
  }

  /** The payload is built with name and e-mail, then the password is added only when typed. */
  method BuildPayload(values: ProfileForm) returns (payload: UpdatePayload)
    ensures IsPayloadFor(values, payload)
    ensures ProfileFormValid(values) && payload.password.Some? ==> |payload.password.value| >= 6
  {
    payload := UpdatePayload(values.name, values.email, None);
    if values.newPassword != "" {
      payload := payload.(password := Some(values.newPassword));
    }
  }

  /** `{...data, token: user.token}`: the answer with the held token, whatever token the answer carried. */
  function KeepToken(data: User, previous: User): (u: User)
    ensures u.token == previous.token
    ensures u.(token := data.token) == data
  {
    data.(token := previous.token)
  }

  /** A valid form that sends a new password has it confirmed, unless the confirmation was left empty. */
  lemma SentPasswordConfirmed(values: ProfileForm)
    requires ProfileFormValid(values) && values.newPassword != "" && values.confirmNewPassword != ""
    ensures values.confirmNewPassword == values.newPassword
  {
  }

  /** A confirmation typed without a new password passes the rules, and no password is sent. */
  lemma ConfirmationIgnoredWithoutNewPassword(values: ProfileForm, payload: UpdatePayload)
    requires values.newPassword == "" && IsPayloadFor(values, payload)
    ensures ConfirmNewPasswordAccepts(values.newPassword, values.confirmNewPassword)
    ensures payload.password == None
  {
  }

  /**
   * After a successful update of a signed-in session, a fresh start reads back the answer with the
   * token that was held before, and the role the server answered.
   */
  lemma UpdateKeepsCredential(s: Session, previous: User, data: User)
    requires s.auth.user == Some(previous)
    ensures InitialState(AfterSetCredentials(s, KeepToken(data, previous)).items) ==
              Ok(AuthState(Some(KeepToken(data, previous)), false, None))
    ensures AfterSetCredentials(s, KeepToken(data, previous)).auth.user.value.token == previous.token
  {
    SetCredentialsSurvivesReload(s, KeepToken(data, previous));
  }

  class ProfilePage {
    const auth: AuthStore
    var loading: bool
    var form: ProfileForm
    /** The session user the running `onFinish` closed over. */
    var submitter: Option<User>

    constructor (auth: AuthStore)
      ensures this.auth == auth && !loading && submitter == None
      ensures form == ProfileForm("", "", "", "")
    {
      this.auth := auth;
      loading := false;
      form := ProfileForm("", "", "", "");
      submitter := None;
    }

    method PrefillEffect()
      modifies this
      ensures form == Prefill(auth.user, old(form))
      ensures loading == old(loading) && submitter == old(submitter)
    {
      if auth.user.Some? {
        form := form.(name := auth.user.value.name, email := auth.user.value.email);
      }
    }

    /** `onFinish` up to the request: `loading` is on and the payload is sent. */
    method SubmitStart() returns (payload: UpdatePayload)
      modifies this
      ensures IsPayloadFor(old(form), payload)
      ensures loading && submitter == auth.user && form == old(form)
    {
      loading := true;
      submitter := auth.user;
      payload := BuildPayload(form);
    }

    /**
     * `onFinish` after the request. The page is mounted only behind the sign-in guard, so the
     * user the handler closed over is present.
     */
    method SubmitSettle(response: Response<User>) returns (toast: Toast)
      requires submitter.Some?
      modifies this, auth, auth.storage
      ensures !loading && submitter == old(submitter)
      ensures response.Resolved? ==>
                && auth.Current() == AfterSetCredentials(old(auth.Current()), KeepToken(response.data, submitter.value))
                && form == old(form).(newPassword := "", confirmNewPassword := "")
                && toast == SuccessToast(UpdatedMessage)
      ensures response.Rejected? ==>
                && auth.Current() == old(auth.Current())
                && form == old(form)
                && toast == ErrorToast(FailureText(response.message, UpdateFailedMessage))
    {
      match response {
        case Resolved(data) =>
          auth.SetCredentials(KeepToken(data, submitter.value));
          toast := SuccessToast(UpdatedMessage);
          form := form.(newPassword := "");
          form := form.(confirmNewPassword := "");
        case Rejected(message) =>
          toast := ErrorToast(FailureText(message, UpdateFailedMessage));
      }
      loading := false;
    }
  }
}
