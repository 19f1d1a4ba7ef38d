/**
 * The admin settings form, src/pages/dashboard/Settings.jsx: which combinations of a new
 * username and the three password fields are sent, what the request carries, and how
 * the form reacts to the server's answer. The request itself is a value here; the
 * answer is a parameter of the submit.
 */
module Settings {
  import opened Wrappers
  import opened Text

  const NoChanges: string := "No changes were made to save."
  const PasswordRequired: string := "Current password is required to confirm your identity for this change."
  const PasswordsDiffer: string := "New passwords do not match."
  const NewPasswordMissing: string := "New password cannot be empty if current password is provided."
  const Updated: string := "Settings updated successfully ✅"
  const WrongPassword: string := "Current password is incorrect. Please try again."
  const InvalidRequest: string := "Invalid request. Check your fields."
  const UpdateFailed: string := "Update failed. Please check your information and try again."
  const NetworkFailure: string := "Network error: Could not reach the server."

  /** The admin's resource, and the query parameter that carries the current password. */
  const AdminPath: string := "/admins/1"
  const OldPasswordParam: string := "?oldPassword="

  /** The request body: the trimmed username, and the new password when it changes. */
  datatype Payload = Payload(username: string, password: Option<string>)

  /** `PUT /admins/1${queryParams}` with its body. */
  datatype Request = Request(path: string, payload: Payload)

  /** What a submit of the form decides before any request: an error, or the request to send. */
  datatype Decision = Rejected(message: string) | Send(request: Request)

  /** The server's answer: success, an HTTP error (its body as text, and its `message` field), or none. */
  datatype Reply = Ok | HttpError(status: int, data: Option<string>, dataMessage: Option<string>) | NetworkError

  /** The submit rules over the form fields, each trimmed first. */
  function Decide(username: string, original: string, oldPassword: string, newPassword: string, confirmPassword: string): (r: Decision)
    ensures r.Send? ==> r.request.payload.username == Trim(username)
  {
    Rules(Trim(username), original, Trim(oldPassword), Trim(newPassword), Trim(confirmPassword))
  }

  /** The checks of `handleSubmit` in their order, on the trimmed fields. */
  function Rules(u: string, original: string, o: string, n: string, c: string): (r: Decision)
    ensures r.Rejected? ==> r.message in {NoChanges, PasswordRequired, PasswordsDiffer, NewPasswordMissing}
    ensures r.Send? ==> r.request.payload.username == u
  {
    var changed := u != original;
    if !changed && o == "" && n == "" && c == "" then Rejected(NoChanges)
    else if (changed || n != "") && o == "" then Rejected(PasswordRequired)
    else if n != "" && n != c then Rejected(PasswordsDiffer)
    else if n == "" && o != "" then Rejected(NewPasswordMissing)
    else
      Send(Request(AdminPath + (if o != "" then OldPasswordParam + o else ""),
                   Payload(u, if n != "" then Some(n) else None)))
  }

  /** `canSubmit`: the username changed or some password field holds more than blanks. */
  predicate CanSubmit(username: string, original: string, oldPassword: string, newPassword: string, confirmPassword: string) {
    Trim(username) != original || !IsBlank(oldPassword) || !IsBlank(newPassword) || !IsBlank(confirmPassword)
  }

  /** The button is disabled exactly when a submit would report that nothing changed. */
  lemma NoChangesIffCannotSubmit(username: string, original: string, oldPassword: string, newPassword: string, confirmPassword: string)
    ensures Decide(username, original, oldPassword, newPassword, confirmPassword) == Rejected(NoChanges)
        <==> !CanSubmit(username, original, oldPassword, newPassword, confirmPassword)
  {
    BlankIffTrimEmpty(oldPassword);
    BlankIffTrimEmpty(newPassword);
    BlankIffTrimEmpty(confirmPassword);
  }

  /** What a request built by the rules carries, in terms of the trimmed fields. */
  lemma RulesSent(u: string, original: string, o: string, n: string, c: string)
    requires Rules(u, original, o, n, c).Send?
    ensures var p := Rules(u, original, o, n, c).request.payload;
      && p.username == u
      && (u != original || o != "" || n != "" || c != "")
      && (p.password.Some? <==> n != "")
      && (p.password.Some? ==> p.password.value == n == c)
      && (u != original || p.password.Some? ==> o != "")
      && (o != "" <==> p.password.Some?)
    ensures Rules(u, original, o, n, c).request.path
         == if o == "" then AdminPath else AdminPath + (OldPasswordParam + o)
  {
    assert AdminPath + "" == AdminPath;
  }

  /** A request carries the trimmed username, and the new password exactly when one was typed and confirmed. */
  lemma SentPayload(username: string, original: string, oldPassword: string, newPassword: string, confirmPassword: string)
    ensures var d := Decide(username, original, oldPassword, newPassword, confirmPassword);
      d.Send? ==>
        && d.request.payload.username == Trim(username)
        && CanSubmit(username, original, oldPassword, newPassword, confirmPassword)
        && (d.request.payload.password.Some? <==> !IsBlank(newPassword))
        && (d.request.payload.password.Some? ==>
              d.request.payload.password.value == Trim(newPassword) == Trim(confirmPassword))
  {
    var d := Decide(username, original, oldPassword, newPassword, confirmPassword);
    if d.Send? {
      RulesSent(Trim(username), original, Trim(oldPassword), Trim(newPassword), Trim(confirmPassword));
      BlankIffTrimEmpty(oldPassword);
      BlankIffTrimEmpty(newPassword);
      BlankIffTrimEmpty(confirmPassword);
    }
  }

  /** `oldPassword` is in the query exactly when the current password is not blank. */
  lemma SentQuery(username: string, original: string, oldPassword: string, newPassword: string, confirmPassword: string)
    ensures var d := Decide(username, original, oldPassword, newPassword, confirmPassword);
      d.Send? ==>
        && (IsBlank(oldPassword) ==> d.request.path == AdminPath)
        && (!IsBlank(oldPassword) ==> d.request.path == AdminPath + (OldPasswordParam + Trim(oldPassword)))
  {
    var d := Decide(username, original, oldPassword, newPassword, confirmPassword);
    if d.Send? {
      RulesSent(Trim(username), original, Trim(oldPassword), Trim(newPassword), Trim(confirmPassword));
      BlankIffTrimEmpty(oldPassword);
    }
  }

  /**
   * Every sensitive change is confirmed: a new username or a new password always travels
   * with the current password, and the current password is sent only with a new one.
   */
  lemma SentConfirmed(username: string, original: string, oldPassword: string, newPassword: string, confirmPassword: string)
    ensures var d := Decide(username, original, oldPassword, newPassword, confirmPassword);
      d.Send? ==>
        && (d.request.payload.username != original || d.request.payload.password.Some? ==> !IsBlank(oldPassword))
        && (!IsBlank(oldPassword) <==> d.request.payload.password.Some?)
  {
    var d := Decide(username, original, oldPassword, newPassword, confirmPassword);
    if d.Send? {
      RulesSent(Trim(username), original, Trim(oldPassword), Trim(newPassword), Trim(confirmPassword));
      BlankIffTrimEmpty(oldPassword);
    }
  }

  /** With only the confirmation filled in and the username unchanged, a request still goes out, without a password. */
  lemma ConfirmationAloneIsSent(username: string, confirmPassword: string)
    requires !IsBlank(confirmPassword)
    ensures Decide(username, Trim(username), "", "", confirmPassword)
         == Send(Request(AdminPath, Payload(Trim(username), None)))
  {
    BlankIffTrimEmpty(confirmPassword);
    assert Trim("") == "";
    assert AdminPath + "" == AdminPath;
    assert Decide(username, Trim(username), "", "", confirmPassword)
        == Rules(Trim(username), Trim(username), "", "", Trim(confirmPassword));
  }

  /**
   * The message a failed request shows, never empty: the network failure, the wrong
   * password on 401, the server's `data` (else a generic text) on 400, and the server's
   * `data.message` (else a generic text) on any other status.
   */
  function ErrorMessage(reply: Reply): (r: string)
    requires !reply.Ok?
    ensures reply.NetworkError? ==> r == NetworkFailure
    ensures reply.HttpError? && reply.status == 401 ==> r == WrongPassword
    ensures reply.HttpError? && reply.status == 400 ==>
      r == if reply.data.Some? && reply.data.value != "" then reply.data.value else InvalidRequest
    ensures reply.HttpError? && reply.status != 401 && reply.status != 400 ==>
      r == if reply.dataMessage.Some? && reply.dataMessage.value != "" then reply.dataMessage.value else UpdateFailed
    ensures r != ""
  {
    match reply
    case NetworkError => NetworkFailure
    case HttpError(status, data, dataMessage) =>
      if status == 401 then WrongPassword
      else if status == 400 then (if data.Some? && data.value != "" then data.value else InvalidRequest)
      else if dataMessage.Some? && dataMessage.value != "" then dataMessage.value else UpdateFailed
  }

  /** The form's state. */
  class SettingsForm {
    var username: string
    var originalUsername: string
    var oldPassword: string
    var newPassword: string
    var confirmPassword: string
    var loading: bool
    var message: string
    var error: string
    var showPassword: bool
    var passwordChanged: bool

    /** The form once the admin's username is loaded. */
    constructor (loaded: string)
      ensures username == loaded && originalUsername == loaded
      ensures oldPassword == "" && newPassword == "" && confirmPassword == ""
      ensures !loading && message == "" && error == "" && !showPassword && !passwordChanged
    {
      username := loaded;
      originalUsername := loaded;
      oldPassword := "";
      newPassword := "";
      confirmPassword := "";
      loading := false;
      message := "";
      error := "";
      showPassword := false;
      passwordChanged := false;
    }

    /** `canSubmit` on the current fields. */
    predicate Submittable()
      reads this
    {
      CanSubmit(username, originalUsername, oldPassword, newPassword, confirmPassword)
    }

    /**
     * `handleSubmit`: runs the checks and stops at the first that fails; otherwise sends
     * the request (`sent`) and, on success, takes the trimmed username as the original and
     * clears the password fields; an error answer only sets `error`.
     */
    method HandleSubmit(reply: Reply) returns (sent: Option<Request>)
      modifies this
      ensures var d := Decide(old(username), old(originalUsername), old(oldPassword), old(newPassword), old(confirmPassword));
        && (d.Rejected? ==> sent.None? && error == d.message && loading == old(loading))
        && (d.Send? ==> sent == Some(d.request) && !loading)
        && (d.Send? && reply.Ok? ==>
              && error == "" && message == Updated && originalUsername == Trim(old(username))
              && oldPassword == "" && newPassword == "" && confirmPassword == "" && !showPassword
              && passwordChanged == d.request.payload.password.Some?)
      ensures var d := Decide(old(username), old(originalUsername), old(oldPassword), old(newPassword), old(confirmPassword));
        d.Rejected? || !reply.Ok? ==>
          && message == "" && !passwordChanged && (reply.Ok? || d.Rejected? || error == ErrorMessage(reply))
          && originalUsername == old(originalUsername) && oldPassword == old(oldPassword)
          && newPassword == old(newPassword) && confirmPassword == old(confirmPassword)
          && showPassword == old(showPassword)
      ensures username == old(username)
    {
      var d := Check(username, originalUsername, oldPassword, newPassword, confirmPassword);
      sent := Submit(d, reply);
    }

    /**
     * `handleSubmit` once the checks have decided: the messages are reset, then a
     * rejection shows its message and a request is sent.
     */
    method Submit(d: Decision, reply: Reply) returns (sent: Option<Request>)
      modifies this
      ensures d.Rejected? ==> sent.None? && error == d.message && loading == old(loading)
      ensures d.Send? ==> sent == Some(d.request) && !loading
      ensures d.Send? && reply.Ok? ==>
        && error == "" && message == Updated && originalUsername == d.request.payload.username
        && oldPassword == "" && newPassword == "" && confirmPassword == "" && !showPassword
        && passwordChanged == d.request.payload.password.Some?
      ensures d.Rejected? || !reply.Ok? ==>
        && message == "" && !passwordChanged && (reply.Ok? || d.Rejected? || error == ErrorMessage(reply))
        && originalUsername == old(originalUsername) && oldPassword == old(oldPassword)
        && newPassword == old(newPassword) && confirmPassword == old(confirmPassword)
        && showPassword == old(showPassword)
      ensures username == old(username)
    {
      error := "";
      message := "";
      passwordChanged := false;
      if d.Rejected? {
        error := d.message;
        return None;
      }
      sent := Some(d.request);
      Send(d.request, reply);
    }

    /**
     * The request of `handleSubmit` and its answer: `loading` is on while it runs; success
     * shows the confirmation, takes the sent username as the original and clears the
     * password fields, an error answer only sets `error`.
     */
    method Send(request: Request, reply: Reply)
      modifies this
      ensures !loading && username == old(username)
      ensures reply.Ok? ==>
        && error == old(error) && message == Updated && originalUsername == request.payload.username
        && oldPassword == "" && newPassword == "" && confirmPassword == "" && !showPassword
        && passwordChanged == (old(passwordChanged) || request.payload.password.Some?)
      ensures !reply.Ok? ==>
        && error == ErrorMessage(reply) && message == old(message) && passwordChanged == old(passwordChanged)
        && originalUsername == old(originalUsername) && oldPassword == old(oldPassword)
        && newPassword == old(newPassword) && confirmPassword == old(confirmPassword)
        && showPassword == old(showPassword)
    {
      loading := true;
      if reply.Ok? {
        message := Updated;
        originalUsername := request.payload.username;
        oldPassword := "";
        newPassword := "";
        confirmPassword := "";
        showPassword := false;
        if request.payload.password.Some? {
          passwordChanged := true;
        }
      } else {
        error := ErrorMessage(reply);
      }
      loading := false;
    }
  }

  /**
   * The checks of `handleSubmit` on the five fields, in their order, each ending the submit
   * with its message; when all pass, the request it builds.
   */
  method Check(username: string, originalUsername: string, oldPassword: string, newPassword: string, confirmPassword: string)
    returns (d: Decision)
    ensures d == Decide(username, originalUsername, oldPassword, newPassword, confirmPassword)
    ensures d.Send? ==> d.request.payload.username == Trim(username)
  {
    var newUsernameTrim := Trim(username);
    var oldPasswordTrim := Trim(oldPassword);
    var newPasswordTrim := Trim(newPassword);
    var confirmPasswordTrim := Trim(confirmPassword);
    var isUsernameChanged := newUsernameTrim != originalUsername;
    var isPasswordChangeAttempt := newPasswordTrim != "" || oldPasswordTrim != "" || confirmPasswordTrim != "";

    if !isUsernameChanged && !isPasswordChangeAttempt {
      return Rejected(NoChanges);
    }
    if isUsernameChanged || newPasswordTrim != "" {
      if oldPasswordTrim == "" {
        return Rejected(PasswordRequired);
      }
    }
    var willChangePassword := false;
    if newPasswordTrim != "" {
      if newPasswordTrim != confirmPasswordTrim {
        return Rejected(PasswordsDiffer);
      }
      willChangePassword := true;
    } else if oldPasswordTrim != "" {
      return Rejected(NewPasswordMissing);
    }

    var payload := Payload(newUsernameTrim, None);
    var queryParams := "";
    if oldPasswordTrim != "" {
      queryParams := OldPasswordParam + oldPasswordTrim;
    }
    if willChangePassword {
      payload := payload.(password := Some(newPasswordTrim));
    }
    return Send(Request(AdminPath + queryParams, payload));
  }

  /** After a successful submit nothing is left to submit, whatever blanks the username kept. */
  lemma NothingLeftAfterSuccess(username: string)
    ensures !CanSubmit(username, Trim(username), "", "", "")
  {
    assert Trim("") == "";
  }
}
