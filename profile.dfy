/** The profile page: the checks of the password change and the messages of
    its failures, the show/hide toggles of the three password inputs, and the
    display name of a role. */
module Profile {
  import opened Base

  datatype PasswordForm = PasswordForm(currentPassword: string, newPassword: string, confirmPassword: string)

  const EMPTY_FORM := PasswordForm("", "", "")

  /** The `message` state: its `type` (`error` or `success`, empty when none) and text. */
  datatype Message = Message(kind: string, text: string)

  /** The `showPasswords` record. */
  datatype Visibility = Visibility(current: bool, newPassword: bool, confirm: bool)

  /** The keys of `showPasswords`. */
  datatype Field = Current | New | Confirm

  /** The password-change request. */
  datatype ChangeRequest = ChangeRequest(email: string, currentPassword: string, newPassword: string, token: string)

  /** How a failed request failed: an answer with a status and maybe a message,
      a request that got no answer, or any other error. */
  datatype ChangeFailure = Response(status: int, message: Option<string>) | NoResponse | Other

  datatype ChangeResult = Changed | Failed(failure: ChangeFailure)

  const MIN_PASSWORD_LENGTH: int := 6

  const MSG_FIELDS_REQUIRED := "All password fields are required"
  const MSG_MISMATCH := "New passwords do not match"
  const MSG_TOO_SHORT := "New password must be at least 6 characters long"
  const MSG_NO_TOKEN := "Authentication token not found. Please log in again."
  const MSG_NO_EMAIL := "User email not found. Please refresh and try again."
  const MSG_CHANGED := "Password changed successfully!"
  const MSG_INVALID_REQUEST := "Invalid request data"
  const MSG_AUTH_FAILED := "Authentication failed. Please log in again."
  const MSG_WRONG_PASSWORD := "Old password is incorrect"
  const MSG_SERVER_ERROR := "Server error occurred"
  const MSG_NETWORK := "Network error. Please check your connection."
  const MSG_CHANGE_FAILED := "Failed to change password"

  /** The first check: all three fields are filled. */
  predicate FieldsFilled(form: PasswordForm) {
    form.currentPassword != "" && form.newPassword != "" && form.confirmPassword != ""
  }

  /** The second and third checks: the new passwords match and are long enough. */
  predicate NewPasswordAccepted(form: PasswordForm) {
    form.newPassword == form.confirmPassword && |form.newPassword| >= MIN_PASSWORD_LENGTH
  }

  /** The checks before the request, in their order; the first that fails
      gives the message, `None` lets the request go. */
  function PasswordCheck(form: PasswordForm, token: Option<string>, email: string): (r: Option<string>)
    ensures r.None? <==> FieldsFilled(form) && NewPasswordAccepted(form) && Truthy(token) && email != ""
    ensures r == Some(MSG_FIELDS_REQUIRED) <==> !FieldsFilled(form)
    ensures r == Some(MSG_MISMATCH) <==> FieldsFilled(form) && form.newPassword != form.confirmPassword
    ensures r == Some(MSG_TOO_SHORT) <==>
      FieldsFilled(form) && form.newPassword == form.confirmPassword && |form.newPassword| < MIN_PASSWORD_LENGTH
    ensures r == Some(MSG_NO_TOKEN) <==> FieldsFilled(form) && NewPasswordAccepted(form) && !Truthy(token)
    ensures r == Some(MSG_NO_EMAIL) <==>
      FieldsFilled(form) && NewPasswordAccepted(form) && Truthy(token) && email == ""
  {
    if form.currentPassword == "" || form.newPassword == "" || form.confirmPassword == "" then Some(MSG_FIELDS_REQUIRED)
    else if form.newPassword != form.confirmPassword then Some(MSG_MISMATCH)
    else if |form.newPassword| < MIN_PASSWORD_LENGTH then Some(MSG_TOO_SHORT)
    else if !Truthy(token) then Some(MSG_NO_TOKEN)
    else if email == "" then Some(MSG_NO_EMAIL)
    else None
  }

  /** The message shown for a failed request. */
  function ErrorText(f: ChangeFailure): (r: string)
    ensures r != ""
    ensures f.Response? && f.status == 400 ==> r == OrElse(f.message, MSG_INVALID_REQUEST)
    ensures f.Response? && f.status == 401 ==> r == MSG_AUTH_FAILED
    ensures f.Response? && f.status == 403 ==> r == MSG_WRONG_PASSWORD
    ensures f.Response? && f.status !in {400, 401, 403} ==> r == OrElse(f.message, MSG_SERVER_ERROR)
    ensures f == NoResponse ==> r == MSG_NETWORK
    ensures f == Other ==> r == MSG_CHANGE_FAILED
  {
    match f
    case Response(status, message) =>
      if status == 400 then OrElse(message, MSG_INVALID_REQUEST)
      else if status == 401 then MSG_AUTH_FAILED
      else if status == 403 then MSG_WRONG_PASSWORD
      else OrElse(message, MSG_SERVER_ERROR)
    case NoResponse => MSG_NETWORK
    case Other => MSG_CHANGE_FAILED
  }

  /** The updater `togglePasswordVisibility` passes to `setShowPasswords`. */
  function Toggle(v: Visibility, field: Field): (r: Visibility)
    ensures r.current == (if field == Current then !v.current else v.current)
    ensures r.newPassword == (if field == New then !v.newPassword else v.newPassword)
    ensures r.confirm == (if field == Confirm then !v.confirm else v.confirm)
  {
    match field
    case Current => v.(current := !v.current)
    case New => v.(newPassword := !v.newPassword)
    case Confirm => v.(confirm := !v.confirm)
  }

  /** Toggling a field twice restores the record, and toggles of two fields commute. */
  lemma ToggleInvolution(v: Visibility, f: Field, g: Field)
    ensures Toggle(Toggle(v, f), f) == v
    ensures Toggle(Toggle(v, f), g) == Toggle(Toggle(v, g), f)
  {
  }

  /** `getRoleDisplayName`. */
  function RoleDisplayName(role: string): (r: string)
    ensures role == ADMIN ==> r == "Administrator"
    ensures role == KASIR ==> r == "Kasir"
    ensures role != ADMIN && role != KASIR ==> r == role
  {
    if role == ADMIN then "Administrator" else if role == KASIR then "Kasir" else role
  }

  /** Two roles are shown alike only when one is a role code and the other is
      literally the name it is shown as. */
  lemma RoleDisplayNamesDistinct(a: string, b: string)
    requires a != b && RoleDisplayName(a) == RoleDisplayName(b)
    ensures {a, b} == {ADMIN, "Administrator"} || {a, b} == {KASIR, "Kasir"}
  {
  }

  class ProfilePage {
    /** `profile.email`, as loaded from the profile service. */
    const email: string
    var showPasswordForm: bool
    var passwordForm: PasswordForm
    var showPasswords: Visibility
    var updating: bool
    var message: Message

    constructor (profileEmail: string)
      ensures email == profileEmail
      ensures !showPasswordForm && passwordForm == EMPTY_FORM && showPasswords == Visibility(false, false, false)
      ensures !updating && message == Message("", "")
    {
      email := profileEmail;
      showPasswordForm := false;
      passwordForm := EMPTY_FORM;
      showPasswords := Visibility(false, false, false);
      updating := false;
      message := Message("", "");
    }

    method SetPasswordForm(form: PasswordForm)
      modifies this
      ensures passwordForm == form
      ensures showPasswordForm == old(showPasswordForm) && showPasswords == old(showPasswords)
      ensures updating == old(updating) && message == old(message)
    {
      passwordForm := form;
    }

    /** `togglePasswordVisibility(field)`. */
    method TogglePasswordVisibility(field: Field)
      modifies this
      ensures showPasswords == Toggle(old(showPasswords), field)
      ensures showPasswordForm == old(showPasswordForm) && passwordForm == old(passwordForm)
      ensures updating == old(updating) && message == old(message)
    {
      showPasswords := Toggle(showPasswords, field);
    }

    /** `handlePasswordChange`. `token` is the stored token; `result` is how the
        request ends if it is sent; `request` is the request sent, `None` when
        a check stops it. */
    method ChangePassword(token: Option<string>, result: ChangeResult) returns (request: Option<ChangeRequest>)
      modifies this
      ensures !updating
      ensures showPasswords == old(showPasswords)
      ensures var check := PasswordCheck(old(passwordForm), token, email);
        && (request.None? <==> check.Some?)
        && (check.Some? ==>
              && message == Message("error", check.value)
              && passwordForm == old(passwordForm) && showPasswordForm == old(showPasswordForm))
      ensures request.Some? ==>
        request.value == ChangeRequest(email, old(passwordForm).currentPassword, old(passwordForm).newPassword, token.value)
      ensures request.Some? && result.Changed? ==>
        && !showPasswordForm && passwordForm == EMPTY_FORM && message == Message("success", MSG_CHANGED)
      ensures request.Some? && result.Failed? ==>
        && message == Message("error", ErrorText(result.failure))
        && passwordForm == old(passwordForm) && showPasswordForm == old(showPasswordForm)
    {
      updating := true;
      var form := passwordForm;
      var failure := PasswordCheck(form, token, email);
      if failure.Some? {
        message := Message("error", failure.value);
        updating := false;
        return None;
      }
      request := Some(ChangeRequest(email, passwordForm.currentPassword, passwordForm.newPassword, token.value));
      match result {
        case Changed =>
          showPasswordForm := false;
          passwordForm := EMPTY_FORM;
          message := Message("success", MSG_CHANGED);
        case Failed(failure) =>
          message := Message("error", ErrorText(failure));
      }
      updating := false;
    }
  }
}
