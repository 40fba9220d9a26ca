/**
 * The profile page, `frontend/src/pages/Profile.jsx`: validation of the
 * email and password fields, the update request built from what changed,
 * and the form after a successful update.
 */
module ProfilePage {

  import opened Wrappers
  import opened Text

  datatype ProfileField = Email | CurrentPassword | NewPassword | ConfirmPassword

  const MinPasswordLength: nat := 6

  /**
   * `/\S+@\S+\.\S+/` matches with its `@` at `at` and its `.` at `dot`: one
   * non-space before the `@`, at least one between them, one after the `.`.
   * Longer runs only extend the match, so these are all the matches there are.
   */
  predicate EmailMatchAt(s: string, at: int, dot: int) {
    && 1 <= at && at + 1 < dot && dot + 1 < |s|
    && !IsSpace(s[at - 1]) && s[at] == '@' && s[dot] == '.' && !IsSpace(s[dot + 1])
    && forall m :: at < m < dot ==> !IsSpace(s[m])
  }

  /** `/\S+@\S+\.\S+/.test(s)`: the pattern is not anchored. */
  predicate EmailPattern(s: string) {
    exists at, dot :: 0 <= at < dot < |s| && EmailMatchAt(s, at, dot)
  }

  predicate NoSpace(s: string) {
    forall i :: 0 <= i < |s| ==> !IsSpace(s[i])
  }

  /** Every `local@domain.tld` whose parts are non-empty and have no white space matches. */
  lemma AddressMatches(local: string, domain: string, tld: string)
    requires local != [] && domain != [] && tld != []
    requires NoSpace(local) && NoSpace(domain) && NoSpace(tld)
    ensures EmailPattern(local + "@" + domain + "." + tld)
  {
    var s := local + "@" + domain + "." + tld;
    var at := |local|;
    var dot := |local| + 1 + |domain|;
    assert s[at - 1] == local[|local| - 1];
    assert s[dot + 1] == tld[0];
    forall m | at < m < dot ensures !IsSpace(s[m]) {
      assert s[m] == domain[m - at - 1];
    }
    assert EmailMatchAt(s, at, dot);
  }

  /** Text before or after a match does not undo it. */
  lemma EmailPatternUnanchored(pre: string, s: string, post: string)
    requires EmailPattern(s)
    ensures EmailPattern(pre + s + post)
  {
    var at, dot :| 0 <= at < dot < |s| && EmailMatchAt(s, at, dot);
    var t := pre + s + post;
    var k := |pre|;
    assert forall m :: 0 <= m < |s| ==> t[k + m] == s[m];
    forall m | at + k < m < dot + k ensures !IsSpace(t[m]) {
      assert t[m] == s[m - k];
    }
    assert EmailMatchAt(t, at + k, dot + k);
  }

  /** A string without `@` never matches. */
  lemma NoAtNoMatch(s: string)
    requires forall i :: 0 <= i < |s| ==> s[i] != '@'
    ensures !EmailPattern(s)
  {
  }

  /** The fields `updateProfile` receives; a part is present only when it is sent. */
  datatype UpdateData = UpdateData(email: Option<string>, passwords: Option<(string, string)>)

  /** `Object.keys(updateData).length === 0`. */
  predicate IsEmpty(d: UpdateData) {
    d.email.None? && d.passwords.None?
  }

  /** The page's state; `userEmail` is the signed-in user's current email. */
  class Profile {
    var email: string
    var currentPassword: string
    var newPassword: string
    var confirmPassword: string
    var errors: map<ProfileField, string>
    var userEmail: string

    constructor (userEmail: string)
      ensures this.userEmail == userEmail && email == userEmail
      ensures currentPassword == "" && newPassword == "" && confirmPassword == "" && errors == map[]
    {
      this.userEmail := userEmail;
      email := userEmail;
      currentPassword, newPassword, confirmPassword := "", "", "";
      errors := map[];
    }

    /** `handleChange`: set the field; its error, if set, becomes `''` and the other errors stay. */
    method HandleChange(name: ProfileField, value: string)
      modifies this`email, this`currentPassword, this`newPassword, this`confirmPassword, this`errors
      ensures email == (if name == Email then value else old(email))
      ensures currentPassword == (if name == CurrentPassword then value else old(currentPassword))
      ensures newPassword == (if name == NewPassword then value else old(newPassword))
      ensures confirmPassword == (if name == ConfirmPassword then value else old(confirmPassword))
      ensures name in old(errors) && old(errors)[name] != "" ==> errors == old(errors)[name := ""]
      ensures !(name in old(errors) && old(errors)[name] != "") ==> errors == old(errors)
    {
      match name {
        case Email => email := value;
        case CurrentPassword => currentPassword := value;
        case NewPassword => newPassword := value;
        case ConfirmPassword => confirmPassword := value;
      }
      if name in errors && errors[name] != "" {
        errors := errors[name := ""];
      }
    }

    /**
     * `validateForm`: the email is checked only when it differs from the
     * user's; the three password rules apply, independently, only when a new
     * password is typed; valid exactly when no rule fails.
     */
    method ValidateForm() returns (ok: bool)
      modifies this`errors
      ensures Email in errors <==> email != userEmail && (email == "" || !EmailPattern(email))
      ensures Email in errors ==> errors[Email] == (if email == "" then "Email is required" else "Email is invalid")
      ensures CurrentPassword in errors <==> newPassword != "" && currentPassword == ""
      ensures CurrentPassword in errors ==>
        errors[CurrentPassword] == "Current password is required to change password"
      ensures NewPassword in errors <==> newPassword != "" && |newPassword| < MinPasswordLength
      ensures NewPassword in errors ==> errors[NewPassword] == "New password must be at least 6 characters"
      ensures ConfirmPassword in errors <==> newPassword != "" && newPassword != confirmPassword
      ensures ConfirmPassword in errors ==> errors[ConfirmPassword] == "Passwords do not match"
      ensures ok <==> errors == map[]
    {
      var found: map<ProfileField, string> := map[];
      if email != userEmail && email == "" {
        found := found[Email := "Email is required"];
      } else if email != userEmail && !EmailPattern(email) {
        found := found[Email := "Email is invalid"];
      }
      if newPassword != "" {
        if currentPassword == "" {
          found := found[CurrentPassword := "Current password is required to change password"];
        }
        if |newPassword| < MinPasswordLength {
          found := found[NewPassword := "New password must be at least 6 characters"];
        }
        if newPassword != confirmPassword {
          found := found[ConfirmPassword := "Passwords do not match"];
        }
      }
      errors := found;
      ok := found == map[];
    }

    /**
     * `handleSubmit`: after validation, the request carries the email only
     * when it changed and the password pair only when a new password is
     * typed; with nothing to send no request is made. A successful update
     * clears the three password fields and keeps the email.
     */
    method HandleSubmit(succeeded: bool) returns (sent: Option<UpdateData>)
      modifies this`errors, this`currentPassword, this`newPassword, this`confirmPassword
      ensures sent.Some? ==> errors == map[] && !IsEmpty(sent.value)
      ensures sent.Some? ==> sent.value.email == (if old(email) != userEmail then Some(old(email)) else None)
      ensures sent.Some? ==>
        sent.value.passwords == (if old(newPassword) != "" then Some((old(currentPassword), old(newPassword))) else None)
      ensures sent.Some? && sent.value.email.Some? ==> EmailPattern(sent.value.email.value)
      ensures sent.Some? && sent.value.passwords.Some? ==>
        sent.value.passwords.value.0 != "" && |sent.value.passwords.value.1| >= MinPasswordLength
      ensures errors == map[] && (old(email) != userEmail || old(newPassword) != "") ==> sent.Some?
      ensures sent.Some? && succeeded ==> currentPassword == "" && newPassword == "" && confirmPassword == ""
      ensures sent.None? || !succeeded ==>
        currentPassword == old(currentPassword) && newPassword == old(newPassword) &&
        confirmPassword == old(confirmPassword)
      ensures email == old(email)
      ensures Email in errors <==> email != userEmail && (email == "" || !EmailPattern(email))
      ensures Email in errors ==> errors[Email] == (if email == "" then "Email is required" else "Email is invalid")
      ensures CurrentPassword in errors <==> old(newPassword) != "" && old(currentPassword) == ""
      ensures CurrentPassword in errors ==>
        errors[CurrentPassword] == "Current password is required to change password"
      ensures NewPassword in errors <==> old(newPassword) != "" && |old(newPassword)| < MinPasswordLength
      ensures NewPassword in errors ==> errors[NewPassword] == "New password must be at least 6 characters"
      ensures ConfirmPassword in errors <==> old(newPassword) != "" && old(newPassword) != old(confirmPassword)
      ensures ConfirmPassword in errors ==> errors[ConfirmPassword] == "Passwords do not match"
      ensures errors != map[] ==> sent.None?
    {
      var ok := ValidateForm();
      if !ok {
        return None;
      }
      var data := UpdateData(None, None);
      if email != userEmail {
        data := data.(email := Some(email));
      }
      if newPassword != "" {
        data := data.(passwords := Some((currentPassword, newPassword)));
      }
      if IsEmpty(data) {
        return None;
      }
      sent := Some(data);
      if succeeded {
        ClearPasswords();
      }
    }

    method ClearPasswords()
      modifies this`currentPassword, this`newPassword, this`confirmPassword
      ensures currentPassword == "" && newPassword == "" && confirmPassword == ""
    {
      currentPassword, newPassword, confirmPassword := "", "", "";
    }
  }
}
