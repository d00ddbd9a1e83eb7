/**
 * The profile page, src/pages/Profile.tsx: a controlled form with two
 * handlers that only show toasts, and one of them clears the password fields.
 */
module Profile {
  import opened Optional
  import opened Feedback

  datatype ProfileForm = ProfileForm(
    name: string, email: string,
    currentPassword: string, newPassword: string, confirmPassword: string)

  datatype Field = Name | Email | CurrentPassword | NewPassword | ConfirmPassword

  function FieldValue(form: ProfileForm, field: Field): string {
    match field
    case Name => form.name
    case Email => form.email
    case CurrentPassword => form.currentPassword
    case NewPassword => form.newPassword
    case ConfirmPassword => form.confirmPassword
  }

  /** `setFormData({ ...formData, [field]: value })`, one `onChange` per input. */
  function WithField(form: ProfileForm, field: Field, value: string): (updated: ProfileForm)
    ensures FieldValue(updated, field) == value
    ensures forall other :: other != field ==> FieldValue(updated, other) == FieldValue(form, other)
  {
    match field
    case Name => form.(name := value)
    case Email => form.(email := value)
    case CurrentPassword => form.(currentPassword := value)
    case NewPassword => form.(newPassword := value)
    case ConfirmPassword => form.(confirmPassword := value)
  }

  predicate IsPasswordField(field: Field) {
    field == CurrentPassword || field == NewPassword || field == ConfirmPassword
  }

  /** The form after an accepted password change. */
  function PasswordsCleared(form: ProfileForm): (cleared: ProfileForm)
    ensures forall field :: IsPasswordField(field) ==> FieldValue(cleared, field) == ""
    ensures forall field :: !IsPasswordField(field) ==> FieldValue(cleared, field) == FieldValue(form, field)
  {
    form.(currentPassword := "", newPassword := "", confirmPassword := "")
  }

  const InitialForm := ProfileForm("Admin User", "admin@ironwall.dev", "", "", "")
  const SavedToast := Toast("Profile updated", "Your profile information has been saved successfully.", false)
  const MismatchToast := Toast("Error", "New passwords do not match.", true)
  const ChangedToast := Toast("Password updated", "Your password has been changed successfully.", false)

  class ProfilePage {
    var formData: ProfileForm
    /** The last toast shown. */
    var toast: Option<Toast>

    constructor ()
      ensures formData == InitialForm && toast == None
    {
      formData := InitialForm;
      toast := None;
    }

    method OnChange(field: Field, value: string)
      modifies this
      ensures formData == WithField(old(formData), field, value) && toast == old(toast)
    {
      formData := WithField(formData, field, value);
    }

    /** handleSave only shows a toast; nothing is sent and the form is kept. */
    method HandleSave()
      modifies this
      ensures formData == old(formData) && toast == Some(SavedToast)
    {
      toast := Some(SavedToast);
    }

    /**
     * handlePasswordChange: the only check is that the two new passwords are
     * equal. A mismatch leaves the form untouched; a match clears the three
     * password fields and nothing else.
     */
    method HandlePasswordChange() returns (accepted: bool)
      modifies this
      ensures accepted <==> old(formData).newPassword == old(formData).confirmPassword
      ensures !accepted ==> formData == old(formData) && toast == Some(MismatchToast)
      ensures accepted ==> formData == PasswordsCleared(old(formData)) && toast == Some(ChangedToast)
    {
      if formData.newPassword != formData.confirmPassword {
        toast := Some(MismatchToast);
        return false;
      }
      toast := Some(ChangedToast);
      formData := PasswordsCleared(formData);
      accepted := true;
    }
  }

  /**
   * Equality is the whole check: empty passwords pass, and neither the length
   * nor the current password is looked at.
   */
  lemma OnlyEqualityIsChecked(form: ProfileForm, current: string, password: string)
    ensures var f := form.(currentPassword := current, newPassword := password, confirmPassword := password);
      PasswordsCleared(f) == PasswordsCleared(form)
      && PasswordsCleared(f).name == form.name && PasswordsCleared(f).email == form.email
  {
  }

  /** A cleared form passes the check again, and clearing it twice changes nothing. */
  lemma ClearedFormIsStable(form: ProfileForm)
    ensures PasswordsCleared(form).newPassword == PasswordsCleared(form).confirmPassword
    ensures PasswordsCleared(PasswordsCleared(form)) == PasswordsCleared(form)
  {
  }
}
