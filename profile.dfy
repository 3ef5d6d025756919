/**
 * The profile page's handlers: the account-update submit (email, then password
 * checks, then the profile write), the tab switch and the "add address" button.
 * The identity provider's and the profile store's outcomes are parameters.
 */
module Profile {
  import opened Wrappers
  import Signup
  import Addresses

  const Updated := "Profile updated successfully!"

  /**
   * handleUpdateProfile's checks on the new password, the match first and then
   * the length; an empty new password skips both.
   */
  function PasswordCheck(newPassword: string, confirm: string): (r: Option<string>)
    ensures newPassword == "" ==> r.None?
    ensures newPassword != "" ==> (r.None? <==> Signup.Acceptable(newPassword, confirm))
    ensures newPassword != confirm && newPassword != "" ==> r == Some(Signup.Mismatch)
    ensures newPassword == confirm && 0 < |newPassword| < Signup.MinPasswordLength ==> r == Some(Signup.TooShort)
  {
    if newPassword == "" then None
    else if newPassword != confirm then Some(Signup.Mismatch)
    else if |newPassword| < Signup.MinPasswordLength then Some(Signup.TooShort)
    else None
  }

  /** The two forms check in opposite orders: a short, mismatched pair gets different messages. */
  lemma CheckOrdersDiffer(password: string, confirm: string)
    requires 0 < |password| < Signup.MinPasswordLength && password != confirm
    ensures Signup.SignupCheck(password, confirm) == Some(Signup.TooShort)
    ensures PasswordCheck(password, confirm) == Some(Signup.Mismatch)
  {
  }

  /** For a non-empty password both forms accept exactly the same pairs. */
  lemma ChecksAcceptAlike(password: string, confirm: string)
    requires password != ""
    ensures Signup.SignupCheck(password, confirm).None? <==> PasswordCheck(password, confirm).None?
  {
  }

  /** The account form's fields. */
  datatype AccountForm = AccountForm(
    email: string,
    newPassword: string,
    confirmPassword: string,
    displayName: string,
    phoneNumber: string)

  /** How the external calls end: `None` when the call resolves, `Some(message)` when it rejects. */
  datatype CallOutcomes = CallOutcomes(
    updateEmail: Option<string>,
    updatePassword: Option<string>,
    saveProfile: Option<string>)

  /** What a submit did: which external calls it made, the messages it set and the form afterwards. */
  datatype UpdateOutcome = UpdateOutcome(
    emailUpdateCalled: bool,
    passwordUpdateCalled: bool,
    profileSaveCalled: bool,
    error: Option<string>,
    success: Option<string>,
    form: AccountForm)

  /** The profile write and re-read, the last step of a submit. */
  function SaveStep(emailCalled: bool, passwordCalled: bool, form: AccountForm, out: CallOutcomes): UpdateOutcome {
    match out.saveProfile
    case Some(m) => UpdateOutcome(emailCalled, passwordCalled, true, Some(m), None, form)
    case None => UpdateOutcome(emailCalled, passwordCalled, true, None, Some(Updated), form)
  }

  /**
   * handleUpdateProfile: nothing without a user; otherwise the email is updated
   * when it differs from the user's, then the new password (if any) is checked and
   * set, then the profile is saved. The first rejection becomes the error message.
   */
  function HandleUpdateProfile(user: Option<Addresses.AuthUser>, form: AccountForm, out: CallOutcomes): (r: Option<UpdateOutcome>)
    ensures user.None? <==> r.None?
    ensures r.Some? ==> (r.value.emailUpdateCalled <==> user.value.email != Some(form.email))
    ensures r.Some? ==> (r.value.error.Some? <==> r.value.success.None?)
    ensures r.Some? && r.value.passwordUpdateCalled ==>
      Signup.Acceptable(form.newPassword, form.confirmPassword)
    ensures r.Some? && r.value.error.None? ==>
      r.value.profileSaveCalled && r.value.form.displayName == form.displayName
      && (form.newPassword != "" ==> r.value.form.newPassword == "" && r.value.form.confirmPassword == "")
    ensures (r.Some? && (user.value.email == Some(form.email) || out.updateEmail.None?)
             && PasswordCheck(form.newPassword, form.confirmPassword).Some?) ==>
      && r.value.error == PasswordCheck(form.newPassword, form.confirmPassword)
      && !r.value.passwordUpdateCalled && !r.value.profileSaveCalled
      && r.value.form == form
    ensures r.Some? && r.value.emailUpdateCalled && out.updateEmail.Some? ==>
      && r.value.error == out.updateEmail
      && !r.value.passwordUpdateCalled && !r.value.profileSaveCalled
      && r.value.form == form
    ensures r.Some? && r.value.passwordUpdateCalled && out.updatePassword.Some? ==>
      r.value.error == out.updatePassword && !r.value.profileSaveCalled && r.value.form == form
    ensures r.Some? && r.value.passwordUpdateCalled && out.updatePassword.None? ==>
      && r.value.form == form.(newPassword := "", confirmPassword := "")
      && r.value.profileSaveCalled && r.value.error == out.saveProfile
    ensures r.Some? ==>
      (r.value.passwordUpdateCalled <==>
        && (user.value.email == Some(form.email) || out.updateEmail.None?)
        && form.newPassword != ""
        && Signup.Acceptable(form.newPassword, form.confirmPassword))
    ensures r.Some? && r.value.profileSaveCalled ==>
      r.value.error == out.saveProfile && (out.saveProfile.None? ==> r.value.success == Some(Updated))
    ensures (r.Some? && (user.value.email == Some(form.email) || out.updateEmail.None?)
             && PasswordCheck(form.newPassword, form.confirmPassword).None?
             && (form.newPassword == "" || out.updatePassword.None?)) ==>
      r.value.profileSaveCalled
    ensures r.Some? && !r.value.passwordUpdateCalled ==> r.value.form == form
  {
    if user.None? then None
    else
      var emailCalled := user.value.email != Some(form.email);
      if emailCalled && out.updateEmail.Some? then
        Some(UpdateOutcome(true, false, false, out.updateEmail, None, form))
      else if form.newPassword == "" then
        Some(SaveStep(emailCalled, false, form, out))
      else match PasswordCheck(form.newPassword, form.confirmPassword)
        case Some(m) => Some(UpdateOutcome(emailCalled, false, false, Some(m), None, form))
        case None =>
          match out.updatePassword
          case Some(m) => Some(UpdateOutcome(emailCalled, true, false, Some(m), None, form))
          case None =>
            Some(SaveStep(emailCalled, true, form.(newPassword := "", confirmPassword := ""), out))
  }

  /** A changed email is updated even when the password check then rejects the submit. */
  lemma EmailUpdateNotUndone(user: Addresses.AuthUser, form: AccountForm, out: CallOutcomes)
    requires user.email != Some(form.email) && out.updateEmail.None?
    requires form.newPassword != "" && !Signup.Acceptable(form.newPassword, form.confirmPassword)
    ensures var r := HandleUpdateProfile(Some(user), form, out).value;
      r.emailUpdateCalled && r.error.Some? && !r.profileSaveCalled
  {
  }

  /** The profile page's view state touched by the tab and address handlers. */
  datatype PageState = PageState(
    tabValue: int,
    error: Option<string>,
    success: Option<string>,
    editingAddressId: Option<string>,
    addressForm: Addresses.AddressInput,
    addressDialogOpen: bool)

  const EmptyAddressForm := Addresses.AddressInput("", "", "", "", "", "", false)

  /** handleTabChange: switch tab and clear both messages. */
  function HandleTabChange(s: PageState, newValue: int): (r: PageState)
    ensures r.tabValue == newValue && r.error.None? && r.success.None?
    ensures r.editingAddressId == s.editingAddressId && r.addressForm == s.addressForm
    ensures r.addressDialogOpen == s.addressDialogOpen
  {
    s.(tabValue := newValue, error := None, success := None)
  }

  /** handleAddNewAddress: not editing, an all-empty non-default form, dialog open. */
  function HandleAddNewAddress(s: PageState): (r: PageState)
    ensures r.editingAddressId.None? && r.addressDialogOpen
    ensures r.addressForm.name == "" && r.addressForm.street == "" && r.addressForm.city == ""
    ensures r.addressForm.state == "" && r.addressForm.zipCode == "" && r.addressForm.country == ""
    ensures !r.addressForm.isDefault
    ensures r.tabValue == s.tabValue && r.error == s.error && r.success == s.success
  {
    s.(editingAddressId := None, addressForm := EmptyAddressForm, addressDialogOpen := true)
  }
}
