/**
 * The admin settings page: the logged-in admin changes their password (the
 * current one must hash to the stored hash, the new one must differ from it
 * and be typed twice) or their name and email; a saved change is written to
 * the store and to the admin copy in localStorage.
 */
module AdminSettings {
  import opened Common
  import opened Model
  import opened DocumentStore
  import opened AdminAuth

  const FormInvalid: string := "Please fill all fields correctly"
  const WrongCurrentPassword: string := "Current password is incorrect"
  const PasswordChanged: string := "Password changed successfully!"
  const PasswordChangeFailed: string := "Failed to change password. Please try again."
  const ProfileUpdated: string := "Profile updated successfully!"
  const ProfileUpdateFailed: string := "Failed to update profile. Please try again."

  // ------------------------------------------------------- validation

  /** The form-level verdict of passwordMatchValidator. */
  datatype PasswordCheck = Passes | SameAsCurrent | PasswordMismatch

  /**
   * passwordMatchValidator: a new password equal to a given current one is
   * refused first; otherwise a given confirmation must equal a given new
   * password. An empty field takes part in neither test.
   */
  function PasswordMatch(current: string, newPassword: string, confirm: string): (r: PasswordCheck)
    ensures r == SameAsCurrent <==> current != "" && newPassword != "" && current == newPassword
    ensures r == PasswordMismatch <==>
      !(current != "" && newPassword != "" && current == newPassword) &&
      newPassword != "" && confirm != "" && newPassword != confirm
  {
    if current != "" && newPassword != "" && current == newPassword then SameAsCurrent
    else if newPassword != "" && confirm != "" && newPassword != confirm then PasswordMismatch
    else Passes
  }

  /** With all three fields filled, a passing form has a new password that differs from the current one and is confirmed. */
  lemma PassingPasswordsFilled(current: string, newPassword: string, confirm: string)
    requires current != "" && newPassword != "" && confirm != ""
    ensures PasswordMatch(current, newPassword, confirm) == Passes <==> newPassword != current && confirm == newPassword
  {
  }

  /** A validation error on a form control. */
  datatype FieldErrorKind = Required | MinLength | Pattern | Email | Mismatch | SameAsCurrentError

  /** A form control as getFieldError sees it: its errors and whether it has been touched. */
  datatype Field = Field(errors: set<FieldErrorKind>, touched: bool)

  /** The order in which getFieldError looks at a control's errors. */
  const PasswordErrorOrder: seq<FieldErrorKind> := [Required, MinLength, Pattern, Email, Mismatch, SameAsCurrentError]

  /** The message getFieldError gives for one error of the password form. */
  function PasswordErrorMessage(fieldName: string, e: FieldErrorKind): string
  {
    match e
    case Required => fieldName + " is required"
    case MinLength => fieldName + " must be at least 6 characters"
    case Pattern => "Password must contain uppercase, lowercase, number, and special character"
    case Email => "Please enter a valid email"
    case Mismatch => "Passwords do not match"
    case SameAsCurrentError => "New password cannot be the same as current password"
  }

  /** The first error of `order`, from position i on, that the control has. */
  function FirstError(order: seq<FieldErrorKind>, i: nat, errors: set<FieldErrorKind>): (r: Option<FieldErrorKind>)
    requires i <= |order|
    ensures r.Some? ==>
      r.value in errors && exists k :: i <= k < |order| && order[k] == r.value && forall j :: i <= j < k ==> order[j] !in errors
    ensures r.None? <==> forall j :: i <= j < |order| ==> order[j] !in errors
    decreases |order| - i
  {
    if i == |order| then None
    else if order[i] in errors then Some(order[i])
    else FirstError(order, i + 1, errors)
  }

  /** getFieldError: for a touched control with errors, the message of its first error in the checking order; otherwise ''. */
  function FieldError(fieldName: string, f: Field): (r: string)
    ensures !f.touched || f.errors == {} ==> r == ""
    ensures f.touched && Required in f.errors ==> r == fieldName + " is required"
    ensures f.touched && Required !in f.errors && MinLength in f.errors ==> r == fieldName + " must be at least 6 characters"
  {
    if f.touched && f.errors != {} then
      if Required in f.errors then PasswordErrorMessage(fieldName, Required)
      else if MinLength in f.errors then PasswordErrorMessage(fieldName, MinLength)
      else if Pattern in f.errors then PasswordErrorMessage(fieldName, Pattern)
      else if Email in f.errors then PasswordErrorMessage(fieldName, Email)
      else if Mismatch in f.errors then PasswordErrorMessage(fieldName, Mismatch)
      else PasswordErrorMessage(fieldName, SameAsCurrentError)
    else ""
  }

  /** The chain of tests in getFieldError is the first error in the checking order. */
  lemma FieldErrorFollowsOrder(fieldName: string, f: Field)
    requires f.touched && f.errors != {}
    ensures FirstError(PasswordErrorOrder, 0, f.errors).Some?
    ensures FieldError(fieldName, f) == PasswordErrorMessage(fieldName, FirstError(PasswordErrorOrder, 0, f.errors).value)
  {
    var e :| e in f.errors;
    assert PasswordErrorOrder[0] == Required && PasswordErrorOrder[1] == MinLength && PasswordErrorOrder[2] == Pattern;
    assert PasswordErrorOrder[3] == Email && PasswordErrorOrder[4] == Mismatch && PasswordErrorOrder[5] == SameAsCurrentError;
    assert e == Required || e == MinLength || e == Pattern || e == Email || e == Mismatch || e == SameAsCurrentError;
    assert FirstError(PasswordErrorOrder, 6, f.errors) == None;
  }

  /** getProfileFieldError: the same rule on the profile form, whose controls can fail required, minlength or email. */
  function ProfileFieldError(fieldName: string, f: Field): (r: string)
    ensures !f.touched || !(Required in f.errors || MinLength in f.errors || Email in f.errors) ==> r == ""
    ensures f.touched && Required in f.errors ==> r == fieldName + " is required"
    ensures f.touched && Required !in f.errors && MinLength in f.errors ==> r == fieldName + " must be at least 2 characters"
    ensures f.touched && Required !in f.errors && MinLength !in f.errors && Email in f.errors ==> r == "Please enter a valid email"
  {
    if f.touched && f.errors != {} then
      if Required in f.errors then fieldName + " is required"
      else if MinLength in f.errors then fieldName + " must be at least 2 characters"
      else if Email in f.errors then "Please enter a valid email"
      else ""
    else ""
  }

  // ---------------------------------------------------------- store

  /** The index of the first admin with the id, or -1. */
  function IndexOfAdmin(admins: seq<Admin>, id: string): (r: int)
    ensures -1 <= r < |admins|
    ensures r >= 0 ==> admins[r].id == id && forall k :: 0 <= k < r ==> admins[k].id != id
    ensures r == -1 <==> forall k :: 0 <= k < |admins| ==> admins[k].id != id
  {
    if admins == [] then -1
    else if admins[0].id == id then 0
    else
      var k := IndexOfAdmin(admins[1..], id);
      if k == -1 then -1 else k + 1
  }

  /** PUT /admins/id: the first admin with that id is replaced; without one nothing changes. */
  function ReplaceAdmin(admins: seq<Admin>, id: string, a: Admin): (r: seq<Admin>)
    ensures |r| == |admins|
    ensures IndexOfAdmin(admins, id) == -1 ==> r == admins
    ensures IndexOfAdmin(admins, id) >= 0 ==> r == admins[IndexOfAdmin(admins, id) := a]
  {
    var k := IndexOfAdmin(admins, id);
    if k == -1 then admins else admins[k := a]
  }

  // -------------------------------------------------------------- page

  /** The values of the change-password form. */
  datatype PasswordForm = PasswordForm(currentPassword: string, newPassword: string, confirmPassword: string)

  const BlankPasswordForm: PasswordForm := PasswordForm("", "", "")

  class AdminSettingsPage {
    const auth: AdminAuthService
    var currentAdmin: Option<Admin>
    var passwordForm: PasswordForm
    var profileName: string
    var profileEmail: string
    var isLoading: bool
    var successMessage: string
    var errorMessage: string
    var showPasswordChange: bool
    var showProfileEdit: bool
    var navigatedTo: Option<string>

    constructor (auth: AdminAuthService)
      ensures this.auth == auth && currentAdmin == None && passwordForm == BlankPasswordForm
      ensures profileName == "" && profileEmail == "" && !isLoading
      ensures successMessage == "" && errorMessage == "" && !showPasswordChange && !showProfileEdit
      ensures navigatedTo == None
    {
      this.auth := auth;
      currentAdmin := None;
      passwordForm := BlankPasswordForm;
      profileName := "";
      profileEmail := "";
      isLoading := false;
      successMessage := "";
      errorMessage := "";
      showPasswordChange := false;
      showProfileEdit := false;
      navigatedTo := None;
    }

    /** ngOnInit: without a current admin the admin login page opens; otherwise the profile form shows the admin's name and email. */
    method OnInit()
      modifies this`currentAdmin, this`navigatedTo, this`profileName, this`profileEmail
      ensures currentAdmin == auth.currentAdmin
      ensures currentAdmin.None? ==>
        navigatedTo == Some("/admin/login") && profileName == old(profileName) && profileEmail == old(profileEmail)
      ensures currentAdmin.Some? ==>
        navigatedTo == old(navigatedTo) && profileName == currentAdmin.value.name && profileEmail == currentAdmin.value.email
    {
      currentAdmin := auth.currentAdmin;
      if currentAdmin.None? {
        navigatedTo := Some("/admin/login");
        return;
      }
      profileName, profileEmail := currentAdmin.value.name, currentAdmin.value.email;
    }

    /**
     * onChangePassword: an invalid form and a current password whose hash is
     * not the stored one write nothing; otherwise the admin, with only the
     * password replaced by the new one's hash, is PUT to the store and, once
     * saved, becomes the page's admin and the copy in localStorage.
     */
    method OnChangePassword(formValid: bool, hash: string -> string, reachable: bool)
      requires currentAdmin.Some?
      modifies this`isLoading, this`errorMessage, this`successMessage, this`passwordForm, this`showPasswordChange,
        this`currentAdmin, auth.store, auth.local
      ensures !formValid ==>
        errorMessage == FormInvalid && currentAdmin == old(currentAdmin) && isLoading == old(isLoading) &&
        auth.store.admins == old(auth.store.admins) && auth.local.items == old(auth.local.items)
      ensures formValid && hash(old(passwordForm).currentPassword) != old(currentAdmin).value.password ==>
        errorMessage == WrongCurrentPassword && !isLoading && currentAdmin == old(currentAdmin) &&
        auth.store.admins == old(auth.store.admins) && auth.local.items == old(auth.local.items)
      ensures formValid && hash(old(passwordForm).currentPassword) == old(currentAdmin).value.password ==>
        var updated := old(currentAdmin).value.(password := hash(old(passwordForm).newPassword));
        var saved := reachable && IndexOfAdmin(old(auth.store.admins), updated.id) >= 0;
        !isLoading &&
        (saved ==>
          successMessage == PasswordChanged && errorMessage == "" && currentAdmin == Some(updated) &&
          passwordForm == BlankPasswordForm && !showPasswordChange &&
          auth.store.admins == ReplaceAdmin(old(auth.store.admins), updated.id, updated) &&
          auth.local.items == old(auth.local.items)[CurrentAdminKey := AdminJson(updated)]) &&
        (!saved ==>
          errorMessage == PasswordChangeFailed && successMessage == "" && currentAdmin == old(currentAdmin) &&
          auth.store.admins == old(auth.store.admins) && auth.local.items == old(auth.local.items))
    {
      if !formValid {
        errorMessage := FormInvalid;
        return;
      }
      isLoading := true;
      errorMessage := "";
      successMessage := "";
      var admin := currentAdmin.value;
      if hash(passwordForm.currentPassword) != admin.password {
        errorMessage := WrongCurrentPassword;
        isLoading := false;
        return;
      }
      var updated := admin.(password := hash(passwordForm.newPassword));
      if reachable && IndexOfAdmin(auth.store.admins, updated.id) >= 0 {
        auth.store.admins := ReplaceAdmin(auth.store.admins, updated.id, updated);
        successMessage := PasswordChanged;
        passwordForm := BlankPasswordForm;
        showPasswordChange := false;
        isLoading := false;
        auth.local.SetItem(CurrentAdminKey, AdminJson(updated));
        currentAdmin := Some(updated);
      } else {
        errorMessage := PasswordChangeFailed;
        isLoading := false;
      }
    }

    /**
     * onUpdateProfile: a valid form PUTs the admin with the new name and
     * email; once saved it becomes the page's admin and the copy in
     * localStorage, and the profile form closes.
     */
    method OnUpdateProfile(formValid: bool, reachable: bool)
      requires currentAdmin.Some?
      modifies this`isLoading, this`errorMessage, this`successMessage, this`showProfileEdit, this`currentAdmin,
        auth.store, auth.local
      ensures !formValid ==>
        errorMessage == FormInvalid && currentAdmin == old(currentAdmin) && isLoading == old(isLoading) &&
        auth.store.admins == old(auth.store.admins) && auth.local.items == old(auth.local.items)
      ensures formValid ==>
        var updated := old(currentAdmin).value.(name := profileName, email := profileEmail);
        var saved := reachable && IndexOfAdmin(old(auth.store.admins), updated.id) >= 0;
        !isLoading &&
        (saved ==>
          successMessage == ProfileUpdated && errorMessage == "" && currentAdmin == Some(updated) && !showProfileEdit &&
          auth.store.admins == ReplaceAdmin(old(auth.store.admins), updated.id, updated) &&
          auth.local.items == old(auth.local.items)[CurrentAdminKey := AdminJson(updated)]) &&
        (!saved ==>
          errorMessage == ProfileUpdateFailed && successMessage == "" && currentAdmin == old(currentAdmin) &&
          auth.store.admins == old(auth.store.admins) && auth.local.items == old(auth.local.items))
    {
      if !formValid {
        errorMessage := FormInvalid;
        return;
      }
      isLoading := true;
      errorMessage := "";
      successMessage := "";
      var updated := currentAdmin.value.(name := profileName, email := profileEmail);
      if reachable && IndexOfAdmin(auth.store.admins, updated.id) >= 0 {
        auth.store.admins := ReplaceAdmin(auth.store.admins, updated.id, updated);
        successMessage := ProfileUpdated;
        showProfileEdit := false;
        isLoading := false;
        auth.local.SetItem(CurrentAdminKey, AdminJson(updated));
        currentAdmin := Some(updated);
      } else {
        errorMessage := ProfileUpdateFailed;
        isLoading := false;
      }
    }

    /** togglePasswordChange: flips the password form, closes the profile form, and clears the form and messages. */
    method TogglePasswordChange()
      modifies this`showPasswordChange, this`showProfileEdit, this`passwordForm, this`errorMessage, this`successMessage
      ensures showPasswordChange == !old(showPasswordChange) && !showProfileEdit
      ensures passwordForm == BlankPasswordForm && errorMessage == "" && successMessage == ""
    {
      showPasswordChange := !showPasswordChange;
      showProfileEdit := false;
      passwordForm := BlankPasswordForm;
      errorMessage := "";
      successMessage := "";
    }

    /** toggleProfileEdit: flips the profile form, closes the password form, and clears the messages. */
    method ToggleProfileEdit()
      modifies this`showPasswordChange, this`showProfileEdit, this`errorMessage, this`successMessage
      ensures showProfileEdit == !old(showProfileEdit) && !showPasswordChange
      ensures errorMessage == "" && successMessage == ""
    {
      showProfileEdit := !showProfileEdit;
      showPasswordChange := false;
      errorMessage := "";
      successMessage := "";
    }
  }
}
