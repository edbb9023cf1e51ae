/**
 * The "Manage profile" page: five sections (account, addresses, payment
 * methods, security, account deletion), each editing a copy of the data and
 * handing it to the profile service; a saved change reloads the profile or
 * merges the edit into it, and every outcome is reported in a toast.
 */
module ManageProfile {
  import opened Common
  import opened Model
  import opened DocumentStore
  import opened ManageProfileService

  /** The sections the page can show; anything else shows 'account'. */
  const Sections: set<string> := {"account", "address", "payment", "security", "danger"}

  /** A toast message: a success or an error. */
  datatype Toast = Success(text: string) | Failure(text: string)

  /** The texts of the toasts. */
  const AccountUpdatedText: string := "Account information updated successfully"
  const AddressUpdatedText: string := "Address updated successfully"
  const AddressRemovedText: string := "Address removed successfully"
  const PaymentUpdatedText: string := "Payment method updated successfully"
  const PaymentUpdateFailedText: string := "Error updating payment method: "
  const PaymentRemovedText: string := "Payment method removed successfully"
  const PaymentRemoveFailedText: string := "Error removing payment method: "
  const PasswordResetText: string := "Password reset successfully"
  const PasswordResetFailedText: string := "Error resetting password: "
  const AccountDeletedText: string := "Account deleted successfully"
  const ProfileLoadFailedText: string := "Error loading profile: "
  const AccountUpdateFailedText: string := "Error updating account: "
  const AddressUpdateFailedText: string := "Error updating address: "
  const AddressRemoveFailedText: string := "Error removing address: "
  const AccountDeleteFailedText: string := "Error deleting account: "

  /** The values of the reset-password dialog. */
  datatype PasswordData = PasswordData(currentPassword: string, newPassword: string, confirmPassword: string)

  const BlankPasswordData: PasswordData := PasswordData("", "", "")

  /** A new payment method: a card with every field empty. */
  const BlankPayment: PaymentMethod := PaymentMethod("card", "", "", "", "", "", "")

  /** The cleared address form (an empty object). */
  const NoAddress: UserAddress := Entry("", Address("", "", "", "", "", "", "", "", "", false))

  /** The cleared payment form (an empty object, so not even a type). */
  const NoPayment: UserPaymentMethod := Entry("", PaymentMethod("", "", "", "", "", "", ""))

  /** The address a new entry starts from: the user's name and phone, everything else empty. */
  function NewAddressFor(u: User): (r: UserAddress)
    ensures r.id == "" && r.value.fullName == u.name && r.value.phone == u.phone
    ensures r.value.addressLine1 == "" && r.value.city == "" && r.value.country == "" && !r.value.isDefault
  {
    Entry("", Address(u.name, "", u.phone, "", "", "", "", "", "", false))
  }

  /** The account form filled from the user: every field present, so saving it unchanged changes nothing. */
  function AccountFormOf(u: User): (r: AccountData)
    ensures r.name == Some(u.name) && r.email == Some(u.email) && r.phone == Some(u.phone)
    ensures r.dateOfBirth == Some(u.dateOfBirth) && r.gender == Some(u.gender)
  {
    AccountData(Some(u.name), Some(u.email), Some(u.phone), Some(u.dateOfBirth), Some(u.gender))
  }

  /** Saving the account form as it was opened gives back the same user. */
  lemma UnchangedFormKeepsUser(u: User)
    ensures MergeAccount(u, AccountFormOf(u)) == u
  {
  }

  /** getMaskedCardNumber: '****' for fewer than four characters, else three masked groups and the last four. */
  function MaskedCardNumber(cardNumber: string): (r: string)
    ensures |cardNumber| < 4 ==> r == "****"
    ensures |cardNumber| >= 4 ==> |r| == 19 && r[15..] == cardNumber[|cardNumber| - 4..]
    ensures forall i :: 0 <= i < |r| && i < 15 ==> r[i] == '*' || r[i] == ' '
  {
    if |cardNumber| < 4 then "****" else "**** **** **** " + cardNumber[|cardNumber| - 4..]
  }

  /** getYearRange: the 21 years from the current one on, in increasing order. */
  method YearRange(currentYear: int) returns (years: seq<int>)
    ensures |years| == 21
    ensures forall i :: 0 <= i < |years| ==> years[i] == currentYear + i
  {
    years := [];
    var y := currentYear;
    while y <= currentYear + 20
      invariant currentYear <= y <= currentYear + 21
      invariant |years| == y - currentYear
      invariant forall i :: 0 <= i < |years| ==> years[i] == currentYear + i
    {
      years := years + [y];
      y := y + 1;
    }
  }

  class ManageProfilePage {
    const service: ProfileService
    var user: User
    var loading: bool
    var activeSection: string
    var editingAccount: bool
    var editingAddress: bool
    var editingPayment: bool
    var tempAccountData: AccountData
    var tempAddressData: UserAddress
    var tempPaymentData: UserPaymentMethod
    var passwordData: PasswordData
    var selectedAddress: Option<UserAddress>
    var selectedPayment: Option<UserPaymentMethod>
    var showDeleteAccountModal: bool
    var showResetPasswordModal: bool
    var toast: Option<Toast>
    var navigatedTo: Option<string>

    constructor (service: ProfileService, blank: User)
      ensures this.service == service && user == blank && !loading && activeSection == "account"
      ensures !editingAccount && !editingAddress && !editingPayment && tempAccountData == NoAccountData
      ensures passwordData == BlankPasswordData && selectedAddress == None && selectedPayment == None
      ensures !showDeleteAccountModal && !showResetPasswordModal && toast == None && navigatedTo == None
    {
      this.service := service;
      user := blank;
      loading := false;
      activeSection := "account";
      editingAccount := false;
      editingAddress := false;
      editingPayment := false;
      tempAccountData := NoAccountData;
      tempAddressData := NoAddress;
      tempPaymentData := NoPayment;
      passwordData := BlankPasswordData;
      selectedAddress := None;
      selectedPayment := None;
      showDeleteAccountModal := false;
      showResetPasswordModal := false;
      toast := None;
      navigatedTo := None;
    }

    /** loadUserProfile: the profile read from the store becomes the page's user; an error is shown instead. */
    method LoadUserProfile(reachable: bool)
      modifies this`user, this`loading, this`toast
      ensures !loading
      ensures service.Profile(reachable).Ok? ==> user == service.Profile(reachable).value && toast == old(toast)
      ensures service.Profile(reachable).Err? ==>
        user == old(user) && toast == Some(Failure(ProfileLoadFailedText + service.Profile(reachable).message))
    {
      loading := true;
      var p := service.Profile(reachable);
      if p.Ok? {
        user := p.value;
      } else {
        toast := Some(Failure(ProfileLoadFailedText + p.message));
      }
      loading := false;
    }

    /**
     * ngOnInit: the profile is loaded (a failed read keeps the user and shows
     * the error) and a non-empty URL fragment picks the section, cancelling
     * every edit as setActiveSection does; without one nothing else changes.
     */
    method OnInit(reachable: bool, fragment: Option<string>)
      modifies this`user, this`loading, this`toast, this`activeSection, this`editingAccount, this`tempAccountData,
        this`editingAddress, this`tempAddressData, this`selectedAddress, this`editingPayment, this`tempPaymentData,
        this`selectedPayment, this`showResetPasswordModal, this`passwordData, this`showDeleteAccountModal
      ensures !loading && navigatedTo == old(navigatedTo)
      ensures service.Profile(reachable).Ok? ==> user == service.Profile(reachable).value && toast == old(toast)
      ensures service.Profile(reachable).Err? ==>
        user == old(user) && toast == Some(Failure(ProfileLoadFailedText + service.Profile(reachable).message))
      ensures fragment.Some? && fragment.value != "" ==>
        activeSection == (if fragment.value in Sections then fragment.value else "account") &&
        !editingAccount && !editingAddress && !editingPayment && tempAccountData == NoAccountData &&
        tempAddressData == NoAddress && tempPaymentData == NoPayment && selectedAddress == None && selectedPayment == None &&
        !showResetPasswordModal && !showDeleteAccountModal && passwordData == BlankPasswordData
      ensures !(fragment.Some? && fragment.value != "") ==>
        activeSection == old(activeSection) && editingAccount == old(editingAccount) && editingAddress == old(editingAddress) &&
        editingPayment == old(editingPayment) && tempAccountData == old(tempAccountData) &&
        tempAddressData == old(tempAddressData) && tempPaymentData == old(tempPaymentData) &&
        selectedAddress == old(selectedAddress) && selectedPayment == old(selectedPayment) &&
        showResetPasswordModal == old(showResetPasswordModal) && showDeleteAccountModal == old(showDeleteAccountModal) &&
        passwordData == old(passwordData)
    {
      LoadUserProfile(reachable);
      if fragment.Some? && fragment.value != "" {
        SetActiveSection(fragment.value);
      }
    }

    /** startEditingAccount: the form is filled from the user. */
    method StartEditingAccount()
      modifies this`editingAccount, this`tempAccountData
      ensures editingAccount && tempAccountData == AccountFormOf(user)
    {
      editingAccount := true;
      tempAccountData := AccountFormOf(user);
    }

    /**
     * saveAccountInfo: once the store has the merged record, the edited
     * fields are merged into the page's user and the form closes; an error
     * leaves the user and the form as they were.
     */
    method SaveAccountInfo(reachable: bool)
      modifies this`user, this`editingAccount, this`tempAccountData, this`toast, this`loading, service.store
      ensures !loading
      ensures old(service.Profile(reachable)).Ok? ==>
        user == MergeAccount(old(user), old(tempAccountData)) && !editingAccount && tempAccountData == NoAccountData &&
        toast == Some(Success(AccountUpdatedText))
      ensures old(service.Profile(reachable)).Err? ==>
        user == old(user) && editingAccount == old(editingAccount) && tempAccountData == old(tempAccountData) &&
        toast == Some(Failure(AccountUpdateFailedText + old(service.Profile(reachable)).message)) &&
        service.store.users == old(service.store.users)
    {
      loading := true;
      var r := service.UpdateAccountInfo(reachable, tempAccountData);
      if r.Ok? {
        user := MergeAccount(user, tempAccountData);
        editingAccount := false;
        tempAccountData := NoAccountData;
        toast := Some(Success(AccountUpdatedText));
      } else {
        toast := Some(Failure(AccountUpdateFailedText + r.message));
      }
      loading := false;
    }

    /** cancelEditingAccount. */
    method CancelEditingAccount()
      modifies this`editingAccount, this`tempAccountData
      ensures !editingAccount && tempAccountData == NoAccountData
    {
      editingAccount := false;
      tempAccountData := NoAccountData;
    }

    /** startEditingAddress: a copy of the given address, or a new one with the user's name and phone. */
    method StartEditingAddress(address: Option<UserAddress>)
      modifies this`editingAddress, this`selectedAddress, this`tempAddressData
      ensures editingAddress && selectedAddress == address
      ensures address.Some? ==> tempAddressData == address.value
      ensures address.None? ==> tempAddressData == NewAddressFor(user)
    {
      editingAddress := true;
      selectedAddress := address;
      if address.Some? {
        tempAddressData := address.value;
      } else {
        tempAddressData := NewAddressFor(user);
      }
    }

    /** saveAddress: the edited address goes to the service; on success the profile is reloaded and the form closes. */
    method SaveAddress(reachable: bool, now: nat)
      modifies this`user, this`editingAddress, this`tempAddressData, this`selectedAddress, this`toast, this`loading,
        service.store
      ensures !loading
      ensures old(service.Profile(reachable)).Ok? ==>
        var u := old(service.Profile(reachable)).value;
        service.store.users ==
          ReplaceUser(old(service.store.users), u.(addresses := Upsert(u.addresses, old(tempAddressData), NatToString(now)))) &&
        user == u.(addresses := Upsert(u.addresses, old(tempAddressData), NatToString(now))) &&
        !editingAddress && tempAddressData == NoAddress && selectedAddress == None &&
        toast == Some(Success(AddressUpdatedText))
      ensures old(service.Profile(reachable)).Err? ==>
        service.store.users == old(service.store.users) && user == old(user) && editingAddress == old(editingAddress) &&
        toast == Some(Failure(AddressUpdateFailedText + old(service.Profile(reachable)).message))
    {
      loading := true;
      var r := service.UpdateAddress(reachable, tempAddressData, now);
      if r.Ok? {
        assert service.Profile(reachable) == r;
        LoadUserProfile(reachable);
        assert user == r.value;
        editingAddress := false;
        tempAddressData := NoAddress;
        selectedAddress := None;
        toast := Some(Success(AddressUpdatedText));
      } else {
        toast := Some(Failure(AddressUpdateFailedText + r.message));
      }
      loading := false;
    }

    /** cancelEditingAddress. */
    method CancelEditingAddress()
      modifies this`editingAddress, this`tempAddressData, this`selectedAddress
      ensures !editingAddress && tempAddressData == NoAddress && selectedAddress == None
    {
      editingAddress := false;
      tempAddressData := NoAddress;
      selectedAddress := None;
    }

    /** removeAddress: only after the shopper confirms; on success the profile is reloaded. */
    method RemoveAddress(addressId: string, confirmed: bool, reachable: bool)
      modifies this`user, this`toast, this`loading, service.store
      ensures !confirmed ==> service.store.users == old(service.store.users) && toast == old(toast) && user == old(user)
      ensures confirmed && old(service.Profile(reachable)).Ok? ==>
        var u := old(service.Profile(reachable)).value;
        service.store.users == ReplaceUser(old(service.store.users), u.(addresses := WithoutId(u.addresses, addressId))) &&
        user == u.(addresses := WithoutId(u.addresses, addressId)) &&
        toast == Some(Success(AddressRemovedText))
      ensures confirmed && old(service.Profile(reachable)).Err? ==>
        service.store.users == old(service.store.users) && user == old(user) &&
        toast == Some(Failure(AddressRemoveFailedText + old(service.Profile(reachable)).message))
    {
      if confirmed {
        loading := true;
        var r := service.RemoveAddress(reachable, addressId);
        if r.Ok? {
          assert service.Profile(reachable) == r;
          LoadUserProfile(reachable);
          assert user == r.value;
          toast := Some(Success(AddressRemovedText));
        } else {
          toast := Some(Failure(AddressRemoveFailedText + r.message));
        }
        loading := false;
      }
    }

    /** startEditingPayment: a copy of the given method, or a new card with every field empty. */
    method StartEditingPayment(payment: Option<UserPaymentMethod>)
      modifies this`editingPayment, this`selectedPayment, this`tempPaymentData
      ensures editingPayment && selectedPayment == payment
      ensures payment.Some? ==> tempPaymentData == payment.value
      ensures payment.None? ==> tempPaymentData == Entry("", BlankPayment) && tempPaymentData.value.kind == "card"
    {
      editingPayment := true;
      selectedPayment := payment;
      if payment.Some? {
        tempPaymentData := payment.value;
      } else {
        tempPaymentData := Entry("", BlankPayment);
      }
    }

    /** savePaymentMethod: the edited method goes to the service; on success the profile is reloaded and the form closes. */
    method SavePaymentMethod(reachable: bool, now: nat)
      modifies this`user, this`editingPayment, this`tempPaymentData, this`selectedPayment, this`toast, this`loading,
        service.store
      ensures !loading
      ensures old(service.Profile(reachable)).Ok? ==>
        var u := old(service.Profile(reachable)).value;
        service.store.users ==
          ReplaceUser(old(service.store.users),
            u.(paymentMethods := Upsert(u.paymentMethods, old(tempPaymentData), NatToString(now)))) &&
        user == u.(paymentMethods := Upsert(u.paymentMethods, old(tempPaymentData), NatToString(now))) &&
        !editingPayment && tempPaymentData == NoPayment && selectedPayment == None &&
        toast == Some(Success(PaymentUpdatedText))
      ensures old(service.Profile(reachable)).Err? ==>
        service.store.users == old(service.store.users) && user == old(user) && editingPayment == old(editingPayment) &&
        toast == Some(Failure(PaymentUpdateFailedText + old(service.Profile(reachable)).message))
    {
      loading := true;
      var r := service.UpdatePaymentMethod(reachable, tempPaymentData, now);
      if r.Ok? {
        assert service.Profile(reachable) == r;
        LoadUserProfile(reachable);
        assert user == r.value;
        editingPayment := false;
        tempPaymentData := NoPayment;
        selectedPayment := None;
        toast := Some(Success(PaymentUpdatedText));
      } else {
        toast := Some(Failure(PaymentUpdateFailedText + r.message));
      }
      loading := false;
    }

    /** cancelEditingPayment. */
    method CancelEditingPayment()
      modifies this`editingPayment, this`tempPaymentData, this`selectedPayment
      ensures !editingPayment && tempPaymentData == NoPayment && selectedPayment == None
    {
      editingPayment := false;
      tempPaymentData := NoPayment;
      selectedPayment := None;
    }

    /** removePaymentMethod: only after the shopper confirms; on success the profile is reloaded. */
    method RemovePaymentMethod(paymentId: string, confirmed: bool, reachable: bool)
      modifies this`user, this`toast, this`loading, service.store
      ensures !confirmed ==> service.store.users == old(service.store.users) && toast == old(toast) && user == old(user)
      ensures confirmed && old(service.Profile(reachable)).Ok? ==>
        var u := old(service.Profile(reachable)).value;
        service.store.users ==
          ReplaceUser(old(service.store.users), u.(paymentMethods := WithoutId(u.paymentMethods, paymentId))) &&
        user == u.(paymentMethods := WithoutId(u.paymentMethods, paymentId)) &&
        toast == Some(Success(PaymentRemovedText))
      ensures confirmed && old(service.Profile(reachable)).Err? ==>
        service.store.users == old(service.store.users) && user == old(user) &&
        toast == Some(Failure(PaymentRemoveFailedText + old(service.Profile(reachable)).message))
    {
      if confirmed {
        loading := true;
        var r := service.RemovePaymentMethod(reachable, paymentId);
        if r.Ok? {
          assert service.Profile(reachable) == r;
          LoadUserProfile(reachable);
          assert user == r.value;
          toast := Some(Success(PaymentRemovedText));
        } else {
          toast := Some(Failure(PaymentRemoveFailedText + r.message));
        }
        loading := false;
      }
    }

    /** openResetPasswordModal: the dialog opens with empty fields. */
    method OpenResetPasswordModal()
      modifies this`showResetPasswordModal, this`passwordData
      ensures showResetPasswordModal && passwordData == BlankPasswordData
    {
      showResetPasswordModal := true;
      passwordData := BlankPasswordData;
    }

    /**
     * resetPassword: a new password that differs from its confirmation is
     * refused on the page, before any request; otherwise the service
     * decides, and success closes the dialog and clears it.
     */
    method ResetPassword(hash: string -> string, reachable: bool)
      modifies this`showResetPasswordModal, this`passwordData, this`toast, this`loading, service.store
      ensures old(passwordData).newPassword != old(passwordData).confirmPassword ==>
        toast == Some(Failure(PasswordsDiffer)) && service.store.users == old(service.store.users) &&
        loading == old(loading) && showResetPasswordModal == old(showResetPasswordModal)
      ensures old(passwordData).newPassword == old(passwordData).confirmPassword ==>
        var d := old(passwordData);
        var out := PasswordReset(old(service.Profile(reachable)), d.currentPassword, d.newPassword, d.confirmPassword, hash);
        !loading &&
        (out.Ok? ==>
          service.store.users == ReplaceUser(old(service.store.users), out.value) &&
          !showResetPasswordModal && passwordData == BlankPasswordData && toast == Some(Success(PasswordResetText))) &&
        (out.Err? ==>
          service.store.users == old(service.store.users) && showResetPasswordModal == old(showResetPasswordModal) &&
          toast == Some(Failure(PasswordResetFailedText + out.message)))
    {
      if passwordData.newPassword != passwordData.confirmPassword {
        toast := Some(Failure(PasswordsDiffer));
        return;
      }
      loading := true;
      var r := service.ResetPassword(reachable, passwordData.currentPassword, passwordData.newPassword,
        passwordData.confirmPassword, hash);
      if r.Ok? {
        showResetPasswordModal := false;
        passwordData := BlankPasswordData;
        toast := Some(Success(PasswordResetText));
      } else {
        toast := Some(Failure(PasswordResetFailedText + r.message));
      }
      loading := false;
    }

    /** closeResetPasswordModal: the dialog closes and its fields are cleared. */
    method CloseResetPasswordModal()
      modifies this`showResetPasswordModal, this`passwordData
      ensures !showResetPasswordModal && passwordData == BlankPasswordData
    {
      showResetPasswordModal := false;
      passwordData := BlankPasswordData;
    }

    method OpenDeleteAccountModal()
      modifies this`showDeleteAccountModal
      ensures showDeleteAccountModal
    {
      showDeleteAccountModal := true;
    }

    /** deleteAccount: on success the shopper is sent home, logged out by the service. */
    method DeleteAccount(reachable: bool, deleted: bool)
      modifies this`toast, this`loading, this`navigatedTo, service.store, service.local
      ensures !loading
      ensures old(service.Profile(reachable)).Ok? && deleted ==>
        navigatedTo == Some("/home") && toast == Some(Success(AccountDeletedText)) &&
        service.local.items == old(service.local.items) - {IsLoggedInKey} - {UserIdKey}
      ensures !(old(service.Profile(reachable)).Ok? && deleted) ==>
        navigatedTo == old(navigatedTo) && service.local.items == old(service.local.items) &&
        service.store.users == old(service.store.users) && toast.Some? && toast.value.Failure?
    {
      loading := true;
      var r := service.DeleteAccount(reachable, deleted);
      if r.Ok? {
        toast := Some(Success(AccountDeletedText));
        navigatedTo := Some("/home");
      } else {
        toast := Some(Failure(AccountDeleteFailedText + r.message));
      }
      loading := false;
    }

    method CloseDeleteAccountModal()
      modifies this`showDeleteAccountModal
      ensures !showDeleteAccountModal
    {
      showDeleteAccountModal := false;
    }

    /**
     * setActiveSection: a known section is shown, anything else shows
     * 'account'; every edit is cancelled and both dialogs close.
     */
    method SetActiveSection(section: string)
      modifies this`activeSection, this`editingAccount, this`tempAccountData, this`editingAddress, this`tempAddressData,
        this`selectedAddress, this`editingPayment, this`tempPaymentData, this`selectedPayment, this`showResetPasswordModal,
        this`passwordData, this`showDeleteAccountModal
      ensures activeSection in Sections
      ensures activeSection == (if section in Sections then section else "account")
      ensures !editingAccount && !editingAddress && !editingPayment && tempAccountData == NoAccountData
      ensures tempAddressData == NoAddress && tempPaymentData == NoPayment && selectedAddress == None && selectedPayment == None
      ensures !showResetPasswordModal && !showDeleteAccountModal && passwordData == BlankPasswordData
    {
      if section in Sections {
        activeSection := section;
      } else {
        activeSection := "account";
      }
      CancelEditingAccount();
      CancelEditingAddress();
      CancelEditingPayment();
      CloseResetPasswordModal();
      CloseDeleteAccountModal();
    }
  }
}
