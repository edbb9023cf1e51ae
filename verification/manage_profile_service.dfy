/**
 * The profile service behind "Manage profile": every operation starts from
 * the user id kept in localStorage, reads the user's record from the store
 * (the first user with that user_id), and writes the whole record back with
 * one field changed: the account details, the address list, the payment
 * method list or the password hash. Deleting the account also ends the
 * session, but only once the store has deleted the record.
 */
module ManageProfileService {
  import opened Common
  import opened Model
  import opened DocumentStore

  const NotLoggedIn: string := "User not logged in"
  const UserNotFound: string := "User not found"
  const WrongCurrentPassword: string := "Current password is incorrect"
  const PasswordsDiffer: string := "New passwords do not match"
  const PasswordUpdated: string := "Password updated successfully"
  const AccountDeleted: string := "Account deleted successfully"
  /** The error an unreachable store gives. */
  const RequestFailed: string := "Http failure response"

  // ------------------------------------------------------ entry lists

  /** `findIndex(e => e.id === key)`, or -1. */
  function IndexOfEntry<T>(items: seq<Entry<T>>, key: string): (r: int)
    ensures -1 <= r < |items|
    ensures r >= 0 ==> items[r].id == key && forall k :: 0 <= k < r ==> items[k].id != key
    ensures r == -1 <==> forall k :: 0 <= k < |items| ==> items[k].id != key
  {
    if items == [] then -1
    else if items[0].id == key then 0
    else
      var k := IndexOfEntry(items[1..], key);
      if k == -1 then -1 else k + 1
  }

  /**
   * updateAddress / updatePaymentMethod on the list: an entry with an id
   * replaces the first entry with that id (and changes nothing when there is
   * none); an entry without one gets the fresh id and is appended.
   */
  function Upsert<T>(items: seq<Entry<T>>, e: Entry<T>, freshId: string): (r: seq<Entry<T>>)
    ensures e.id != "" && IndexOfEntry(items, e.id) == -1 ==> r == items
    ensures e.id != "" && IndexOfEntry(items, e.id) >= 0 ==> r == items[IndexOfEntry(items, e.id) := e]
    ensures e.id == "" ==> r == items + [e.(id := freshId)]
    ensures e.id != "" ==> |r| == |items|
  {
    if e.id != "" then
      var k := IndexOfEntry(items, e.id);
      if k == -1 then items else items[k := e]
    else items + [e.(id := freshId)]
  }

  /** removeAddress / removePaymentMethod on the list: every entry whose id differs, in order. */
  function WithoutId<T(!new)>(items: seq<Entry<T>>, key: string): (r: seq<Entry<T>>)
    ensures |r| <= |items|
    ensures forall x :: x in r <==> x in items && x.id != key
  {
    if items == [] then []
    else
      assert items == [items[0]] + items[1..];
      (if items[0].id != key then [items[0]] else []) + WithoutId(items[1..], key)
  }

  /** Removing splits over a concatenation, so the entries kept stay in their order. */
  lemma {:induction false} WithoutIdAppend<T(!new)>(a: seq<Entry<T>>, b: seq<Entry<T>>, key: string)
    ensures WithoutId(a + b, key) == WithoutId(a, key) + WithoutId(b, key)
  {
    if a == [] {
      assert a + b == b;
    } else {
      assert (a + b)[1..] == a[1..] + b;
      WithoutIdAppend(a[1..], b, key);
    }
  }

  /** Removing an id no entry has changes nothing. */
  lemma {:induction false} WithoutAbsentId<T(!new)>(items: seq<Entry<T>>, key: string)
    requires IndexOfEntry(items, key) == -1
    ensures WithoutId(items, key) == items
  {
    if items != [] {
      assert IndexOfEntry(items[1..], key) == -1;
      WithoutAbsentId(items[1..], key);
    }
  }

  /** Adding a new entry under a fresh id and then removing that id gives back the list. */
  lemma AddThenRemove<T(!new)>(items: seq<Entry<T>>, e: Entry<T>, freshId: string)
    requires e.id == "" && freshId != "" && IndexOfEntry(items, freshId) == -1
    ensures WithoutId(Upsert(items, e, freshId), freshId) == items
  {
    WithoutIdAppend(items, [e.(id := freshId)], freshId);
    WithoutAbsentId(items, freshId);
    assert WithoutId([e.(id := freshId)], freshId) == [];
  }

  /** After an update the entry is found under its id, at the place of the entry it replaced. */
  lemma UpsertFindsEntry<T>(items: seq<Entry<T>>, e: Entry<T>, freshId: string)
    requires e.id != "" && IndexOfEntry(items, e.id) >= 0
    ensures IndexOfEntry(Upsert(items, e, freshId), e.id) == IndexOfEntry(items, e.id)
    ensures Upsert(items, e, freshId)[IndexOfEntry(items, e.id)] == e
  {
  }

  // ----------------------------------------------------------- users

  /** The index of the first user with the user_id (what `?user_id=` gives first), or -1. */
  function IndexOfUserId(users: seq<User>, userId: string): (r: int)
    ensures -1 <= r < |users|
    ensures r >= 0 ==> users[r].userId == userId && forall k :: 0 <= k < r ==> users[k].userId != userId
    ensures r == -1 <==> forall k :: 0 <= k < |users| ==> users[k].userId != userId
  {
    if users == [] then -1
    else if users[0].userId == userId then 0
    else
      var k := IndexOfUserId(users[1..], userId);
      if k == -1 then -1 else k + 1
  }

  /** The index of the first user whose store id is `id`, or -1. */
  function IndexOfUser(users: seq<User>, id: string): (r: int)
    ensures -1 <= r < |users|
    ensures r >= 0 ==> users[r].id == id && forall k :: 0 <= k < r ==> users[k].id != id
    ensures r == -1 <==> forall k :: 0 <= k < |users| ==> users[k].id != id
  {
    if users == [] then -1
    else if users[0].id == id then 0
    else
      var k := IndexOfUser(users[1..], id);
      if k == -1 then -1 else k + 1
  }

  /**
   * Writing back a changed copy of the first user with a user_id, under that
   * user's store id, makes the changed copy what the lookup by user_id finds.
   */
  lemma ReloadFindsWritten(users: seq<User>, u: User)
    requires IndexOfUserId(users, u.userId) >= 0 && users[IndexOfUserId(users, u.userId)].id == u.id
    ensures var r := ReplaceUser(users, u);
      IndexOfUserId(r, u.userId) >= 0 && r[IndexOfUserId(r, u.userId)] == u
  {
    var k := IndexOfUserId(users, u.userId);
    var j := IndexOfUser(users, u.id);
    assert j <= k;
    var r := ReplaceUser(users, u);
    assert r == users[j := u];
    assert r[j].userId == u.userId;
    assert forall i :: 0 <= i < j ==> r[i] == users[i];
  }

  /** PUT /users/id: the first user with that store id is replaced; without one nothing changes. */
  function ReplaceUser(users: seq<User>, u: User): (r: seq<User>)
    ensures |r| == |users|
    ensures IndexOfUser(users, u.id) == -1 ==> r == users
    ensures IndexOfUser(users, u.id) >= 0 ==> r == users[IndexOfUser(users, u.id) := u]
  {
    var k := IndexOfUser(users, u.id);
    if k == -1 then users else users[k := u]
  }

  /** DELETE /users/id: the first user with that store id leaves the list. */
  function DeleteUser(users: seq<User>, id: string): (r: seq<User>)
    ensures IndexOfUser(users, id) == -1 ==> r == users
    ensures IndexOfUser(users, id) >= 0 ==>
      |r| == |users| - 1 && r == users[..IndexOfUser(users, id)] + users[IndexOfUser(users, id) + 1..]
  {
    var k := IndexOfUser(users, id);
    if k == -1 then users else users[..k] + users[k + 1..]
  }

  /** The account fields the profile form can change; an absent field is left as it is. */
  datatype AccountData = AccountData(
    name: Option<string>,
    email: Option<string>,
    phone: Option<string>,
    dateOfBirth: Option<string>,
    gender: Option<string>)

  const NoAccountData: AccountData := AccountData(None, None, None, None, None)

  function Pick(change: Option<string>, current: string): string
  {
    if change.Some? then change.value else current
  }

  /** `{ ...user, ...accountData }`: the given fields override, every other field stays. */
  function MergeAccount(u: User, d: AccountData): (r: User)
    ensures r.id == u.id && r.userId == u.userId && r.password == u.password
    ensures r.addresses == u.addresses && r.paymentMethods == u.paymentMethods
    ensures d.name.Some? ==> r.name == d.name.value
    ensures d.name.None? ==> r.name == u.name
    ensures d.email.Some? ==> r.email == d.email.value
    ensures d.email.None? ==> r.email == u.email
    ensures r.phone == Pick(d.phone, u.phone) && r.dateOfBirth == Pick(d.dateOfBirth, u.dateOfBirth)
    ensures r.gender == Pick(d.gender, u.gender)
  {
    u.(name := Pick(d.name, u.name), email := Pick(d.email, u.email), phone := Pick(d.phone, u.phone),
       dateOfBirth := Pick(d.dateOfBirth, u.dateOfBirth), gender := Pick(d.gender, u.gender))
  }

  /** Merging nothing leaves the user as it is; merging the same data twice is merging it once. */
  lemma MergeAccountLaws(u: User, d: AccountData)
    ensures MergeAccount(u, NoAccountData) == u
    ensures MergeAccount(MergeAccount(u, d), d) == MergeAccount(u, d)
  {
  }

  /**
   * The checks of resetPassword on the profile read: its error first, then
   * the current password's hash, then the new password against its
   * confirmation; what passes is the user with only the password hash changed.
   */
  function PasswordReset(profile: Result<User>, current: string, newPassword: string, confirm: string,
                         hash: string -> string): (r: Result<User>)
    ensures profile.Err? ==> r == Err(profile.message)
    ensures profile.Ok? && profile.value.password != hash(current) ==> r == Err(WrongCurrentPassword)
    ensures profile.Ok? && profile.value.password == hash(current) && newPassword != confirm ==> r == Err(PasswordsDiffer)
    ensures r.Ok? <==> profile.Ok? && profile.value.password == hash(current) && newPassword == confirm
    ensures r.Ok? ==> r.value == profile.value.(password := hash(newPassword))
  {
    if profile.Err? then Err(profile.message)
    else if profile.value.password != hash(current) then Err(WrongCurrentPassword)
    else if newPassword != confirm then Err(PasswordsDiffer)
    else Ok(profile.value.(password := hash(newPassword)))
  }

  /** After a reset the new password, and no longer the old one unless they hash alike, passes the current-password check. */
  lemma ResetThenReset(u: User, current: string, newPassword: string, next: string, hash: string -> string)
    requires PasswordReset(Ok(u), current, newPassword, newPassword, hash).Ok?
    ensures var v := PasswordReset(Ok(u), current, newPassword, newPassword, hash).value;
      PasswordReset(Ok(v), newPassword, next, next, hash).Ok? &&
      (hash(current) != hash(newPassword) ==> PasswordReset(Ok(v), current, next, next, hash) == Err(WrongCurrentPassword))
  {
  }

  // --------------------------------------------------------- service

  class ProfileService {
    const store: Store
    const local: BrowserStorage

    constructor (store: Store, local: BrowserStorage)
      ensures this.store == store && this.local == local
    {
      this.store := store;
      this.local := local;
    }

    /** getCurrentUserId: the stored user id, when there is a non-empty one. */
    function CurrentUserId(): (r: Option<string>)
      reads local
      ensures r.Some? <==> UserIdKey in local.items && local.items[UserIdKey].Text? && local.items[UserIdKey].text != ""
      ensures r.Some? ==> r.value != "" && local.items[UserIdKey] == Text(r.value)
    {
      if UserIdKey in local.items && local.items[UserIdKey].Text? && local.items[UserIdKey].text != ""
      then Some(local.items[UserIdKey].text) else None
    }

    /**
     * getUserProfile: 'User not logged in' without a stored id, the request's
     * error when the store cannot be reached, 'User not found' when no user
     * has that user_id, and otherwise the first user that has it.
     */
    function Profile(reachable: bool): (r: Result<User>)
      reads this, local, store
      ensures CurrentUserId().None? ==> r == Err(NotLoggedIn)
      ensures CurrentUserId().Some? && !reachable ==> r == Err(RequestFailed)
      ensures CurrentUserId().Some? && reachable && IndexOfUserId(store.users, CurrentUserId().value) == -1 ==>
        r == Err(UserNotFound)
      ensures r.Ok? ==>
        CurrentUserId().Some? && reachable && r.value.userId == CurrentUserId().value &&
        r.value == store.users[IndexOfUserId(store.users, CurrentUserId().value)]
    {
      var id := CurrentUserId();
      if id.None? then Err(NotLoggedIn)
      else if !reachable then Err(RequestFailed)
      else
        var k := IndexOfUserId(store.users, id.value);
        if k == -1 then Err(UserNotFound) else Ok(store.users[k])
    }

    /**
     * The shared tail of every update: the changed record is PUT back under
     * the store id of the profile just read, replacing that user.
     */
    method PutChanged(reachable: bool, updated: User) returns (r: Result<User>)
      requires Profile(reachable).Ok? && updated.id == Profile(reachable).value.id
      modifies store
      ensures r == Ok(updated) && store.users == ReplaceUser(old(store.users), updated)
      ensures updated.userId == old(Profile(reachable)).value.userId ==> Profile(reachable) == r
      ensures store.products == old(store.products) && store.orders == old(store.orders) && store.admins == old(store.admins)
    {
      assert IndexOfUser(store.users, updated.id) >= 0;
      if updated.userId == Profile(reachable).value.userId {
        ReloadFindsWritten(store.users, updated);
      }
      store.users := ReplaceUser(store.users, updated);
      r := Ok(updated);
    }

    /** updateAccountInfo: the stored user with the given fields overriding. */
    method UpdateAccountInfo(reachable: bool, data: AccountData) returns (r: Result<User>)
      modifies store
      ensures old(Profile(reachable)).Err? ==> r == old(Profile(reachable)) && store.users == old(store.users)
      ensures old(Profile(reachable)).Ok? ==>
        r == Ok(MergeAccount(old(Profile(reachable)).value, data)) &&
        store.users == ReplaceUser(old(store.users), r.value)
      ensures r.Ok? ==> Profile(reachable) == r
      ensures store.products == old(store.products) && store.orders == old(store.orders) && store.admins == old(store.admins)
    {
      var p := Profile(reachable);
      if p.Err? {
        return p;
      }
      r := PutChanged(reachable, MergeAccount(p.value, data));
    }

    /**
     * updateAddress: an address with an id replaces the stored one with that
     * id; one without an id gets the current time as its id and is appended.
     */
    method UpdateAddress(reachable: bool, a: UserAddress, now: nat) returns (r: Result<User>)
      modifies store
      ensures old(Profile(reachable)).Err? ==> r == old(Profile(reachable)) && store.users == old(store.users)
      ensures old(Profile(reachable)).Ok? ==>
        var u := old(Profile(reachable)).value;
        r == Ok(u.(addresses := Upsert(u.addresses, a, NatToString(now)))) &&
        store.users == ReplaceUser(old(store.users), r.value)
      ensures r.Ok? ==> Profile(reachable) == r
      ensures store.products == old(store.products) && store.orders == old(store.orders) && store.admins == old(store.admins)
    {
      var p := Profile(reachable);
      if p.Err? {
        return p;
      }
      r := PutChanged(reachable, p.value.(addresses := Upsert(p.value.addresses, a, NatToString(now))));
    }

    /** removeAddress: the stored user keeps, in order, every address with another id. */
    method RemoveAddress(reachable: bool, addressId: string) returns (r: Result<User>)
      modifies store
      ensures old(Profile(reachable)).Err? ==> r == old(Profile(reachable)) && store.users == old(store.users)
      ensures old(Profile(reachable)).Ok? ==>
        var u := old(Profile(reachable)).value;
        r == Ok(u.(addresses := WithoutId(u.addresses, addressId))) &&
        store.users == ReplaceUser(old(store.users), r.value)
      ensures r.Ok? ==> Profile(reachable) == r
      ensures store.products == old(store.products) && store.orders == old(store.orders) && store.admins == old(store.admins)
    {
      var p := Profile(reachable);
      if p.Err? {
        return p;
      }
      r := PutChanged(reachable, p.value.(addresses := WithoutId(p.value.addresses, addressId)));
    }

    /** updatePaymentMethod: the same rule as updateAddress, on the payment methods. */
    method UpdatePaymentMethod(reachable: bool, m: UserPaymentMethod, now: nat) returns (r: Result<User>)
      modifies store
      ensures old(Profile(reachable)).Err? ==> r == old(Profile(reachable)) && store.users == old(store.users)
      ensures old(Profile(reachable)).Ok? ==>
        var u := old(Profile(reachable)).value;
        r == Ok(u.(paymentMethods := Upsert(u.paymentMethods, m, NatToString(now)))) &&
        store.users == ReplaceUser(old(store.users), r.value)
      ensures r.Ok? ==> Profile(reachable) == r
      ensures store.products == old(store.products) && store.orders == old(store.orders) && store.admins == old(store.admins)
    {
      var p := Profile(reachable);
      if p.Err? {
        return p;
      }
      r := PutChanged(reachable, p.value.(paymentMethods := Upsert(p.value.paymentMethods, m, NatToString(now))));
    }

    /** removePaymentMethod: the stored user keeps, in order, every payment method with another id. */
    method RemovePaymentMethod(reachable: bool, paymentMethodId: string) returns (r: Result<User>)
      modifies store
      ensures old(Profile(reachable)).Err? ==> r == old(Profile(reachable)) && store.users == old(store.users)
      ensures old(Profile(reachable)).Ok? ==>
        var u := old(Profile(reachable)).value;
        r == Ok(u.(paymentMethods := WithoutId(u.paymentMethods, paymentMethodId))) &&
        store.users == ReplaceUser(old(store.users), r.value)
      ensures r.Ok? ==> Profile(reachable) == r
      ensures store.products == old(store.products) && store.orders == old(store.orders) && store.admins == old(store.admins)
    {
      var p := Profile(reachable);
      if p.Err? {
        return p;
      }
      r := PutChanged(reachable, p.value.(paymentMethods := WithoutId(p.value.paymentMethods, paymentMethodId)));
    }

    /**
     * resetPassword: the current password's hash must be the stored one
     * (checked first), then the new password must equal its confirmation;
     * only then is the user written back, with the new password's hash and
     * nothing else changed.
     */
    method ResetPassword(reachable: bool, current: string, newPassword: string, confirm: string, hash: string -> string)
      returns (r: Result<string>)
      modifies store
      ensures var out := PasswordReset(old(Profile(reachable)), current, newPassword, confirm, hash);
        (out.Err? ==> r == Err(out.message) && store.users == old(store.users)) &&
        (out.Ok? ==> r == Ok(PasswordUpdated) && store.users == ReplaceUser(old(store.users), out.value))
      ensures store.products == old(store.products) && store.orders == old(store.orders) && store.admins == old(store.admins)
    {
      var p := Profile(reachable);
      var out := PasswordReset(p, current, newPassword, confirm, hash);
      if out.Err? {
        return Err(out.message);
      }
      var _ := PutChanged(reachable, out.value);
      r := Ok(PasswordUpdated);
    }

    /**
     * deleteAccount: the user's record is deleted, and only once the delete
     * has succeeded do isLoggedIn and userId leave localStorage; a failure
     * at any step leaves the session as it was. `deleted` is whether the
     * DELETE request succeeds.
     */
    method DeleteAccount(reachable: bool, deleted: bool) returns (r: Result<string>)
      modifies store, local
      ensures old(Profile(reachable)).Err? ==> r == Err(old(Profile(reachable)).message)
      ensures old(Profile(reachable)).Ok? && !deleted ==> r == Err(RequestFailed)
      ensures r.Err? ==> store.users == old(store.users) && local.items == old(local.items)
      ensures old(Profile(reachable)).Ok? && deleted ==>
        r == Ok(AccountDeleted) &&
        store.users == DeleteUser(old(store.users), old(Profile(reachable)).value.id) &&
        local.items == old(local.items) - {IsLoggedInKey} - {UserIdKey}
      ensures store.products == old(store.products) && store.orders == old(store.orders) && store.admins == old(store.admins)
    {
      var p := Profile(reachable);
      if p.Err? {
        return Err(p.message);
      }
      if !deleted {
        return Err(RequestFailed);
      }
      store.users := DeleteUser(store.users, p.value.id);
      local.RemoveItem(IsLoggedInKey);
      local.RemoveItem(UserIdKey);
      r := Ok(AccountDeleted);
    }
  }
}
