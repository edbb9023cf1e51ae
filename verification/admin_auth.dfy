/**
 * The admin session: an admin logs in with an email and a password whose MD5
 * hash must match the stored one; the session lives in localStorage under
 * 'isAdminLoggedIn' and 'currentAdmin', and the permissions of the current
 * admin decide what the admin pages and the role guard let through.
 */
module AdminAuth {
  import opened Common
  import opened Model
  import opened DocumentStore

  const IsAdminLoggedInKey: string := "isAdminLoggedIn"
  const CurrentAdminKey: string := "currentAdmin"
  const InvalidCredentials: string := "Invalid email or password"
  const InsufficientPermissions: string := "Insufficient permissions"
  /** The error an unreachable admin collection gives. */
  const RequestFailed: string := "Http failure response"

  /** The display names of the known roles (getRoleDisplayName's table). */
  const RoleNames: map<string, string> := map[
    "super_admin" := "Super Administrator",
    "admin" := "Administrator",
    "product_manager" := "Product Manager",
    "customer_manager" := "Customer Manager",
    "order_manager" := "Order Manager"]

  /** `admins.find(a => a.email === email && a.password === hashed)`, as an index. */
  function FindAdmin(admins: seq<Admin>, email: string, hashed: string): (r: Option<nat>)
    ensures r.Some? ==> r.value < |admins| && admins[r.value].email == email && admins[r.value].password == hashed
    ensures r.Some? ==> forall k :: 0 <= k < r.value ==> !(admins[k].email == email && admins[k].password == hashed)
    ensures r.None? <==> forall k :: 0 <= k < |admins| ==> !(admins[k].email == email && admins[k].password == hashed)
  {
    if admins == [] then None
    else if admins[0].email == email && admins[0].password == hashed then Some(0)
    else
      var k := FindAdmin(admins[1..], email, hashed);
      if k.None? then None else Some(k.value + 1)
  }

  /** PATCH /admins/id with a new lastLogin: the first admin with that id gets it, the rest stay. */
  function PatchLastLogin(admins: seq<Admin>, id: string, time: int): (r: seq<Admin>)
    ensures |r| == |admins|
    ensures forall k :: 0 <= k < |admins| && admins[k].id != id ==> r[k] == admins[k]
    ensures forall k :: 0 <= k < |admins| && admins[k].id == id && (forall j :: 0 <= j < k ==> admins[j].id != id) ==>
      r[k] == admins[k].(lastLogin := Some(time))
  {
    if admins == [] then []
    else if admins[0].id == id then [admins[0].(lastLogin := Some(time))] + admins[1..]
    else [admins[0]] + PatchLastLogin(admins[1..], id, time)
  }

  /** Whether any of the wanted permissions is among the granted ones (`permissions.some(...)`). */
  function AnyGranted(wanted: seq<string>, granted: seq<string>): (r: bool)
    ensures r <==> exists i :: 0 <= i < |wanted| && wanted[i] in granted
  {
    if wanted == [] then false
    else wanted[0] in granted || AnyGranted(wanted[1..], granted)
  }

  /** The name shown for a role: its display name when it is a known role, the raw role otherwise. */
  function RoleName(role: string): (r: string)
    ensures role in RoleNames ==> r == RoleNames[role]
    ensures role !in RoleNames ==> r == role
  {
    if role in RoleNames then RoleNames[role] else role
  }

  class AdminAuthService {
    const store: Store
    const local: BrowserStorage
    var currentAdmin: Option<Admin>

    /**
     * The service starts from what localStorage holds (checkExistingLogin):
     * a stored admin becomes the current one; a value that does not parse as
     * an admin clears both session keys; an absent or empty value changes nothing.
     */
    constructor (store: Store, local: BrowserStorage)
      modifies local
      ensures this.store == store && this.local == local
      ensures CurrentAdminKey in old(local.items) && old(local.items)[CurrentAdminKey].AdminJson? ==>
        currentAdmin == Some(old(local.items)[CurrentAdminKey].admin) && local.items == old(local.items)
      ensures CurrentAdminKey !in old(local.items) || old(local.items)[CurrentAdminKey] == Text("") ==>
        currentAdmin == None && local.items == old(local.items)
      ensures CurrentAdminKey in old(local.items) && !old(local.items)[CurrentAdminKey].AdminJson? &&
              old(local.items)[CurrentAdminKey] != Text("") ==>
        currentAdmin == None && local.items == old(local.items) - {CurrentAdminKey} - {IsAdminLoggedInKey}
    {
      this.store := store;
      this.local := local;
      currentAdmin := None;
      new;
      if CurrentAdminKey in local.items && local.items[CurrentAdminKey] != Text("") {
        var stored := local.items[CurrentAdminKey];
        if stored.AdminJson? {
          currentAdmin := Some(stored.admin);
        } else {
          local.RemoveItem(CurrentAdminKey);
          local.RemoveItem(IsAdminLoggedInKey);
        }
      }
    }

    /** isLoggedIn: the stored flag is exactly 'true' and there is a current admin. */
    predicate IsLoggedIn()
      reads this, local
    {
      local.Holds(IsAdminLoggedInKey, "true") && currentAdmin.Some?
    }

    /** hasPermission: false without an admin, otherwise membership in the admin's permissions. */
    predicate HasPermission(permission: string)
      reads this
    {
      currentAdmin.Some? && permission in currentAdmin.value.permissions
    }

    /** hasAnyPermission: false without an admin, otherwise whether one of them is granted. */
    function HasAnyPermission(permissions: seq<string>): (r: bool)
      reads this
      ensures r <==> exists i :: 0 <= i < |permissions| && HasPermission(permissions[i])
    {
      currentAdmin.Some? && AnyGranted(permissions, currentAdmin.value.permissions)
    }

    /** isSuperAdmin: the current admin's role is 'super_admin'. */
    predicate IsSuperAdmin()
      reads this
    {
      currentAdmin.Some? && currentAdmin.value.role == "super_admin"
    }

    predicate CanManageProducts() reads this { HasPermission("manage_products") }
    predicate CanManageOrders() reads this { HasPermission("manage_orders") }
    predicate CanManageCustomers() reads this { HasPermission("manage_customers") }
    predicate CanViewAnalytics() reads this { HasPermission("view_analytics") }

    /** getRoleDisplayName: 'Unknown' without an admin, else the name of the admin's role. */
    function RoleDisplayName(): (r: string)
      reads this
      ensures currentAdmin.None? ==> r == "Unknown"
      ensures currentAdmin.Some? && currentAdmin.value.role in RoleNames ==> r == RoleNames[currentAdmin.value.role]
      ensures currentAdmin.Some? && currentAdmin.value.role !in RoleNames ==> r == currentAdmin.value.role
    {
      if currentAdmin.None? then "Unknown" else RoleName(currentAdmin.value.role)
    }

    /**
     * login: the first admin with the email and the hash of the password
     * logs in, with lastLogin set to now, which is also sent to the store;
     * the admin and the flag go into localStorage. Without a match nothing
     * changes and the error is 'Invalid email or password'.
     */
    method Login(email: string, password: string, reachable: bool, hash: string -> string, now: int)
      returns (r: Result<Admin>)
      modifies this, local, store
      ensures !reachable ==> r == Err(RequestFailed)
      ensures reachable && FindAdmin(old(store.admins), email, hash(password)).None? ==> r == Err(InvalidCredentials)
      ensures r.Err? ==>
        currentAdmin == old(currentAdmin) && local.items == old(local.items) && store.admins == old(store.admins)
      ensures reachable && FindAdmin(old(store.admins), email, hash(password)).Some? ==>
        var a := old(store.admins)[FindAdmin(old(store.admins), email, hash(password)).value];
        r == Ok(a.(lastLogin := Some(now))) &&
        currentAdmin == Some(r.value) &&
        local.items == old(local.items)[IsAdminLoggedInKey := Text("true")][CurrentAdminKey := AdminJson(r.value)] &&
        store.admins == PatchLastLogin(old(store.admins), a.id, now)
      ensures r.Ok? ==> r.value.email == email && r.value.password == hash(password) && IsLoggedIn()
      ensures r.Ok? ==> forall p :: HasPermission(p) <==> p in r.value.permissions
      ensures store.products == old(store.products) && store.orders == old(store.orders) && store.users == old(store.users)
    {
      if !reachable {
        return Err(RequestFailed);
      }
      var found := FindAdmin(store.admins, email, hash(password));
      if found.None? {
        return Err(InvalidCredentials);
      }
      var updated := store.admins[found.value].(lastLogin := Some(now));
      store.admins := PatchLastLogin(store.admins, updated.id, now);
      local.SetItem(IsAdminLoggedInKey, Text("true"));
      local.SetItem(CurrentAdminKey, AdminJson(updated));
      currentAdmin := Some(updated);
      r := Ok(updated);
    }

    /** logout: both keys leave localStorage and there is no current admin, so nothing is permitted. */
    method Logout()
      modifies this, local
      ensures local.items == old(local.items) - {IsAdminLoggedInKey} - {CurrentAdminKey}
      ensures currentAdmin == None
      ensures !IsLoggedIn() && !IsSuperAdmin() && RoleDisplayName() == "Unknown"
      ensures forall p :: !HasPermission(p)
    {
      local.RemoveItem(IsAdminLoggedInKey);
      local.RemoveItem(CurrentAdminKey);
      currentAdmin := None;
    }

    /** getAllAdmins: only a super admin gets the list; anyone else gets 'Insufficient permissions'. */
    method GetAllAdmins(reachable: bool) returns (r: Result<seq<Admin>>)
      ensures !IsSuperAdmin() ==> r == Err(InsufficientPermissions)
      ensures IsSuperAdmin() && reachable ==> r == Ok(store.admins)
      ensures IsSuperAdmin() && !reachable ==> r == Err(RequestFailed)
    {
      if !IsSuperAdmin() {
        return Err(InsufficientPermissions);
      }
      r := if reachable then Ok(store.admins) else Err(RequestFailed);
    }
  }

  /** Asking for one permission is asking for any of a one-element list. */
  lemma AnyOfOne(auth: AdminAuthService, p: string)
    ensures auth.HasAnyPermission([p]) == auth.HasPermission(p)
  {
    assert [p][0] == p;
  }

  /** Asking for more permissions can only grant more. */
  lemma {:induction false} AnyOfMore(auth: AdminAuthService, ps: seq<string>, qs: seq<string>)
    ensures auth.HasAnyPermission(ps) ==> auth.HasAnyPermission(ps + qs)
    ensures auth.HasAnyPermission(qs) ==> auth.HasAnyPermission(ps + qs)
  {
    if auth.HasAnyPermission(ps) {
      var i :| 0 <= i < |ps| && auth.HasPermission(ps[i]);
      assert (ps + qs)[i] == ps[i];
    }
    if auth.HasAnyPermission(qs) {
      var i :| 0 <= i < |qs| && auth.HasPermission(qs[i]);
      assert (ps + qs)[|ps| + i] == qs[i];
    }
  }

  /** onAdminLogout of the admin pages: the session ends and the storefront's home page opens. */
  method AdminLogout(auth: AdminAuthService) returns (navigatedTo: string)
    modifies auth, auth.local
    ensures !auth.IsLoggedIn() && forall p :: !auth.HasPermission(p)
    ensures auth.local.items == old(auth.local.items) - {IsAdminLoggedInKey} - {CurrentAdminKey}
    ensures navigatedTo == "/"
  {
    auth.Logout();
    navigatedTo := "/";
  }
}
