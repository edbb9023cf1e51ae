/**
 * The guard in front of the admin routes: a logged-out visitor goes to the
 * admin login page, and a route that names a permission is open only to an
 * admin holding it; anyone else is sent to the dashboard with an error.
 */
module RoleGuard {
  import opened Common
  import opened AdminAuth

  const LoginPage: string := "/admin/login"
  const DeniedPage: string := "/admin/dashboard?error=insufficient_permissions"

  /** Whether the route's permission entry asks for something (a missing or empty entry does not). */
  predicate Requires(required: Option<string>) { required.Some? && required.value != "" }

  class Guard {
    const auth: AdminAuthService
    var navigatedTo: Option<string>

    constructor (auth: AdminAuthService)
      ensures this.auth == auth && navigatedTo == None
    {
      this.auth := auth;
      navigatedTo := None;
    }

    /**
     * canActivate: the login check comes first, then the route's permission;
     * the route opens exactly when the admin is logged in and holds the
     * permission the route asks for, if any.
     */
    method CanActivate(required: Option<string>) returns (ok: bool)
      modifies this`navigatedTo
      ensures ok <==> auth.IsLoggedIn() && (Requires(required) ==> auth.HasPermission(required.value))
      ensures !auth.IsLoggedIn() ==> navigatedTo == Some(LoginPage)
      ensures auth.IsLoggedIn() && !ok ==> navigatedTo == Some(DeniedPage)
      ensures ok ==> navigatedTo == old(navigatedTo)
    {
      if !auth.IsLoggedIn() {
        navigatedTo := Some(LoginPage);
        return false;
      }
      if !Requires(required) {
        return true;
      }
      if auth.HasPermission(required.value) {
        ok := true;
      } else {
        navigatedTo := Some(DeniedPage);
        ok := false;
      }
    }
  }
}
