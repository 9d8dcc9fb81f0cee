/**
 * The admin session: a login with one fixed pair of credentials and a
 * logout, over the two pieces of state the provider exposes.
 */
module AdminAuth {
  import opened Wrappers

  const AdminUsername := "admin"
  const AdminPassword := "admin123"

  class AdminSession {
    var isLoggedIn: bool
    var adminName: Option<string>

    /** Signed in exactly when a name is held, and then the name is the admin's. */
    predicate Valid()
      reads this
    {
      isLoggedIn <==> adminName == Some(AdminUsername)
    }

    constructor ()
      ensures !isLoggedIn && adminName.None? && Valid()
    {
      isLoggedIn := false;
      adminName := None;
    }

    /** `login(username, password)`: on a match, sign in under that name; otherwise change nothing. */
    method Login(username: string, password: string) returns (ok: bool)
      requires Valid()
      modifies this
      ensures ok <==> username == "admin" && password == "admin123"
      ensures ok ==> isLoggedIn && adminName == Some(username)
      ensures !ok ==> isLoggedIn == old(isLoggedIn) && adminName == old(adminName)
      ensures Valid()
    {
      if username == AdminUsername && password == AdminPassword {
        adminName := Some(username);
        isLoggedIn := true;
        ok := true;
      } else {
        ok := false;
      }
    }

    /** `logout()`: signed out, no name. */
    method Logout()
      modifies this
      ensures !isLoggedIn && adminName.None? && Valid()
    {
      adminName := None;
      isLoggedIn := false;
    }
  }
}
