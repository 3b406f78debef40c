/** The authentication context of lib/auth-context.tsx: the signed-in user, a
    loading flag, and the two access predicates every page asks. The sign-in
    itself is simulated: `login` waits and then installs the fixed mock user,
    which the provider is given once, when it is created (the mock data module
    is not part of this model). */
module Auth {
  import opened Seqs
  import opened Types

  /** `hasRole(roles)`: false with no user, else whether the user's role is listed. */
  predicate HasRole(user: Option<User>, roles: seq<Role>)
  {
    user.Some? && user.value.role in roles
  }

  /** `hasDepartment(departments)`: false with no user; listing `"all"` admits
      every user; otherwise the user's own department must be listed. */
  predicate HasDepartment(user: Option<User>, departments: seq<Department>)
  {
    user.Some? && (Department.All in departments || user.value.department in departments)
  }

  class AuthProvider {
    /** The one user every sign-in restores. */
    const mockUser: User
    var user: Option<User>
    var isLoading: bool

    /** The provider starts signed in as the mock user. */
    constructor (mock: User)
      ensures mockUser == mock
      ensures user == Some(mockUser) && !isLoading
    {
      mockUser := mock;
      user := Some(mock);
      isLoading := false;
    }

    /** The simulated sign-in: loading while it waits, then the mock user, so
        signing out and in again returns to the user the provider started with. */
    method Login()
      modifies this
      ensures user == Some(mockUser) && !isLoading
    {
      isLoading := true;
      user := Some(mockUser);
      isLoading := false;
    }

    method Logout()
      modifies this`user
      ensures user.None?
      ensures forall roles :: !HasRole(user, roles)
      ensures forall departments :: !HasDepartment(user, departments)
    {
      user := None;
    }
  }

  /** Without a user both predicates deny, whatever they are asked. */
  lemma SignedOutDenied(roles: seq<Role>, departments: seq<Department>)
    ensures !HasRole(None, roles) && !HasDepartment(None, departments)
  {
  }

  /** With a user, the role check is membership of the role; the department
      check is membership of the department unless `"all"` is listed. */
  lemma SignedInChecks(u: User, roles: seq<Role>, departments: seq<Department>)
    ensures HasRole(Some(u), roles) <==> exists i :: 0 <= i < |roles| && roles[i] == u.role
    ensures Department.All in departments ==> HasDepartment(Some(u), departments)
    ensures Department.All !in departments ==>
      (HasDepartment(Some(u), departments) <==> exists i :: 0 <= i < |departments| && departments[i] == u.department)
  {
  }

  /** Listing more roles or departments never withdraws access. */
  lemma AccessMonotone(user: Option<User>, roles: seq<Role>, more: seq<Role>, departments: seq<Department>, moreDepartments: seq<Department>)
    ensures HasRole(user, roles) ==> HasRole(user, roles + more)
    ensures HasDepartment(user, departments) ==> HasDepartment(user, departments + moreDepartments)
  {
    if HasRole(user, roles) {
      var i :| 0 <= i < |roles| && roles[i] == user.value.role;
      assert (roles + more)[i] == user.value.role;
    }
    if HasDepartment(user, departments) {
      if Department.All in departments {
        var i :| 0 <= i < |departments| && departments[i] == Department.All;
        assert (departments + moreDepartments)[i] == Department.All;
      } else {
        var i :| 0 <= i < |departments| && departments[i] == user.value.department;
        assert (departments + moreDepartments)[i] == user.value.department;
      }
    }
  }
}
