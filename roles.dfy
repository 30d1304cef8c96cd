/** Role membership: the user's effective roles within one client, and matching by role id. */
module Roles {
  import opened Authorization

  /** Some role in `roles` has exactly the id `id`. */
  ghost predicate HasRoleId(roles: set<Role>, id: string) {
    exists r :: r in roles && r.id == id
  }

  /** The client roles for which the user's `hasRole` (composite expansion included) answers true. */
  function HeldRoles(clientRoles: set<Role>, hasRole: Role -> bool): set<Role> {
    set r | r in clientRoles && hasRole(r)
  }

  /**
   * `containRole`: scan the role set and stop at the first role whose id equals
   * `roleId`. True exactly when such a role exists; never true for no roles.
   */
  method ContainRole(roleModels: set<Role>, roleId: string) returns (found: bool)
    ensures found <==> HasRoleId(roleModels, roleId)
    ensures roleModels == {} ==> !found
  {
    found := false;
    var rest := roleModels;
    while rest != {}
      invariant rest <= roleModels
      invariant !HasRoleId(roleModels - rest, roleId)
      decreases rest
    {
      var r :| r in rest;
      if r.id == roleId {
        found := true;
        break;
      }
      rest := rest - {r};
    }
  }

  /**
   * The loop building `userRoles`: every role of the client that the user
   * holds, and no other.
   */
  method EffectiveRoles(clientRoles: set<Role>, hasRole: Role -> bool) returns (userRoles: set<Role>)
    ensures userRoles <= clientRoles
    ensures forall r :: r in clientRoles ==> (r in userRoles <==> hasRole(r))
    ensures userRoles == HeldRoles(clientRoles, hasRole)
  {
    userRoles := {};
    var rest := clientRoles;
    while rest != {}
      invariant rest <= clientRoles
      invariant userRoles == HeldRoles(clientRoles - rest, hasRole)
      decreases rest
    {
      var r :| r in rest;
      if hasRole(r) {
        userRoles := userRoles + {r};
      }
      rest := rest - {r};
    }
  }
}
