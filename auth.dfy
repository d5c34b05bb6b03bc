/** The role hierarchy of `validate_role` in app/auth_utils.py: staff < doctor < admin,
    any other role at level 0, both role names compared case-insensitively. */
module Auth {
  import opened Common

  /** `role_hierarchy.get(role.lower(), 0)` */
  function RoleLevel(role: string): (level: nat)
    ensures level <= 3
    ensures level == 0 <==> Lower(role) !in {"staff", "doctor", "admin"}
  {
    var r := Lower(role);
    if r == "staff" then 1
    else if r == "doctor" then 2
    else if r == "admin" then 3
    else 0
  }

  /** A role name the hierarchy knows, in any letter case. */
  predicate KnownRole(role: string) {
    RoleLevel(role) > 0
  }

  /** The user passes when their level is at least the required level. */
  function ValidateRole(requiredRole: string, userRole: string): (ok: bool)
    ensures ok <==> RoleLevel(userRole) >= RoleLevel(requiredRole)
    ensures requiredRole == userRole ==> ok
    ensures !KnownRole(requiredRole) ==> ok
    ensures KnownRole(requiredRole) && !KnownRole(userRole) ==> !ok
  {
    RoleLevel(userRole) >= RoleLevel(requiredRole)
  }

  /** Letter case of either argument does not matter. */
  lemma {:induction false} ValidateRoleIgnoresCase(requiredRole: string, userRole: string)
    ensures ValidateRole(requiredRole, userRole) == ValidateRole(Lower(requiredRole), Lower(userRole))
  {
    LowerIdempotent(requiredRole);
    LowerIdempotent(userRole);
  }

  /** A role that passes "doctor" passes "staff"; "admin" passes every role. */
  lemma {:induction false} HierarchyFacts(userRole: string, required: string)
    ensures ValidateRole("doctor", userRole) ==> ValidateRole("staff", userRole)
    ensures ValidateRole(required, "admin")
    ensures ValidateRole("admin", userRole) <==> Lower(userRole) == "admin"
  {
    assert Lower("doctor") == "doctor";
    assert Lower("staff") == "staff";
    assert Lower("admin") == "admin";
  }
}
