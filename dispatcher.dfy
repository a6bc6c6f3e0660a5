/** The landing dispatcher of the Blazor SSR client (`GET /dispatcher`):
    sends a user to the area of their role. */
module Dispatcher {
  import OidcController

  const LoginRedirect := "/identity/login?returnUrl=%2Fdispatcher"
  const OwnerPath := "/owner"
  const EmployeePath := "/employee"
  const NoAccessPath := "/no-access"

  /** `Dispatch`: `roles` are the roles `User.IsInRole` recognises. */
  function Dispatch(authenticated: bool, roles: set<string>): (r: string)
    ensures r == LoginRedirect <==> !authenticated
    // Owner is checked first, so a user with both roles goes to /owner
    ensures r == OwnerPath <==> authenticated && "Owner" in roles
    ensures r == EmployeePath <==> authenticated && "Owner" !in roles && "Employee" in roles
    ensures r == NoAccessPath <==> authenticated && "Owner" !in roles && "Employee" !in roles
  {
    if !authenticated then LoginRedirect
    else if "Owner" in roles then OwnerPath
    else if "Employee" in roles then EmployeePath
    else NoAccessPath
  }

  /** A user whose only role is the one the authorization server issued
      never lands on /no-access: employees (admin rights above zero) go to
      /employee, everybody else to /owner. */
  lemma IssuedRoleDispatch(adminRights: int)
    ensures Dispatch(true, {OidcController.RoleFor(adminRights)}) ==
            if adminRights > 0 then EmployeePath else OwnerPath
  {
  }
}
