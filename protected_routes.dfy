/**
 * The `ProtectedRoutes` wrapper: admits a visitor to a panel only when the
 * slot of the panel's required role is present, and otherwise redirects to "/".
 */
module ProtectedRoutes {
  import opened Wrappers
  import opened Storage
  import opened Router

  /** Where a denied visitor is sent. */
  const DeniedTarget: Path := "/"

  /**
   * `isAuthenticated()`: with a required role, admitted iff that role's own
   * slot is present; without one, admitted iff any slot is present.
   */
  function IsAuthenticated(m: Slots, requiredRole: Option<Role>): (ok: bool)
    ensures requiredRole.Some? ==> (ok <==> Present(m, requiredRole.value))
    ensures requiredRole.None? ==> (ok <==> AnyPresent(m))
    ensures !AnyPresent(m) ==> !ok
  {
    var user := GetItem(m, "user");
    var partner := GetItem(m, "partner");
    var manager := GetItem(m, "manager");
    var hr := GetItem(m, "hr");
    var hrManager := GetItem(m, "hr-manager");
    if !Truthy(user) && !Truthy(partner) && !Truthy(manager) && !Truthy(hr) && !Truthy(hrManager) then
      false
    else
      match requiredRole
      case Some(role) =>
        (match role
         case User => Truthy(user)
         case Partner => Truthy(partner)
         case Manager => Truthy(manager)
         case Hr => Truthy(hr)
         case HrManager => Truthy(hrManager))
      case None => true
  }

  /** The wrapper's output: the children when admitted, a redirect to "/" otherwise. */
  function Guard(m: Slots, requiredRole: Option<Role>): (e: Element)
    ensures e == Children <==> IsAuthenticated(m, requiredRole)
    ensures e != Children ==> e == Navigate(DeniedTarget)
  {
    if IsAuthenticated(m, requiredRole) then Children else Navigate(DeniedTarget)
  }

  /** Slots of other roles do not matter once a role is required. */
  lemma OnlyRequiredSlotMatters(m: Slots, m': Slots, role: Role)
    requires Present(m, role) == Present(m', role)
    ensures Guard(m, Some(role)) == Guard(m', Some(role))
  {
  }

  /** A slot holding the empty string admits nobody. */
  lemma EmptySlotIsAbsent(m: Slots, role: Role)
    requires role.Key() in m && m[role.Key()] == ""
    ensures Guard(m, Some(role)) == Navigate(DeniedTarget)
  {
  }
}
