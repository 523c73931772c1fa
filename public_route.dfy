/**
 * The `PublicRoute` wrapper around the landing and login pages: a visitor who
 * already holds a session slot is sent to that role's panel, checked in the
 * order user, manager, hr, hr-manager, partner.
 */
module PublicRoute {
  import opened Storage
  import opened Router

  /** The order in which the wrapper tests the slots; it differs from the header's. */
  const RedirectOrder: seq<Role> := [User, Manager, Hr, HrManager, Partner]

  /** The panel each role is sent to. */
  function Target(r: Role): (p: Path)
    ensures p != "/"
  {
    match r
    case User => "/employee-leave"
    case Manager => "/manager-panel"
    case Hr => "/hr-panel"
    case HrManager => "/hr-manager-leave"
    case Partner => "/partner-panel"
  }

  /** Distinct roles are sent to distinct panels. */
  lemma TargetInjective(a: Role, b: Role)
    ensures Target(a) == Target(b) <==> a == b
  {
    if a != b {
      match a
      case User => assert Target(a)[1] == 'e';
      case Manager => assert Target(a)[1] == 'm';
      case Partner => assert Target(a)[1] == 'p';
      case Hr => assert |Target(a)| == 9;
      case HrManager => assert |Target(a)| == 17;
    }
  }

  /** The wrapper as written: a chain of `if`s over the five slots. */
  function Guard(m: Slots): (e: Element)
    ensures e == Children <==> !AnyPresent(m)
    ensures var i := FirstPresent(m, RedirectOrder);
      e == if i < |RedirectOrder| then Navigate(Target(RedirectOrder[i])) else Children
  {
    RedirectFollowsOrder(m);
    if Truthy(GetItem(m, "user")) then Navigate("/employee-leave")
    else if Truthy(GetItem(m, "manager")) then Navigate("/manager-panel")
    else if Truthy(GetItem(m, "hr")) then Navigate("/hr-panel")
    else if Truthy(GetItem(m, "hr-manager")) then Navigate("/hr-manager-leave")
    else if Truthy(GetItem(m, "partner")) then Navigate("/partner-panel")
    else Children
  }

  /** The first present role of RedirectOrder, unrolled to the five tests of the chain. */
  lemma RedirectFollowsOrder(m: Slots)
    ensures CoversAllRoles(RedirectOrder)
    ensures FirstPresent(m, RedirectOrder) == |RedirectOrder| <==> !AnyPresent(m)
    ensures var i := FirstPresent(m, RedirectOrder);
      && (i == 0 <==> Present(m, User))
      && (i == 1 <==> !Present(m, User) && Present(m, Manager))
      && (i == 2 <==> !Present(m, User) && !Present(m, Manager) && Present(m, Hr))
      && (i == 3 <==> !Present(m, User) && !Present(m, Manager) && !Present(m, Hr) && Present(m, HrManager))
      && (i == 4 <==> !Present(m, User) && !Present(m, Manager) && !Present(m, Hr) && !Present(m, HrManager) && Present(m, Partner))
  {
    forall r: Role ensures r in RedirectOrder {
      match r
      case User => assert RedirectOrder[0] == r;
      case Manager => assert RedirectOrder[1] == r;
      case Hr => assert RedirectOrder[2] == r;
      case HrManager => assert RedirectOrder[3] == r;
      case Partner => assert RedirectOrder[4] == r;
    }
    FirstPresentExhausted(m, RedirectOrder);
    var o0 := RedirectOrder;
    var o1, o2, o3, o4 := o0[1..], o0[2..], o0[3..], o0[4..];
    assert o1[1..] == o2 && o2[1..] == o3 && o3[1..] == o4 && o4[1..] == [];
    assert FirstPresent(m, o3) == if Present(m, HrManager) then 0 else 1 + FirstPresent(m, o4);
    assert FirstPresent(m, o2) == if Present(m, Hr) then 0 else 1 + FirstPresent(m, o3);
    assert FirstPresent(m, o1) == if Present(m, Manager) then 0 else 1 + FirstPresent(m, o2);
  }
}
