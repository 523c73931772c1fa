/**
 * The page header: it resolves the current user from the session slots,
 * shows their name with a logout control, and logs out by clearing every slot.
 */
module Header {
  import opened Wrappers
  import opened Storage
  import opened Router
  import PublicRoute

  /** The order in which the header looks for the current user. */
  const ResolutionOrder: seq<Role> := [User, Partner, Manager, HrManager, Hr]

  /** The keys logout removes, in the order it removes them. */
  const SessionKeys: seq<string> := ["user", "partner", "manager", "hr-manager", "hr"]

  /** The stored string selected by getCurrentUser's `||` chain. */
  function StoredUser(m: Slots): (u: Option<string>)
    ensures Truthy(u) <==> AnyPresent(m)
  {
    Or(GetItem(m, "user"), Or(GetItem(m, "partner"), Or(GetItem(m, "manager"),
      Or(GetItem(m, "hr-manager"), GetItem(m, "hr")))))
  }

  /** The `||` chain selects the slot of the first present role of ResolutionOrder. */
  lemma StoredUserFollowsOrder(m: Slots)
    ensures var i := FirstPresent(m, ResolutionOrder);
      && (i < |ResolutionOrder| ==> StoredUser(m) == GetItem(m, ResolutionOrder[i].Key()))
      && (i == |ResolutionOrder| <==> !Truthy(StoredUser(m)))
  {
    var o0 := ResolutionOrder;
    var o1, o2, o3, o4 := o0[1..], o0[2..], o0[3..], o0[4..];
    assert o1[1..] == o2 && o2[1..] == o3 && o3[1..] == o4 && o4[1..] == [];
    assert FirstPresent(m, o3) == if Present(m, HrManager) then 0 else 1 + FirstPresent(m, o4);
    assert FirstPresent(m, o2) == if Present(m, Manager) then 0 else 1 + FirstPresent(m, o3);
    assert FirstPresent(m, o1) == if Present(m, Partner) then 0 else 1 + FirstPresent(m, o2);
  }

  /**
   * getCurrentUser: the identity parsed from the first present slot in the
   * order user, partner, manager, hr-manager, hr; null when no slot is
   * present, and null, without trying later slots, when that one fails to parse.
   */
  function GetCurrentUser(m: Slots, parse: Parser): (u: Option<Identity>)
    ensures var i := FirstPresent(m, ResolutionOrder);
      u == if i < |ResolutionOrder| then parse(m[ResolutionOrder[i].Key()]) else None
  {
    StoredUserFollowsOrder(m);
    var user := StoredUser(m);
    if Truthy(user) then parse(user.value) else None
  }

  /** The storage left by logout: every session key gone, every other key as it was. */
  function WithoutSessions(m: Slots): (r: Slots)
    ensures forall k :: k in r <==> k in m && k !in SessionKeys
    ensures forall k :: k in r ==> r[k] == m[k]
  {
    m - set k | k in SessionKeys
  }

  /** handleLogout: removes the five session keys one by one, then navigates to "/". */
  method HandleLogout(store: BrowserStorage) returns (to: Path)
    modifies store
    ensures store.items == WithoutSessions(old(store.items))
    ensures to == "/"
  {
    var i := 0;
    while i < |SessionKeys|
      invariant 0 <= i <= |SessionKeys|
      invariant store.items == old(store.items) - set j | 0 <= j < i :: SessionKeys[j]
    {
      store.RemoveItem(SessionKeys[i]);
      i := i + 1;
    }
    assert (set j | 0 <= j < i :: SessionKeys[j]) == set k | k in SessionKeys;
    to := "/";
  }

  /** Logging out twice leaves the same storage as logging out once. */
  lemma LogoutIdempotent(m: Slots)
    ensures WithoutSessions(WithoutSessions(m)) == WithoutSessions(m)
  {
  }

  /** After logout no slot is present and there is no current user, however many slots were set. */
  lemma LogoutClearsCurrentUser(m: Slots, parse: Parser)
    ensures !AnyPresent(WithoutSessions(m))
    ensures GetCurrentUser(WithoutSessions(m), parse) == None
  {
    var m' := WithoutSessions(m);
    forall r: Role ensures !Present(m', r) {
      assert r.Key() in SessionKeys by {
        match r
        case User => assert SessionKeys[0] == r.Key();
        case Partner => assert SessionKeys[1] == r.Key();
        case Manager => assert SessionKeys[2] == r.Key();
        case HrManager => assert SessionKeys[3] == r.Key();
        case Hr => assert SessionKeys[4] == r.Key();
      }
    }
    forall r: Role ensures r in ResolutionOrder {
      match r
      case User => assert ResolutionOrder[0] == r;
      case Partner => assert ResolutionOrder[1] == r;
      case Manager => assert ResolutionOrder[2] == r;
      case HrManager => assert ResolutionOrder[3] == r;
      case Hr => assert ResolutionOrder[4] == r;
    }
    FirstPresentExhausted(m', ResolutionOrder);
  }

  /** The name shown: `Employee Name`, else `Partner Name`, else `name`; nothing when all are unset. */
  function DisplayName(u: Identity): (name: string)
    ensures name != "" ==> name in u.fields.Values
    ensures Truthy(u.Field("Employee Name")) ==> name == u.fields["Employee Name"]
    ensures !Truthy(u.Field("Employee Name")) && Truthy(u.Field("Partner Name")) ==> name == u.fields["Partner Name"]
    ensures !Truthy(u.Field("Employee Name")) && !Truthy(u.Field("Partner Name")) ==> name == u.Field("name").GetOr("")
  {
    Or(u.Field("Employee Name"), Or(u.Field("Partner Name"), u.Field("name"))).GetOr("")
  }

  /**
   * The user block of the header: the displayed name, shown together with the
   * logout control, or nothing when there is no current user.
   */
  function SignedInAs(m: Slots, parse: Parser): (shown: Option<string>)
    ensures shown.Some? <==> GetCurrentUser(m, parse).Some?
    ensures shown.Some? ==> shown.value == DisplayName(GetCurrentUser(m, parse).value)
  {
    match GetCurrentUser(m, parse)
    case Some(u) => Some(DisplayName(u))
    case None => None
  }

  /**
   * The header's order is not PublicRoute's: holding the partner and manager
   * slots, the header shows the partner identity while the public pages send
   * the visitor to the manager panel.
   */
  lemma ResolutionDiffersFromRedirect(partner: JsonText, manager: JsonText, parse: Parser)
    ensures var m := map["partner" := partner, "manager" := manager];
      && GetCurrentUser(m, parse) == parse(partner)
      && PublicRoute.Guard(m) == Navigate("/manager-panel")
  {
    var m := map["partner" := partner, "manager" := manager];
    StoredUserFollowsOrder(m);
    assert !Present(m, User) && Present(m, Partner) && Present(m, Manager);
    PublicRoute.RedirectFollowsOrder(m);
  }
}
