/**
 * The browser's localStorage as the client uses it: five role-keyed session
 * slots that may coexist, each holding a serialized identity.
 */
module Storage {
  import opened Wrappers

  /** The five roles, as the `AuthType` union of the route guards names them. */
  datatype Role = User | Partner | Manager | Hr | HrManager {

    /** The localStorage key under which this role's identity is stored. */
    function Key(): (k: string)
      ensures k != ""
    {
      match this
      case User => "user"
      case Partner => "partner"
      case Manager => "manager"
      case Hr => "hr"
      case HrManager => "hr-manager"
    }
  }

  /** Distinct roles use distinct keys, so writing one slot never touches another. */
  lemma KeyInjective(a: Role, b: Role)
    ensures a.Key() == b.Key() <==> a == b
  {
    if a != b {
      match a
      case User => assert a.Key()[0] == 'u';
      case Partner => assert a.Key()[0] == 'p';
      case Manager => assert a.Key()[0] == 'm';
      case Hr => assert |a.Key()| == 2;
      case HrManager => assert |a.Key()| == 10;
    }
  }

  /** Writing one role's slot leaves the presence of every other role's slot as it was. */
  lemma WriteLeavesOtherSlots(m: Slots, role: Role, value: string)
    ensures forall r: Role :: r != role ==> Present(m[role.Key() := value], r) == Present(m, r)
  {
    forall r: Role | r != role ensures Present(m[role.Key() := value], r) == Present(m, r) {
      KeyInjective(r, role);
    }
  }

  /** The contents of localStorage, key to stored string. */
  type Slots = map<string, string>

  /** `localStorage.getItem(key)`: the stored string, or null when the key is absent. */
  function GetItem(m: Slots, key: string): (v: Option<string>)
    ensures v.Some? <==> key in m
    ensures v.Some? ==> v.value == m[key]
  {
    if key in m then Some(m[key]) else None
  }

  /** JavaScript truthiness of a `string | null`: null and "" are falsy. */
  predicate Truthy(v: Option<string>) {
    v.Some? && v.value != ""
  }

  /** The JavaScript expression `a || b` on two `string | null` operands. */
  function Or(a: Option<string>, b: Option<string>): (r: Option<string>)
    ensures Truthy(r) <==> Truthy(a) || Truthy(b)
    ensures Truthy(a) ==> r == a
    ensures !Truthy(a) ==> r == b
  {
    if Truthy(a) then a else b
  }

  /** A role's session counts as present when its slot exists and is non-empty. */
  predicate Present(m: Slots, r: Role) {
    Truthy(GetItem(m, r.Key()))
  }

  /** At least one of the five slots is present. */
  predicate AnyPresent(m: Slots) {
    Present(m, User) || Present(m, Partner) || Present(m, Manager) || Present(m, Hr) || Present(m, HrManager)
  }

  /** AnyPresent holds exactly when some role's slot is present. */
  lemma AnyPresentWitness(m: Slots, r: Role)
    requires Present(m, r)
    ensures AnyPresent(m)
  {
    match r
    case User =>
    case Partner =>
    case Manager =>
    case Hr =>
    case HrManager =>
  }

  /** The slot of `role` is the only one present. */
  predicate OnlyPresent(m: Slots, role: Role) {
    forall r: Role :: Present(m, r) <==> r == role
  }

  /** Every role occurs in `order`. */
  predicate CoversAllRoles(order: seq<Role>) {
    forall r: Role :: r in order
  }

  /**
   * The index of the first role in `order` whose slot is present, or |order|
   * when there is none. Every priority chain of the client is this function
   * applied to its own order.
   */
  function FirstPresent(m: Slots, order: seq<Role>): (i: nat)
    ensures i <= |order|
    ensures forall j :: 0 <= j < i ==> !Present(m, order[j])
    ensures i < |order| ==> Present(m, order[i])
  {
    if order == [] then 0
    else if Present(m, order[0]) then 0
    else 1 + FirstPresent(m, order[1..])
  }

  /** A chain over all five roles finds nothing exactly when no slot is present. */
  lemma FirstPresentExhausted(m: Slots, order: seq<Role>)
    requires CoversAllRoles(order)
    ensures FirstPresent(m, order) == |order| <==> !AnyPresent(m)
  {
    var i := FirstPresent(m, order);
    if i == |order| {
      forall r: Role ensures !Present(m, r) {
        assert r in order;
        var j :| 0 <= j < |order| && order[j] == r;
      }
    } else {
      AnyPresentWitness(m, order[i]);
    }
  }

  /** A parsed session identity: the string-valued fields of the stored JSON object. */
  datatype Identity = Identity(fields: map<string, string>) {

    /** `identity[name]`, undefined when the field is missing. */
    function Field(name: string): (v: Option<string>)
      ensures v.Some? <==> name in fields
    {
      if name in fields then Some(fields[name]) else None
    }
  }

  /**
   * `JSON.parse` as the client relies on it: Some(identity) for a stored
   * object, None when parsing throws (the client catches it) or yields null.
   */
  type Parser = string -> Option<Identity>

  /** The output of `JSON.stringify`, which is never the empty string. */
  type JsonText = s: string | s != "" witness "null"

  /** localStorage as mutable state: `setItem` and `removeItem` change it in place. */
  class BrowserStorage {
    var items: Slots

    constructor (initial: Slots)
      ensures items == initial
    {
      items := initial;
    }

    /** `localStorage.setItem(key, value)`. */
    method SetItem(key: string, value: string)
      modifies this
      ensures items == old(items)[key := value]
    {
      items := items[key := value];
    }

    /** `localStorage.removeItem(key)`; removing an absent key is a no-op. */
    method RemoveItem(key: string)
      modifies this
      ensures items == old(items) - {key}
    {
      items := items - {key};
    }
  }
}
