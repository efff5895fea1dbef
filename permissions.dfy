/** The permission keys, the role → permission table, and the two lookups
    used by every staff action. */
module Permissions {
  import opened Wrappers

  const OrdersView := "orders:view"
  const OrdersManage := "orders:manage"
  const MenuManage := "menu:manage"
  const BillingView := "billing:view"
  const BillingManage := "billing:manage"
  const UsersManage := "users:manage"
  const SettingsManage := "settings:manage"

  /** The values of `PERMISSIONS`, in declaration order. */
  const AllPermissions: seq<string> :=
    [OrdersView, OrdersManage, MenuManage, BillingView, BillingManage, UsersManage, SettingsManage]

  datatype Role = Admin | Kitchen | Cashier | Staff

  const AllRoles: seq<Role> := [Admin, Kitchen, Cashier, Staff]

  function RoleKey(role: Role): string {
    match role
    case Admin => "admin"
    case Kitchen => "kitchen"
    case Cashier => "cashier"
    case Staff => "staff"
  }

  /** `ROLE_PERMISSIONS[role]` */
  function RolePermissions(role: Role): (ps: seq<string>)
    ensures forall p :: p in ps ==> p in AllPermissions
  {
    match role
    case Admin => [OrdersView, OrdersManage, MenuManage, BillingView, BillingManage, UsersManage, SettingsManage]
    case Kitchen => [OrdersView, OrdersManage]
    case Cashier => [OrdersView, OrdersManage, BillingView, BillingManage]
    case Staff => [OrdersView]
  }

  /** The admin role holds every key; kitchen ⊆ cashier ⊆ admin; staff may
      only view orders; and every role may view orders. */
  lemma RoleTable()
    ensures forall p :: p in AllPermissions ==> p in RolePermissions(Admin)
    ensures forall p :: p in RolePermissions(Kitchen) ==> p in RolePermissions(Cashier)
    ensures forall p :: p in RolePermissions(Cashier) ==> p in RolePermissions(Admin)
    ensures forall p :: p in RolePermissions(Staff) <==> p == OrdersView
    ensures forall r :: OrdersView in RolePermissions(r)
    ensures |AllPermissions| == 7 && forall i, j :: 0 <= i < j < 7 ==> AllPermissions[i] != AllPermissions[j]
  {
  }

  /** `hasPermission(userPermissions, permission)` */
  function HasPermission(userPermissions: Option<seq<string>>, permission: string): (b: bool)
    ensures userPermissions.None? || userPermissions.value == [] ==> !b
    ensures userPermissions.Some? ==> (b <==> permission in userPermissions.value)
  {
    if userPermissions.None? || |userPermissions.value| == 0 then false
    else Includes(userPermissions.value, permission)
  }

  /** `list.includes(x)` */
  function Includes(list: seq<string>, x: string): (b: bool)
    ensures b <==> x in list
  {
    if list == [] then false else list[0] == x || Includes(list[1..], x)
  }

  /** One entry of `session.user.restaurants`. */
  datatype RestaurantAccess = RestaurantAccess(restaurantId: string, role: string, permissions: seq<string>, isOwner: bool)

  /** `restaurants.findIndex(entry => entry.restaurantId === restaurantId)`,
      as an option: the position of the FIRST matching entry. */
  function FindRestaurant(restaurants: seq<RestaurantAccess>, restaurantId: string): (k: Option<nat>)
    ensures k.Some? ==> k.value < |restaurants| && restaurants[k.value].restaurantId == restaurantId
    ensures k.Some? ==> forall j :: 0 <= j < k.value ==> restaurants[j].restaurantId != restaurantId
    ensures k.None? <==> forall j :: 0 <= j < |restaurants| ==> restaurants[j].restaurantId != restaurantId
  {
    if restaurants == [] then None
    else if restaurants[0].restaurantId == restaurantId then Some(0)
    else match FindRestaurant(restaurants[1..], restaurantId)
      case None => None
      case Some(j) => Some(j + 1)
  }

  /** `hasRestaurantPermission(restaurants, restaurantId, permission)` */
  function HasRestaurantPermission(restaurants: Option<seq<RestaurantAccess>>, restaurantId: string, permission: string): (b: bool)
    ensures restaurants.None? || restaurants.value == [] ==> !b
    ensures restaurants.Some? && FindRestaurant(restaurants.value, restaurantId).None? ==> !b
    ensures b <==> restaurants.Some? && FindRestaurant(restaurants.value, restaurantId).Some?
                   && permission in restaurants.value[FindRestaurant(restaurants.value, restaurantId).value].permissions
  {
    if restaurants.None? || |restaurants.value| == 0 then false
    else match FindRestaurant(restaurants.value, restaurantId)
      case None => false
      case Some(k) => Includes(restaurants.value[k].permissions, permission)
  }

  /** Only the first entry for a restaurant is consulted: what follows it in
      the list never changes the answer. */
  lemma {:induction false} FirstEntryDecides(rs: seq<RestaurantAccess>, more: seq<RestaurantAccess>, restaurantId: string, permission: string)
    requires exists i :: 0 <= i < |rs| && rs[i].restaurantId == restaurantId
    ensures HasRestaurantPermission(Some(rs + more), restaurantId, permission)
         == HasRestaurantPermission(Some(rs), restaurantId, permission)
  {
    FindInPrefix(rs, more, restaurantId);
  }

  lemma {:induction false} FindInPrefix(rs: seq<RestaurantAccess>, more: seq<RestaurantAccess>, restaurantId: string)
    requires exists i :: 0 <= i < |rs| && rs[i].restaurantId == restaurantId
    ensures FindRestaurant(rs + more, restaurantId) == FindRestaurant(rs, restaurantId)
  {
    if rs[0].restaurantId != restaurantId {
      assert (rs + more)[1..] == rs[1..] + more;
      var i :| 0 <= i < |rs| && rs[i].restaurantId == restaurantId;
      assert rs[1..][i - 1].restaurantId == restaurantId;
      FindInPrefix(rs[1..], more, restaurantId);
    }
  }

  /** A permission granted only for other restaurants never grants access. */
  lemma OtherRestaurantsNeverGrant(rs: seq<RestaurantAccess>, restaurantId: string, permission: string)
    requires forall i :: 0 <= i < |rs| && rs[i].restaurantId == restaurantId ==> permission !in rs[i].permissions
    ensures !HasRestaurantPermission(Some(rs), restaurantId, permission)
  {
  }
}
