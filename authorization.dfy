/** `assertRestaurantPermission`: the guard every staff action runs before it
    touches a restaurant's data, as a function with the outcome it throws. */
module Authorization {
  import opened Wrappers
  import opened Errors
  import opened Permissions

  /** The parts of the signed-in user a guard reads. */
  datatype SessionUser = SessionUser(id: string, email: Option<string>, name: Option<string>, restaurants: Option<seq<RestaurantAccess>>)

  datatype Session = Session(user: Option<SessionUser>)

  /** `session?.user` */
  function UserOf(session: Option<Session>): Option<SessionUser> {
    if session.Some? then session.value.user else None
  }

  /** `assertRestaurantPermission(session, restaurantId, permission)`: returns
      normally (`Pass`) or throws `unauthorized()`/`forbidden()`. */
  function AssertRestaurantPermission(session: Option<Session>, restaurantId: string, permission: string): (r: Outcome<AppError>)
    ensures UserOf(session).None? ==> r == Fail(Unauthorized())
    ensures (UserOf(session).Some? && !HasRestaurantPermission(UserOf(session).value.restaurants, restaurantId, permission))
            ==> r == Fail(Forbidden())
    ensures r.Pass? <==> UserOf(session).Some? && HasRestaurantPermission(UserOf(session).value.restaurants, restaurantId, permission)
  {
    if session.None? || session.value.user.None? then Fail(Unauthorized())
    else if !HasRestaurantPermission(session.value.user.value.restaurants, restaurantId, permission) then Fail(Forbidden())
    else Pass
  }

  /** The guard has exactly three outcomes: pass, 401 or 403. A missing user
      is refused with 401 whatever the permissions would have said. */
  lemma ThreeOutcomes(session: Option<Session>, restaurantId: string, permission: string)
    ensures var r := AssertRestaurantPermission(session, restaurantId, permission);
            r.Pass? || r.error.status == 401 || r.error.status == 403
    ensures AssertRestaurantPermission(session, restaurantId, permission).Fail?
            && AssertRestaurantPermission(session, restaurantId, permission).error.status == 401
            <==> UserOf(session).None?
  {
  }
}
