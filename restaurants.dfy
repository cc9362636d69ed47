/**
 * controllers/restaurant.controller.go: the visibility filter of `GetRestaurants`, the
 * owner-restricted update of `UpdateRestaurant`, and the guarded set operations on a
 * restaurant's `members` list in `AddRestaurantMember` and `RemoveRestaurantMember`.
 */
module Restaurants {
  import opened Wrappers
  import opened Models
  import opened Helpers
  import opened Bson

  // ----- members as a set -----

  predicate NoDuplicates(xs: seq<string>)
  {
    forall i, j :: 0 <= i < j < |xs| ==> xs[i] != xs[j]
  }

  /** `$addToSet`: appends the value unless it is already present. */
  function AddToSet(xs: seq<string>, x: string): (r: seq<string>)
    ensures forall y :: y in r <==> y in xs || y == x
    ensures NoDuplicates(xs) ==> NoDuplicates(r)
    ensures x in xs ==> r == xs
  {
    if x in xs then xs else xs + [x]
  }

  /** `$pull`: removes every occurrence of the value, keeping the others in order. */
  function Pull(xs: seq<string>, x: string): (r: seq<string>)
    ensures forall y :: y in r <==> y in xs && y != x
    ensures |r| <= |xs|
    ensures NoDuplicates(xs) ==> NoDuplicates(r)
  {
    if xs == [] then []
    else if xs[0] == x then Pull(xs[1..], x)
    else
      var rest := Pull(xs[1..], x);
      assert NoDuplicates(xs) ==> xs[0] !in rest;
      [xs[0]] + rest
  }

  /** Pulling a value that is absent changes nothing. */
  lemma {:induction false} PullAbsent(xs: seq<string>, x: string)
    requires x !in xs
    ensures Pull(xs, x) == xs
  {
    if xs != [] {
      assert x !in xs[1..];
      PullAbsent(xs[1..], x);
    }
  }

  lemma {:induction false} PullAppend(xs: seq<string>, x: string)
    ensures Pull(xs + [x], x) == Pull(xs, x)
  {
    if xs == [] {
      assert [] + [x] == [x];
      assert [x][1..] == [];
    } else {
      assert (xs + [x])[1..] == xs[1..] + [x];
      PullAppend(xs[1..], x);
    }
  }

  /** Removing a member just added restores the list it was added to. */
  lemma AddThenPull(xs: seq<string>, x: string)
    requires x !in xs
    ensures Pull(AddToSet(xs, x), x) == xs
  {
    PullAppend(xs, x);
    PullAbsent(xs, x);
  }

  /** Adding twice is adding once. */
  lemma AddToSetIdempotent(xs: seq<string>, x: string)
    ensures AddToSet(AddToSet(xs, x), x) == AddToSet(xs, x)
  {
  }

  // ----- filters -----

  /** The fields of a stored restaurant that the handlers filter on. */
  function RestaurantDoc(r: Restaurant): map<string, Value>
  {
    map["_id" := Str(r.id), "owner_id" := Str(r.ownerId), "name" := Str(r.name)]
  }

  /** `GetRestaurants`: root administrators see everything, anyone else their own restaurants. */
  function RestaurantsFilter(caller: User): (f: Filter)
    ensures caller.role == RootAdmin ==> f == map[]
    ensures caller.role != RootAdmin ==> f == map["owner_id" := Str(caller.userId)]
  {
    if caller.role != RootAdmin then map["owner_id" := Str(caller.userId)] else map[]
  }

  /** A restaurant is listed exactly when the caller is a root administrator or its owner. */
  lemma RestaurantsFilterVisibility(caller: User, r: Restaurant)
    ensures EqualityMatches(RestaurantsFilter(caller), RestaurantDoc(r)) <==>
              caller.role == RootAdmin || r.ownerId == caller.userId
  {
    if caller.role != RootAdmin {
      assert "owner_id" in RestaurantsFilter(caller);
    }
  }

  /** `UpdateRestaurant`'s filter: the restaurant's id, and the caller as owner unless root. */
  method UpdateRestaurantFilter(restaurantId: string, caller: User) returns (filter: Filter)
    ensures filter.Keys == {"_id"} + (if caller.role != RootAdmin then {"owner_id"} else {})
    ensures filter["_id"] == Str(restaurantId)
    ensures "owner_id" in filter ==> filter["owner_id"] == Str(caller.userId)
  {
    filter := map["_id" := Str(restaurantId)];
    if caller.role != RootAdmin {
      filter := filter["owner_id" := Str(caller.userId)];
    }
  }

  /** The update filter matches a stored restaurant exactly when it is that one and the caller may edit it. */
  lemma UpdateFilterMatches(restaurantId: string, caller: User, filter: Filter, r: Restaurant)
    requires filter.Keys == {"_id"} + (if caller.role != RootAdmin then {"owner_id"} else {})
    requires filter["_id"] == Str(restaurantId)
    requires "owner_id" in filter ==> filter["owner_id"] == Str(caller.userId)
    ensures EqualityMatches(filter, RestaurantDoc(r)) <==>
              r.id == restaurantId && (caller.role == RootAdmin || r.ownerId == caller.userId)
  {
    assert "_id" in filter;
    if caller.role != RootAdmin {
      assert "owner_id" in filter;
    }
  }

  // ----- guards -----

  /** `c.Get("role").(int)`: the caller's role, when the context holds an int under "role". */
  function RoleOf(ctx: Context): (r: Option<int>)
    ensures r.Some? <==> "role" in ctx && ctx["role"].CtxInt?
    ensures r.Some? ==> r.value == ctx["role"].i
  {
    if "role" in ctx && ctx["role"].CtxInt? then Some(ctx["role"].i) else None
  }

  datatype RestaurantError =
    | CallerUnknown(message: string)
    | InvalidRoleFormat
    | InvalidUserId
    | InvalidRestaurantId
    | RestaurantNotFound
    | AccessDenied
    | UserNotFound
    | AlreadyMember
    | NotMember
    | NotUpdated

  /**
   * The checks shared by adding and removing a member, in handler order: caller id, role format,
   * both ids well-formed, restaurant present, caller root or owner, target user present.
   */
  function MemberAccess(ctx: Context, users: map<string, User>, restaurants: map<string, Restaurant>,
                        userId: string, restaurantId: string): (r: Result<Restaurant, RestaurantError>)
    ensures r.Ok? <==>
              GetUserIDFromMdw(ctx).Ok? && RoleOf(ctx).Some? && IsObjectIdHex(userId) && IsObjectIdHex(restaurantId) &&
              restaurantId in restaurants &&
              (RoleOf(ctx).value == RootAdmin || restaurants[restaurantId].ownerId == GetUserIDFromMdw(ctx).value) &&
              userId in users
    ensures r.Ok? ==> r.value == restaurants[restaurantId]
    ensures r == Err(AccessDenied) <==>
              GetUserIDFromMdw(ctx).Ok? && RoleOf(ctx).Some? && IsObjectIdHex(userId) && IsObjectIdHex(restaurantId) &&
              restaurantId in restaurants &&
              RoleOf(ctx).value != RootAdmin && restaurants[restaurantId].ownerId != GetUserIDFromMdw(ctx).value
  {
    match GetUserIDFromMdw(ctx)
    case Err(e) => Err(CallerUnknown(e))
    case Ok(callerId) =>
      match RoleOf(ctx)
      case None => Err(InvalidRoleFormat)
      case Some(role) =>
        if !IsObjectIdHex(userId) then Err(InvalidUserId)
        else if !IsObjectIdHex(restaurantId) then Err(InvalidRestaurantId)
        else if restaurantId !in restaurants then Err(RestaurantNotFound)
        else if role != RootAdmin && restaurants[restaurantId].ownerId != callerId then Err(AccessDenied)
        else if userId !in users then Err(UserNotFound)
        else Ok(restaurants[restaurantId])
  }

  /** Passing the member guards means the caller is a root administrator or the restaurant's owner. */
  lemma MemberAccessNeedsRootOrOwner(ctx: Context, users: map<string, User>, restaurants: map<string, Restaurant>,
                                     userId: string, restaurantId: string)
    requires MemberAccess(ctx, users, restaurants, userId, restaurantId).Ok?
    ensures "role" in ctx && ctx["role"].CtxInt? && "userId" in ctx && ctx["userId"].CtxStr?
    ensures ctx["role"].i == RootAdmin || restaurants[restaurantId].ownerId == ctx["userId"].s
  {
  }

  // ----- the restaurant store -----

  /** The restaurant collection, keyed by `_id`. */
  class RestaurantStore {
    var restaurants: map<string, Restaurant>

    /** Each restaurant is stored under its own id. */
    predicate Valid()
      reads this
    {
      forall k :: k in restaurants ==> restaurants[k].id == k
    }

    constructor (restaurants: map<string, Restaurant>)
      requires forall k :: k in restaurants ==> restaurants[k].id == k
      ensures this.restaurants == restaurants && Valid()
    {
      this.restaurants := restaurants;
    }

    /**
     * `UpdateRestaurant`: a well-formed id and a known caller are required; the update then hits
     * the restaurant only if the caller is root or its owner, and writes name, address, contact and
     * update time; no match is an error.
     */
    method UpdateRestaurant(restaurantId: string, ctx: Context, users: map<string, User>, req: Restaurant, now: Time)
      returns (r: Outcome<RestaurantError>)
      requires Valid()
      modifies this
      ensures Valid()
      ensures !IsObjectIdHex(restaurantId) ==> r == Fail(InvalidRestaurantId) && restaurants == old(restaurants)
      ensures IsObjectIdHex(restaurantId) && GetCurrentUser(ctx, users).Err? ==>
                r == Fail(CallerUnknown(GetCurrentUser(ctx, users).error)) && restaurants == old(restaurants)
      ensures IsObjectIdHex(restaurantId) && GetCurrentUser(ctx, users).Ok? ==>
                var caller := GetCurrentUser(ctx, users).value;
                if restaurantId in old(restaurants) &&
                   (caller.role == RootAdmin || old(restaurants)[restaurantId].ownerId == caller.userId)
                then r == Pass &&
                     restaurants == old(restaurants)[restaurantId :=
                       old(restaurants)[restaurantId].(name := req.name, address := req.address, contact := req.contact, updatedAt := now)]
                else r == Fail(NotUpdated) && restaurants == old(restaurants)
    {
      if !IsObjectIdHex(restaurantId) {
        return Fail(InvalidRestaurantId);
      }
      var userInfo := GetCurrentUser(ctx, users);
      if userInfo.Err? {
        return Fail(CallerUnknown(userInfo.error));
      }
      var filter := UpdateRestaurantFilter(restaurantId, userInfo.value);
      if restaurantId !in restaurants {
        return Fail(NotUpdated);
      }
      var stored := restaurants[restaurantId];
      UpdateFilterMatches(restaurantId, userInfo.value, filter, stored);
      if !EqualityMatches(filter, RestaurantDoc(stored)) {
        return Fail(NotUpdated);
      }
      restaurants := restaurants[restaurantId := stored.(name := req.name, address := req.address, contact := req.contact, updatedAt := now)];
      return Pass;
    }

    /** `AddRestaurantMember`: after the guards, a user already listed is an error; otherwise `$addToSet`. */
    method AddRestaurantMember(ctx: Context, users: map<string, User>, userId: string, restaurantId: string)
      returns (r: Outcome<RestaurantError>)
      requires Valid()
      modifies this
      ensures Valid()
      ensures MemberAccess(ctx, users, old(restaurants), userId, restaurantId).Err? ==>
                r == Fail(MemberAccess(ctx, users, old(restaurants), userId, restaurantId).error) && restaurants == old(restaurants)
      ensures MemberAccess(ctx, users, old(restaurants), userId, restaurantId).Ok? ==>
                var before := old(restaurants)[restaurantId];
                if userId in before.members then r == Fail(AlreadyMember) && restaurants == old(restaurants)
                else r == Pass && restaurants == old(restaurants)[restaurantId := before.(members := AddToSet(before.members, userId))]
    {
      var access := MemberAccess(ctx, users, restaurants, userId, restaurantId);
      if access.Err? {
        return Fail(access.error);
      }
      var restaurant := access.value;
      if IsRestaurantMember(restaurant.members, userId) {
        return Fail(AlreadyMember);
      }
      restaurants := restaurants[restaurantId := restaurant.(members := AddToSet(restaurant.members, userId))];
      return Pass;
    }

    /** `RemoveRestaurantMember`: after the guards, a user not listed is an error; otherwise `$pull`. */
    method RemoveRestaurantMember(ctx: Context, users: map<string, User>, userId: string, restaurantId: string)
      returns (r: Outcome<RestaurantError>)
      requires Valid()
      modifies this
      ensures Valid()
      ensures MemberAccess(ctx, users, old(restaurants), userId, restaurantId).Err? ==>
                r == Fail(MemberAccess(ctx, users, old(restaurants), userId, restaurantId).error) && restaurants == old(restaurants)
      ensures MemberAccess(ctx, users, old(restaurants), userId, restaurantId).Ok? ==>
                var before := old(restaurants)[restaurantId];
                if userId !in before.members then r == Fail(NotMember) && restaurants == old(restaurants)
                else r == Pass && restaurants == old(restaurants)[restaurantId := before.(members := Pull(before.members, userId))]
      ensures r == Pass ==> userId !in restaurants[restaurantId].members
    {
      var access := MemberAccess(ctx, users, restaurants, userId, restaurantId);
      if access.Err? {
        return Fail(access.error);
      }
      var restaurant := access.value;
      if !IsRestaurantMember(restaurant.members, userId) {
        return Fail(NotMember);
      }
      restaurants := restaurants[restaurantId := restaurant.(members := Pull(restaurant.members, userId))];
      return Pass;
    }
  }
}
