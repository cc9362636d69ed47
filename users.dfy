/**
 * controllers/user.controller.go: self-registration and e-mail verification, creation of staff
 * users by an owner or administrator, the conditional profile patch, role assignment and the
 * membership guards of user deletion. Password hashing, e-mail sending and the e-mail syntax check
 * are inputs.
 */
module Users {
  import opened Wrappers
  import opened Models
  import opened Helpers
  import opened Bson
  import Restaurants

  // ----- the verification code -----

  function Pow10(k: nat): (p: nat)
    ensures p >= 1
  {
    if k == 0 then 1 else 10 * Pow10(k - 1)
  }

  predicate IsDigit(c: char)
  {
    '0' <= c <= '9'
  }

  predicate AllDigits(s: string)
  {
    forall i :: 0 <= i < |s| ==> IsDigit(s[i])
  }

  /** `fmt.Sprintf("%0<width>d", n)` for a non-negative n with at most `width` digits. */
  function ZeroPadded(n: nat, width: nat): (s: string)
    ensures |s| == width && AllDigits(s)
  {
    if width == 0 then ""
    else ZeroPadded(n / 10, width - 1) + [('0' as int + n % 10) as char]
  }

  /** The number a string of decimal digits denotes. */
  function DigitsValue(s: string): nat
    requires AllDigits(s)
  {
    if s == [] then 0 else DigitsValue(s[..|s| - 1]) * 10 + (s[|s| - 1] as int - '0' as int)
  }

  /** Reading the padded text back gives the number, so no two values below 10^width share a code. */
  lemma {:induction false} ZeroPaddedRoundTrip(n: nat, width: nat)
    requires n < Pow10(width)
    ensures DigitsValue(ZeroPadded(n, width)) == n
  {
    if width > 0 {
      var s := ZeroPadded(n, width);
      assert n / 10 < Pow10(width - 1) by {
        assert n < 10 * Pow10(width - 1);
      }
      ZeroPaddedRoundTrip(n / 10, width - 1);
      assert s[..|s| - 1] == ZeroPadded(n / 10, width - 1);
      assert (n / 10) * 10 + n % 10 == n;
    }
  }

  /** The code `RegisterUser` mails: the nanosecond clock modulo one million, as six digits. */
  function VerificationCode(nanos: nat): (code: string)
    ensures |code| == 6 && AllDigits(code)
  {
    ZeroPadded(nanos % 1000000, 6)
  }

  lemma VerificationCodeValue(nanos: nat)
    ensures DigitsValue(VerificationCode(nanos)) == nanos % 1000000
  {
    assert Pow10(6) == 1000000;
    ZeroPaddedRoundTrip(nanos % 1000000, 6);
  }

  // ----- lookups -----

  predicate EmailTaken(users: map<string, User>, email: string)
  {
    exists k :: k in users && users[k].email == email
  }

  /** `FindOne({email})` found a user other than `self`. */
  predicate EmailTakenByOther(users: map<string, User>, email: string, self: string)
  {
    exists k :: k in users && k != self && users[k].email == email
  }

  datatype UserError =
    | InvalidEmail
    | InvalidPassword
    | UserExists
    | EmailFailed
    | DuplicateUserId
    | UserNotFound
    | InvalidCode
    | InvalidUserId
    | InvalidRestaurantId
    | InvalidRole
    | Unauthorized(message: string)
    | RestaurantNotFound
    | NotAuthorized
    | TargetNotMember
    | EmailInUse
    /** The `role` field is 0, the zero value Gin's `binding:"required"` refuses. */
    | RoleRequired

  /** The user `RegisterUser` inserts: hashed password, mailed code, unverified, role 0. */
  function RegisteredUser(req: User, hashed: string, code: string, newId: string, now: Time): (u: User)
    ensures u.role == WaiterOrChef && !u.isVerified && u.verificationCode == code
    ensures u.userId == newId && u.password == hashed && u.email == req.email && u.name == req.name
    ensures u.createdAt == now && u.updatedAt == now
  {
    req.(password := hashed, verificationCode := code, isVerified := false, userId := newId, role := WaiterOrChef,
         createdAt := now, updatedAt := now)
  }

  /** A successful verification: verified, code cleared. */
  function Verified(u: User): (v: User)
    ensures v.isVerified && v.verificationCode == ""
    ensures v.userId == u.userId && v.email == u.email && v.role == u.role && v.password == u.password
  {
    u.(isVerified := true, verificationCode := "")
  }

  /** The profile fields `UpdateUserInfo` accepts. */
  datatype UserInfoForm = UserInfoForm(
    name: string, email: string, avatar: string, address: string, nrc: string, gender: string, t1: string, t2: string)

  /** The `updateFields` map: the non-empty profile fields and the update time; never t1 or t2. */
  predicate IsUserInfoPatch(patch: map<string, Value>, form: UserInfoForm, now: Time)
  {
    patch.Keys <= {"updated_at", "name", "email", "avatar", "address", "nrc", "gender"} &&
    "updated_at" in patch && patch["updated_at"] == Stamp(now) &&
    ("name" in patch <==> form.name != "") && ("name" in patch ==> patch["name"] == Str(form.name)) &&
    ("email" in patch <==> form.email != "") && ("email" in patch ==> patch["email"] == Str(form.email)) &&
    ("avatar" in patch <==> form.avatar != "") && ("avatar" in patch ==> patch["avatar"] == Str(form.avatar)) &&
    ("address" in patch <==> form.address != "") && ("address" in patch ==> patch["address"] == Str(form.address)) &&
    ("nrc" in patch <==> form.nrc != "") && ("nrc" in patch ==> patch["nrc"] == Str(form.nrc)) &&
    ("gender" in patch <==> form.gender != "") && ("gender" in patch ==> patch["gender"] == Str(form.gender))
  }

  /** Builds the profile patch by successive conditional writes. */
  method UserInfoPatch(form: UserInfoForm, now: Time) returns (patch: map<string, Value>)
    ensures IsUserInfoPatch(patch, form, now)
    ensures "t1" !in patch && "t2" !in patch
  {
    patch := map[];
    if form.name != "" {
      patch := patch["name" := Str(form.name)];
    }
    assert ("name" in patch <==> form.name != "") && ("name" in patch ==> patch["name"] == Str(form.name));
    if form.email != "" {
      patch := patch["email" := Str(form.email)];
    }
    assert ("email" in patch <==> form.email != "") && ("email" in patch ==> patch["email"] == Str(form.email));
    if form.avatar != "" {
      patch := patch["avatar" := Str(form.avatar)];
    }
    assert ("avatar" in patch <==> form.avatar != "") && ("avatar" in patch ==> patch["avatar"] == Str(form.avatar));
    if form.address != "" {
      patch := patch["address" := Str(form.address)];
    }
    assert ("address" in patch <==> form.address != "") && ("address" in patch ==> patch["address"] == Str(form.address));
    if form.nrc != "" {
      patch := patch["nrc" := Str(form.nrc)];
    }
    assert ("nrc" in patch <==> form.nrc != "") && ("nrc" in patch ==> patch["nrc"] == Str(form.nrc));
    if form.gender != "" {
      patch := patch["gender" := Str(form.gender)];
    }
    assert ("gender" in patch <==> form.gender != "") && ("gender" in patch ==> patch["gender"] == Str(form.gender));
    patch := patch["updated_at" := Stamp(now)];
  }

  function StrAt(patch: map<string, Value>, key: string, current: string): string
  {
    if key in patch && patch[key].Str? then patch[key].s else current
  }

  /** `$set` of a profile patch onto a stored user. */
  function ApplyUserPatch(u: User, patch: map<string, Value>): User
  {
    u.(name := StrAt(patch, "name", u.name), email := StrAt(patch, "email", u.email),
       avatar := StrAt(patch, "avatar", u.avatar), address := StrAt(patch, "address", u.address),
       nrc := StrAt(patch, "nrc", u.nrc), gender := StrAt(patch, "gender", u.gender),
       t1 := StrAt(patch, "t1", u.t1), t2 := StrAt(patch, "t2", u.t2),
       updatedAt := if "updated_at" in patch && patch["updated_at"].Stamp? then patch["updated_at"].t else u.updatedAt)
  }

  /**
   * An applied profile patch replaces each field whose form value is non-empty, keeps the others,
   * and never touches t1, t2, role, password or verification state.
   */
  lemma {:induction false} UserPatchEffect(u: User, form: UserInfoForm, now: Time, patch: map<string, Value>)
    requires IsUserInfoPatch(patch, form, now)
    ensures var p := ApplyUserPatch(u, patch);
            p.name == (if form.name != "" then form.name else u.name) &&
            p.email == (if form.email != "" then form.email else u.email) &&
            p.avatar == (if form.avatar != "" then form.avatar else u.avatar) &&
            p.address == (if form.address != "" then form.address else u.address) &&
            p.nrc == (if form.nrc != "" then form.nrc else u.nrc) &&
            p.gender == (if form.gender != "" then form.gender else u.gender) &&
            p.updatedAt == now && p.t1 == u.t1 && p.t2 == u.t2 &&
            p.userId == u.userId && p.role == u.role && p.password == u.password &&
            p.isVerified == u.isVerified && p.verificationCode == u.verificationCode
  {
    assert "t1" !in patch && "t2" !in patch;
  }

  // ----- role assignment -----

  /** The roles a caller may hand out: 0 and 1 for everyone, 2 for an owner, 2 and 3 for root. */
  method AssignableRoles(callerRole: int) returns (roles: seq<int>)
    ensures forall r :: r in roles <==> r in {WaiterOrChef, Assistant} ||
                                        (callerRole == Owner && r == Manager) ||
                                        (callerRole == RootAdmin && r in {Manager, Owner})
    ensures Owner in roles <==> callerRole == RootAdmin
    ensures Manager in roles <==> callerRole in {Owner, RootAdmin}
    ensures RootAdmin !in roles
  {
    roles := [WaiterOrChef, Assistant];
    if callerRole == Owner {
      roles := roles + [Manager];
    } else if callerRole == RootAdmin {
      roles := roles + [Manager, Owner];
    }
  }

  /** The checks `UpdateUserRole` and `DeleteUser` share, in handler order. */
  function MemberGuard(ctx: Context, users: map<string, User>, restaurants: map<string, Restaurant>,
                       userId: string, restaurantId: string): (r: Outcome<UserError>)
    ensures r.Pass? <==>
              IsObjectIdHex(userId) && IsObjectIdHex(restaurantId) && restaurantId in restaurants &&
              userId in restaurants[restaurantId].members && GetCurrentUser(ctx, users).Ok? &&
              (GetCurrentUser(ctx, users).value.role == RootAdmin ||
               GetCurrentUser(ctx, users).value.userId in restaurants[restaurantId].members)
    ensures (IsObjectIdHex(userId) && IsObjectIdHex(restaurantId) && restaurantId in restaurants &&
             userId !in restaurants[restaurantId].members) ==> r == Fail(TargetNotMember)
  {
    if !IsObjectIdHex(userId) then Fail(InvalidUserId)
    else if !IsObjectIdHex(restaurantId) then Fail(InvalidRestaurantId)
    else if restaurantId !in restaurants then Fail(RestaurantNotFound)
    else if !IsRestaurantMember(restaurants[restaurantId].members, userId) then Fail(TargetNotMember)
    else match GetCurrentUser(ctx, users)
      case Err(e) => Fail(Unauthorized(e))
      case Ok(caller) =>
        if caller.role != RootAdmin && !IsRestaurantMember(restaurants[restaurantId].members, caller.userId)
        then Fail(NotAuthorized)
        else Pass
  }

  /** The checks of `CreateUser` before anything is written, in handler order. */
  function CreateUserCheck(ctx: Context, users: map<string, User>, restaurants: map<string, Restaurant>,
                           restaurantId: string, req: User, isEmail: string -> bool): (r: Outcome<UserError>)
    ensures !IsObjectIdHex(restaurantId) ==> r == Fail(InvalidRestaurantId)
    ensures IsObjectIdHex(restaurantId) && req.role !in {WaiterOrChef, Assistant, Manager} ==> r == Fail(InvalidRole)
    ensures r.Pass? <==>
              IsObjectIdHex(restaurantId) && req.role in {WaiterOrChef, Assistant, Manager} &&
              GetCurrentUser(ctx, users).Ok? && restaurantId in restaurants &&
              (GetCurrentUser(ctx, users).value.role == Owner ==>
                 GetCurrentUser(ctx, users).value.userId in restaurants[restaurantId].members) &&
              isEmail(req.email) && |req.password| >= 6 && !EmailTaken(users, req.email)
    ensures (IsObjectIdHex(restaurantId) && req.role in {WaiterOrChef, Assistant, Manager} &&
             GetCurrentUser(ctx, users).Ok? && restaurantId in restaurants &&
             GetCurrentUser(ctx, users).value.role == Owner &&
             GetCurrentUser(ctx, users).value.userId !in restaurants[restaurantId].members) ==> r == Fail(NotAuthorized)
    ensures (IsObjectIdHex(restaurantId) && req.role in {WaiterOrChef, Assistant, Manager} &&
             GetCurrentUser(ctx, users).Ok? && restaurantId in restaurants &&
             (GetCurrentUser(ctx, users).value.role == Owner ==>
                GetCurrentUser(ctx, users).value.userId in restaurants[restaurantId].members) &&
             isEmail(req.email) && |req.password| >= 6 && EmailTaken(users, req.email)) ==> r == Fail(UserExists)
  {
    if !IsObjectIdHex(restaurantId) then Fail(InvalidRestaurantId)
    else if req.role !in {WaiterOrChef, Assistant, Manager} then Fail(InvalidRole)
    else match GetCurrentUser(ctx, users)
      case Err(e) => Fail(Unauthorized(e))
      case Ok(caller) =>
        if restaurantId !in restaurants then Fail(RestaurantNotFound)
        else if caller.role == Owner && !IsRestaurantMember(restaurants[restaurantId].members, caller.userId) then Fail(NotAuthorized)
        else if !isEmail(req.email) then Fail(InvalidEmail)
        else if |req.password| < 6 then Fail(InvalidPassword)
        else if EmailTaken(users, req.email) then Fail(UserExists)
        else Pass
  }

  // ----- the user store -----

  /** The user collection, keyed by `_id`. */
  class UserStore {
    var users: map<string, User>

    /** Each user is stored under its own id, and no two users share an e-mail address. */
    predicate Valid()
      reads this
    {
      (forall k :: k in users ==> users[k].userId == k) &&
      (forall k1, k2 :: k1 in users && k2 in users && k1 != k2 ==> users[k1].email != users[k2].email)
    }

    constructor (users: map<string, User>)
      requires forall k :: k in users ==> users[k].userId == k
      requires forall k1, k2 :: k1 in users && k2 in users && k1 != k2 ==> users[k1].email != users[k2].email
      ensures this.users == users && Valid()
    {
      this.users := users;
    }

    /**
     * `RegisterUser`: a valid e-mail, a password of at least six characters and an unused e-mail are
     * required; the verification mail must go out; then the new unverified user with role 0 and a
     * six-digit code is stored.
     */
    method RegisterUser(req: User, isEmail: string -> bool, hashed: string, nanos: nat, mailSent: bool,
                        newId: string, now: Time)
      returns (r: Result<User, UserError>)
      requires Valid()
      modifies this
      ensures Valid()
      ensures !isEmail(req.email) ==> r == Err(InvalidEmail) && users == old(users)
      ensures isEmail(req.email) && |req.password| < 6 ==> r == Err(InvalidPassword) && users == old(users)
      ensures isEmail(req.email) && |req.password| >= 6 && EmailTaken(old(users), req.email) ==>
                r == Err(UserExists) && users == old(users)
      ensures isEmail(req.email) && |req.password| >= 6 && !EmailTaken(old(users), req.email) ==>
                if !mailSent then r == Err(EmailFailed) && users == old(users)
                else if newId in old(users) then r == Err(DuplicateUserId) && users == old(users)
                else r == Ok(RegisteredUser(req, hashed, VerificationCode(nanos), newId, now)) &&
                     users == old(users)[newId := r.value]
    {
      if !isEmail(req.email) {
        return Err(InvalidEmail);
      }
      if |req.password| < 6 {
        return Err(InvalidPassword);
      }
      if EmailTaken(users, req.email) {
        return Err(UserExists);
      }
      var verificationCode := VerificationCode(nanos);
      var user := RegisteredUser(req, hashed, verificationCode, newId, now);
      if !mailSent {
        return Err(EmailFailed);
      }
      if newId in users {
        return Err(DuplicateUserId);
      }
      users := users[newId := user];
      return Ok(user);
    }

    /** `VerifyUser`: the user with that e-mail must exist and the code must match exactly. */
    method VerifyUser(email: string, code: string) returns (r: Outcome<UserError>)
      requires Valid()
      modifies this
      ensures Valid()
      ensures !EmailTaken(old(users), email) ==> r == Fail(UserNotFound) && users == old(users)
      ensures forall k :: k in old(users) && old(users)[k].email == email ==>
                if old(users)[k].verificationCode != code then r == Fail(InvalidCode) && users == old(users)
                else r == Pass && users == old(users)[k := Verified(old(users)[k])]
    {
      if !EmailTaken(users, email) {
        return Fail(UserNotFound);
      }
      var k :| k in users && users[k].email == email;
      var user := users[k];
      if user.verificationCode != code {
        return Fail(InvalidCode);
      }
      users := users[k := Verified(user)];
      return Pass;
    }

    /**
     * `CreateUser`: after the checks, the user is stored under the fresh id and added to the
     * restaurant's members with `$addToSet`.
     */
    method CreateUser(ctx: Context, restaurantStore: Restaurants.RestaurantStore, restaurantId: string, req: User,
                      isEmail: string -> bool, hashed: string, newId: string, now: Time)
      returns (r: Result<User, UserError>)
      requires Valid() && restaurantStore.Valid()
      modifies this, restaurantStore
      ensures Valid() && restaurantStore.Valid()
      ensures CreateUserCheck(ctx, old(users), old(restaurantStore.restaurants), restaurantId, req, isEmail).Fail? ==>
                r == Err(CreateUserCheck(ctx, old(users), old(restaurantStore.restaurants), restaurantId, req, isEmail).error) &&
                users == old(users) && restaurantStore.restaurants == old(restaurantStore.restaurants)
      ensures CreateUserCheck(ctx, old(users), old(restaurantStore.restaurants), restaurantId, req, isEmail).Pass? ==>
                if newId in old(users) then
                  r == Err(DuplicateUserId) && users == old(users) && restaurantStore.restaurants == old(restaurantStore.restaurants)
                else
                  var before := old(restaurantStore.restaurants)[restaurantId];
                  r == Ok(req.(password := hashed, userId := newId, createdAt := now, updatedAt := now)) &&
                  users == old(users)[newId := r.value] &&
                  restaurantStore.restaurants ==
                    old(restaurantStore.restaurants)[restaurantId := before.(members := Restaurants.AddToSet(before.members, newId))]
    {
      var check := CreateUserCheck(ctx, users, restaurantStore.restaurants, restaurantId, req, isEmail);
      if !IsObjectIdHex(restaurantId) {
        return Err(InvalidRestaurantId);
      }
      var allowedRole := Contains([WaiterOrChef, Assistant, Manager], req.role);
      if !allowedRole {
        return Err(InvalidRole);
      }
      if check.Fail? {
        return Err(check.error);
      }
      var user := req.(password := hashed, userId := newId, createdAt := now, updatedAt := now);
      if newId in users {
        return Err(DuplicateUserId);
      }
      users := users[newId := user];
      var restaurant := restaurantStore.restaurants[restaurantId];
      restaurantStore.restaurants := restaurantStore.restaurants[restaurantId :=
        restaurant.(members := Restaurants.AddToSet(restaurant.members, newId))];
      return Ok(user);
    }

    /**
     * `UpdateUserInfo`: the caller's own record gets the non-empty profile fields; an e-mail
     * already used by a different user is refused.
     */
    method UpdateUserInfo(ctx: Context, form: UserInfoForm, now: Time) returns (r: Result<User, UserError>)
      requires Valid()
      modifies this
      ensures Valid()
      ensures GetUserIDFromMdw(ctx).Err? ==> r == Err(Unauthorized(GetUserIDFromMdw(ctx).error)) && users == old(users)
      ensures GetUserIDFromMdw(ctx).Ok? ==>
                var self := GetUserIDFromMdw(ctx).value;
                if form.email != "" && EmailTakenByOther(old(users), form.email, self) then
                  r == Err(EmailInUse) && users == old(users)
                else if self !in old(users) then r == Err(UserNotFound) && users == old(users)
                else r.Ok? && users == old(users)[self := r.value] &&
                     exists patch :: IsUserInfoPatch(patch, form, now) && r.value == ApplyUserPatch(old(users)[self], patch)
    {
      var id := GetUserIDFromMdw(ctx);
      if id.Err? {
        return Err(Unauthorized(id.error));
      }
      var self := id.value;
      if form.email != "" && EmailTakenByOther(users, form.email, self) {
        return Err(EmailInUse);
      }
      var patch := UserInfoPatch(form, now);
      if self !in users {
        return Err(UserNotFound);
      }
      var updated := ApplyUserPatch(users[self], patch);
      UserPatchEffect(users[self], form, now, patch);
      users := users[self := updated];
      return Ok(updated);
    }

    /**
     * `UpdateUserRole`: a role of 0 is refused when the request is bound (`Role int` carries
     * `binding:"required"`, and 0 is its zero value); after the member guards, the requested role
     * is written whether or not the caller may assign it; `forbidden` records that the refusal was
     * sent first.
     */
    method UpdateUserRole(ctx: Context, restaurants: map<string, Restaurant>, userId: string, restaurantId: string,
                          role: int, now: Time)
      returns (r: Outcome<UserError>, forbidden: bool)
      requires Valid()
      modifies this
      ensures Valid()
      ensures role == WaiterOrChef ==> r == Fail(RoleRequired) && !forbidden && users == old(users)
      ensures role != WaiterOrChef && MemberGuard(ctx, old(users), restaurants, userId, restaurantId).Fail? ==>
                r == MemberGuard(ctx, old(users), restaurants, userId, restaurantId) && users == old(users)
      ensures role != WaiterOrChef && MemberGuard(ctx, old(users), restaurants, userId, restaurantId).Pass? ==>
                r == Pass &&
                (forbidden <==> !(role in {WaiterOrChef, Assistant} ||
                                  (GetCurrentUser(ctx, old(users)).value.role == Owner && role == Manager) ||
                                  (GetCurrentUser(ctx, old(users)).value.role == RootAdmin && role in {Manager, Owner}))) &&
                (userId in old(users) ==> users == old(users)[userId := old(users)[userId].(role := role, updatedAt := now)]) &&
                (userId !in old(users) ==> users == old(users))
    {
      forbidden := false;
      if role == WaiterOrChef {
        return Fail(RoleRequired), forbidden;
      }
      var guard := MemberGuard(ctx, users, restaurants, userId, restaurantId);
      if guard.Fail? {
        return guard, forbidden;
      }
      var caller := GetCurrentUser(ctx, users).value;
      var availableRoles := AssignableRoles(caller.role);
      var allowed := Contains(availableRoles, role);
      if !allowed {
        forbidden := true;
      }
      if userId in users {
        users := users[userId := users[userId].(role := role, updatedAt := now)];
      }
      return Pass, forbidden;
    }

    /**
     * `DeleteUser`: after the member guards the target user is removed; a target missing from the
     * user collection is "not found". The restaurant's members list is left as it was.
     */
    method DeleteUser(ctx: Context, restaurants: map<string, Restaurant>, userId: string, restaurantId: string)
      returns (r: Outcome<UserError>)
      requires Valid()
      modifies this
      ensures Valid()
      ensures MemberGuard(ctx, old(users), restaurants, userId, restaurantId).Fail? ==>
                r == MemberGuard(ctx, old(users), restaurants, userId, restaurantId) && users == old(users)
      ensures MemberGuard(ctx, old(users), restaurants, userId, restaurantId).Pass? ==>
                if userId in old(users) then r == Pass && users == old(users) - {userId}
                else r == Fail(UserNotFound) && users == old(users)
    {
      var guard := MemberGuard(ctx, users, restaurants, userId, restaurantId);
      if guard.Fail? {
        return guard;
      }
      if userId !in users {
        return Fail(UserNotFound);
      }
      users := users - {userId};
      return Pass;
    }
  }
}
