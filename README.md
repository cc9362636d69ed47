# nano_food_api — a Dafny model of the order, sale and catalogue handlers

nano_food_api is a restaurant back end written in Go with Gin handlers over MongoDB collections. This
project models the parts of its handlers that carry logic, and proves properties of that model:

- **Order pricing.** `CreateOrder` computes each line as (menu price − menu discount) × quantity
  plus the sum of add-on price × quantity. It fails on the first menu or add-on it cannot find.
- **The order read pipeline.** `orderPipeline` is a `$match`, two `$lookup`s and the `$filter`
  that attaches to each line its own menu and add-on details.
- **Order updates and settlement.** `UpdateOrder`, and the `FindOneAndUpdate` "settle" step of
  `CreateSale`.
- **Sales.** `CreateSale` walks its order ids, settles each order (status `"003"`, paid) and sums
  the pre-image totals. The grand total is total − discount + tax.
- **Catalogue handlers.** `CreateMenu`, `UpdateMenu` and `SearchMenu` (the filter it builds), and
  `AddMenuAddOn`, `UpdateMenuAddOn` and the `GetAllAddOns` filter.
- **Restaurants and members.** `GetRestaurants` (its visibility filter), `UpdateRestaurant`, and
  `AddRestaurantMember` / `RemoveRestaurantMember` with `$addToSet` / `$pull`.
- **Users.** `RegisterUser` (with its six-digit verification code), `VerifyUser`, `CreateUser`,
  `UpdateUserInfo` (with its patch), `UpdateUserRole` (the assignable roles) and `DeleteUser`.
- **Middleware.** The Gin `Authentication` middleware (parsing of the `Authorization` header) and
  the `Authorization` middleware (role check).
- **Helpers.** `Contains`, `CheckDataExist`, `GetUserIDFromMdw`, `GetCurrentUser`, `ParseFloat`,
  the Firebase URL helpers and `ContentType`.

## How the model is built

Each collection a handler writes is a class with a `map` keyed by document id. The classes are
`OrderStore`, `SaleStore`, `MenuStore`, `AddOnStore`, `RestaurantStore` and `UserStore`. Their
methods state the whole new state of the map for every outcome.

A collection a handler only reads is a value parameter. For `CreateOrder` and `CreateSale`,
branches and tables are the sequence of their `_id`s, the field those handlers test. `CreateMenu`
and `UpdateMenu` test other fields: `branch_id` on the branch collection and `category_id` on
the category collection. For them the sequences are the values stored under those field names.
Menus and add-ons for pricing are maps.

Money is an integer count of minor units. The source uses `float64`.

Anything outside the program becomes an input:

- the clock;
- a freshly generated ObjectID;
- `time.Now().UnixNano()`;
- bcrypt's output;
- whether the e-mail was sent;
- `govalidator.IsEmail`;
- JWT validation;
- `strconv.ParseFloat`;
- upload URLs.

Modules follow the Go packages:

| Module | Go source |
|---|---|
| `Models` | `models` |
| `Helpers` | `helpers` |
| `Middlewares` | `middlewares` |
| `Orders`, `Sales`, `Menus`, `AddOns`, `Restaurants`, `Users` | one per controller |

`Bson` holds the document values used by filters and patches. `Wrappers` holds Option, Result and
Outcome.

### Code and specification

The model follows the code wherever the code and the system's written specification disagree:

- **Sale creation is not atomic.** The specification asks for pre-validation, or a transaction, so
  that a missing order leaves every order untouched. The code settles orders one by one and stops
  at the first missing id. The orders settled before that id stay settled, and no sale is written.
  `Sales.SaleStore.CreateSale` and `Sales.PartialSettlement` state exactly this.
- **There is no status state machine.** The specification describes one with
  `InvalidTransition`. `UpdateOrder` writes whatever status, note and paid flag it receives.
- **Quantities are not validated.** The specification has `InvalidQuantity`. The code accepts any
  quantity, so the model does too.
- **A missing menu or add-on is an error.** The specification does not say what happens when a
  catalogue entry is absent. The code answers 500 and inserts nothing, which the model reports as
  `PricingError`.

### Modelled as written

These behaviours of the code are kept as they are:

- **`UpdateUserRole` writes a role it refused.** The handler sends the 403 for a role the caller
  may not assign, then does not return. It goes on to write that role. The model returns
  `forbidden = true` and writes the role.
- **A refused `UpdateOrder` is an error.** When no order matches, the handler calls `err.Error()`
  on a nil error. The model treats this as an `OrderNotFound` error that changes nothing.
- **`DeleteUser` leaves the member id behind.** The deleted user's id stays in the restaurant's
  `members`.
- **Only owners are restricted in `CreateUser`.** A role-3 caller must be a member of the
  restaurant. Callers with other roles are not checked.
- **Update availability.** Each handler decides it differently:
  - In `UpdateMenuAddOn`, an add-on is available unless the form says exactly `"false"`.
  - In `UpdateMenu`, the availability uses `strconv.ParseBool`. A missing value gives true, and a
    value that does not parse gives false.
  - In `CreateMenu`, every add-on is available.
- **`UpdateMenuAddOn` writes the menu id into `category_id`.** A non-empty `menu_id` from the
  form is stored in the add-on's `category_id`. Its `menu_id` is never changed.
- **`UpdateMenu` keeps the old fields.** It writes the update time, the cover, the images and the
  rebuilt add-ons. The title, prices, category and branch it reads from the form are validated
  but never written.
- **The menu handlers look up branches and categories by the wrong field.** `CreateMenu` and
  `UpdateMenu` query `branch_id` on the branch collection and `category_id` on the category
  collection (menu.controller.go:63, 73, 215, 225). A branch document has its id only under
  `_id`, and a category document has `_id` and `branch_id` but no `category_id` (models.go:52-67).
  So a branch or category created by its own handler fails the test. The model takes the
  sequences of stored `branch_id` and `category_id` values as inputs and tests those, as written.
- **`UpdateUserRole` cannot assign role 0.** `Role int` carries `binding:"required"`, and 0 is
  the zero value of `int`, so binding refuses `{"role": 0}` before any other check. The model
  answers `RoleRequired` and writes nothing.
- **`IsRestaurntMember` is taken as list membership.** The Go definition of this helper is not
  part of this model.

## Model

| member | source | states |
|---|---|---|
| Models.GenderIsValid | models/models.go:12-22 | only "001" and "002" pass; anything else fails with the "must be '001' or '002'" message |
| Helpers.Contains | helpers/helpers.go:189-196 | the linear search answers true exactly when the item occurs in the slice |
| Helpers.CheckDataExist | helpers/helpers.go:181-187 | a filter "exists" exactly when some document matches it |
| Helpers.CountPositive | helpers/helpers.go:181-187 | the count of matching documents is positive exactly when some document matches |
| Helpers.GetUserIDFromMdw | helpers/helpers.go:140-152 | Ok exactly when the context holds a string under "userId", and then that string; otherwise the "not found" or "invalid type" error |
| Helpers.GetCurrentUser | helpers/helpers.go:154-179 | Ok exactly when the context holds a string id that is stored with a non-empty id, and then the stored record; otherwise an error |
| Helpers.ParseFloat | helpers/helpers.go:198-204 | the parsed value when the parser accepts the text, zero otherwise |
| Helpers.DeletePath | helpers/helpers.go:99-101 | Ok exactly when the separator bucket + "/" occurs in the path; without it the index into the split fails |
| Helpers.DeletePathOfPublicUrl | helpers/helpers.go:88-101 | deleting by the public URL of a file recovers the file's name when the bucket separator first occurs after the host prefix and not in the name |
| Helpers.ContentType | helpers/helpers.go:67 | Ok exactly when the name contains a dot; a name without one makes the index into the split fail |
| Helpers.ContentTypeTakesSecondPiece | helpers/helpers.go:67 | for any name stem.mid.ext with a dot-free stem and mid, the type is image/mid, not image/ext |
| Helpers.ContentTypeOfOneDot | helpers/helpers.go:67 | a name stem.ext with one dot gets image/ext |
| Helpers.ContentTypeExample | helpers/helpers.go:67 | "a.b.png" gets "image/b" |
| Helpers.ExtensionContentType | helpers/helpers.go:67 | the corrected type, defined by the last dot: Ok exactly when the name contains a dot |
| Helpers.ExtensionContentTypeOfName | helpers/helpers.go:67 | for every name stem.ext with a dot-free ext, the corrected type is image/ext |
| Middlewares.Fields | middlewares/middlewares.go:23 | strings.Fields: every field is a non-empty run of non-space characters |
| Middlewares.ToLower | middlewares/middlewares.go:24 | ASCII lower-casing, character by character, keeping the length |
| Middlewares.ParseAuthorization | middlewares/middlewares.go:15-31 | an empty header is "missing"; otherwise Ok exactly when the header splits into two fields whose first is "bearer" in any case, and the token is the second field |
| Middlewares.BearerHeaderYieldsToken | middlewares/middlewares.go:23-31 | every header of the form spaces, a bearer scheme in any case, spaces, a token, spaces yields exactly that token |
| Middlewares.AuthenticatedCallerId | middlewares/middlewares.go:38-41 | after the claims are stored, GetUserIDFromMdw answers the token's user id |
| Middlewares.GinContext.Authentication | middlewares/middlewares.go:13-44 | a missing or malformed header or a rejected token aborts with 401 and sets nothing; a valid token stores email, userId and role and lets the request through |
| Middlewares.GinContext.Authorization | middlewares/middlewares.go:47-79 | no role gives 401, a role that is not an int gives 500, a role outside the allowed list gives 403; otherwise the request passes untouched |
| Orders.AddOnSubtotal | controllers/order.controller.go:131-142 | on an error the add-on it names is missing from the catalogue; the empty list costs 0 |
| Orders.AddOnSubtotalMeaning | controllers/order.controller.go:131-142 | the add-on subtotal is Ok exactly when every add-on resolves, and then equals the sum of price × quantity |
| Orders.AddOnSubtotalFailsFrom | controllers/order.controller.go:132-139 | once the first k add-ons already fail, the whole list fails with that same error (the loop returns at the first missing add-on) |
| Orders.LineSubtotal | controllers/order.controller.go:122-144 | an error names the menu or an add-on of that line that is missing |
| Orders.OrderTotal | controllers/order.controller.go:119-147 | the empty cart costs 0; an error names an id of the cart that does not resolve |
| Orders.OrderTotalMeaning | controllers/order.controller.go:119-147 | the total is Ok exactly when every menu and add-on of the cart resolves, and then equals the sum of (price − discount) × quantity plus the add-on amounts |
| Orders.OrderTotalFailsFrom | controllers/order.controller.go:121-128 | once the first k lines already fail, the whole cart fails with that same error (the handler returns at the first missing entry) |
| Orders.LineSubtotalMeaning | controllers/order.controller.go:122-144 | a line prices exactly when its menu and all its add-ons exist, and then at (price − discount) × quantity plus the add-on amounts |
| Orders.PriceAddOns | controllers/order.controller.go:131-142 | the inner loop computes exactly the add-on subtotal, returning at the first missing add-on |
| Orders.PriceOrder | controllers/order.controller.go:119-147 | the nested loops compute exactly the order total, including the error of the first unresolved line or add-on |
| Orders.PricingExample | controllers/order.controller.go:129-145 | a menu at 1000 with discount 100, ordered twice with one add-on at 200, totals 2000 |
| Orders.NewOrder | controllers/order.controller.go:113-147 | a new order gets the fresh id, status "001", unpaid, both timestamps now, the computed total, and keeps the requested branch, table, lines and note |
| Orders.NewOrderIgnoresRequestedState | controllers/order.controller.go:113-117 | whatever status or paid flag the client sends, the new order is the same pending, unpaid order |
| Orders.PatchOrder | controllers/order.controller.go:239-247 | the update sets status, note, paid flag and update time and keeps every other field |
| Orders.OrderStore.CreateOrder | controllers/order.controller.go:93-153 | unknown branch, then unknown table, then a pricing error, then a used id each leave the store unchanged; otherwise exactly the new priced order is added under the fresh id |
| Orders.OrderStore.UpdateOrder | controllers/order.controller.go:239-253 | an unknown id changes nothing and is an error; otherwise only that order is replaced by its patch |
| Orders.OrderStore.FindOneAndSettle | controllers/sale.controller.go:55-63 | returns the order as it was before the update and leaves it settled; an unknown id returns nothing and changes nothing |
| Orders.Settled | controllers/sale.controller.go:56-61 | settling sets status "003" and paid, and keeps the total and every other field |
| Orders.Select | controllers/order.controller.go:23-34 | a lookup keeps, in catalogue order, only entries whose id is asked for |
| Orders.SelectNarrows | controllers/order.controller.go:44-65 | filtering a lookup result down to a subset of its ids is the same as looking up that subset directly |
| Orders.Join | controllers/order.controller.go:23-72 | the joined order keeps the stored order and has one detailed line per stored line |
| Orders.OrderPipeline | controllers/order.controller.go:20-79 | every result is a stored order that matches the filter, joined with the catalogues by `Join`; there are no more results than orders |
| Orders.OrderPipelineComplete | controllers/order.controller.go:20-22 | every stored order that matches the filter appears among the results |
| Orders.OrderPipelineAppend | controllers/order.controller.go:20-22 | the results keep the stored order: the pipeline over two halves is the concatenation of the two |
| Orders.OrderPipelineSingle | controllers/order.controller.go:20-79 | one stored order gives its join if it matches, and nothing otherwise |
| Orders.JoinDetailsMatchIds | controllers/order.controller.go:44-65 | each line's menu details are exactly the catalogue menus with its menu id, and each add-on's details exactly the catalogue add-ons with its id |
| Sales.SettleAll | controllers/sale.controller.go:54-69 | settling a list of ids keeps the same set of stored orders |
| Sales.SettleAllMeaning | controllers/sale.controller.go:54-69 | after settling, every listed order is settled and every other order is unchanged |
| Sales.SettleAllKeepsTotal | controllers/sale.controller.go:63-68 | settling never changes an order's total amount |
| Sales.SettleAllIdempotent | controllers/sale.controller.go:55-68 | settling the same ids twice is the same as settling them once |
| Sales.FirstMissing | controllers/sale.controller.go:63-67 | names the first id with no stored order, or none exactly when every id is stored |
| Sales.FirstMissingAt | controllers/sale.controller.go:54-67 | when the ids before position k are stored and id k is not, k is the first missing position |
| Sales.SumTotalsAppend | controllers/sale.controller.go:53-68 | the sale total of a concatenation is the sum of the two totals |
| Sales.DuplicateCountsTwice | controllers/sale.controller.go:53-68 | an id listed twice counts its order's total twice |
| Sales.SumTotalsAfterSettle | controllers/sale.controller.go:63-68 | settling any ids first never changes the sum of the totals, so the pre-image totals sum to the totals before the sale |
| Sales.NewSale | controllers/sale.controller.go:72-77 | the sale carries the fresh id, the listed orders, the summed total and grand total = total − discount + tax |
| Sales.EmptySaleGrandTotal | controllers/sale.controller.go:53-74 | a sale with no orders has total 0 and grand total tax − discount |
| Sales.PartialSettlement | controllers/sale.controller.go:63-67 | after settling a prefix of the ids, an order listed in the prefix is settled and every other order is as before |
| Sales.SaleExample | controllers/sale.controller.go:72-74 | orders of 6000 and 4000 with discount 1000 and tax 500 give grand total 9500 |
| Sales.SaleStore.CreateSale | controllers/sale.controller.go:31-81 | unknown branch or table changes nothing; a missing order k leaves the orders before k settled and no sale; otherwise every listed order is settled and the sale holds their summed totals |
| Menus.ParseBool | controllers/menu.controller.go:330-333 | strconv.ParseBool: the six true spellings give true, the six false spellings give false, anything else is an error |
| Menus.ZippedAddOns | controllers/menu.controller.go:131-165 | one add-on per submitted title |
| Menus.ZipAddOns | controllers/menu.controller.go:319-358 | the loop builds exactly the zipped add-ons |
| Menus.ZippedAddOnDefaults | controllers/menu.controller.go:319-333 | the i-th add-on has the i-th title and fresh id; a missing or unparsable price gives 0, a missing note gives ""; it is available when no value is given or the value is one of the true spellings |
| Menus.CreateMenuAddOnsAvailable | controllers/menu.controller.go:156-163 | every add-on created with a new menu is available |
| Menus.NewMenu | controllers/menu.controller.go:83-118 | the new menu gets the fresh id, both timestamps, the uploaded cover and images, and the requested fields |
| Menus.UpdatedMenu | controllers/menu.controller.go:235-293 | the update writes the update time, the cover when one was uploaded, the images and the add-ons, and keeps the id, title, description, price, discount, category, branch and creation time |
| Menus.MenuStore.CreateMenu | controllers/menu.controller.go:63-169 | a branch id absent from the stored `branch_id` values, then a category id absent from the stored `category_id` values, leave the store unchanged; otherwise exactly the new menu, with its available add-ons, is added |
| Menus.MenuStore.UpdateMenu | controllers/menu.controller.go:203-362 | an unknown menu, then a branch id absent from the stored `branch_id` values, then a category id absent from the stored `category_id` values, change nothing; otherwise only that menu is replaced by its updated form |
| Menus.PriceRange | controllers/menu.controller.go:575-594 | the price condition admits exactly the prices within the bounds that parsed |
| Menus.SearchMenuFilter | controllers/menu.controller.go:560-594 | the filter has the `$or` over title and description exactly when the query is non-empty, has category_id exactly when one is given, and has price exactly when a bound parses |
| Menus.BothBoundsMeanBetween | controllers/menu.controller.go:584-592 | with both bounds, a price matches exactly when it lies between them |
| AddOns.NewAddOn | controllers/addon.controller.go:93-101 | the new add-on gets the fresh id, the menu id, the form fields, the cover, and is available |
| AddOns.AvailabilityOf | controllers/addon.controller.go:176-180 | false exactly for the text "false"; everything else, the empty text included, is true |
| AddOns.AddOnPatch | controllers/addon.controller.go:205-249 | the patch always sets the update time and availability, sets category_id to a non-empty menu id, title and description when non-empty, the price when it parses above 0, and the cover when one was uploaded |
| AddOns.UpdatedAddOnFields | controllers/addon.controller.go:205-220 | applying the patch changes exactly the fields the form sets (menu id into category_id) and keeps the id, menu id, note and every field the form leaves empty |
| AddOns.AddOnStore.AddMenuAddOn | controllers/addon.controller.go:27-103 | an unknown menu or a used id changes nothing; otherwise exactly the new add-on is added under the fresh id |
| AddOns.AddOnStore.UpdateMenuAddOn | controllers/addon.controller.go:151-252 | an unknown add-on or menu id changes nothing; otherwise only that add-on is replaced by the patched one |
| AddOns.AddOnsFilter | controllers/addon.controller.go:349-352 | no menu id matches every add-on; a menu id adds exactly the menu_id equality |
| AddOns.AddOnsFilterSelects | controllers/addon.controller.go:349-352 | with a menu id, an add-on document matches exactly when its menu_id is that id |
| Restaurants.AddToSet | controllers/restaurant.controller.go:252 | `$addToSet`: the result holds exactly the old members and the element, is the old list when the element was already there, and keeps a duplicate-free list duplicate-free |
| Restaurants.Pull | controllers/restaurant.controller.go:329 | `$pull`: the result holds exactly the old members other than the element and keeps a duplicate-free list duplicate-free |
| Restaurants.PullAbsent | controllers/restaurant.controller.go:329 | pulling an element that is not listed changes nothing |
| Restaurants.AddThenPull | controllers/restaurant.controller.go:252-329 | on a duplicate-free list, adding a new member and then pulling it gives back the original list |
| Restaurants.AddToSetIdempotent | controllers/restaurant.controller.go:252 | adding the same member twice is the same as adding it once |
| Restaurants.RestaurantsFilter | controllers/restaurant.controller.go:59-62 | root admins get the empty filter; anyone else gets the filter on owner_id |
| Restaurants.RestaurantsFilterVisibility | controllers/restaurant.controller.go:59-62 | a root admin sees every restaurant; any other caller sees exactly the restaurants they own |
| Restaurants.UpdateRestaurantFilter | controllers/restaurant.controller.go:138-141 | the filter always names the id, and adds owner_id exactly when the caller is not root |
| Restaurants.UpdateFilterMatches | controllers/restaurant.controller.go:138-156 | a restaurant matches exactly when it has that id and is owned by the caller or the caller is root |
| Restaurants.RoleOf | controllers/restaurant.controller.go:205-211 | the role the middleware stored, when it is an int |
| Restaurants.MemberAccess | controllers/restaurant.controller.go:199-244 | Ok exactly when the caller id and int role are present, both ids are hex, the restaurant exists, the caller is root or its owner, and the target user exists |
| Restaurants.MemberAccessNeedsRootOrOwner | controllers/restaurant.controller.go:233-236 | a caller who is neither root nor the owner is always refused |
| Restaurants.RestaurantStore.UpdateRestaurant | controllers/restaurant.controller.go:119-156 | a bad id or unknown caller changes nothing; a restaurant that is missing or the caller may not edit is "not updated"; otherwise only its name, address, contact and update time change |
| Restaurants.RestaurantStore.AddRestaurantMember | controllers/restaurant.controller.go:199-257 | a refused access or an existing member changes nothing; otherwise the user is added with `$addToSet` and nothing else changes |
| Restaurants.RestaurantStore.RemoveRestaurantMember | controllers/restaurant.controller.go:277-334 | a refused access or a non-member changes nothing; otherwise the user is pulled from the members, is no longer one, and nothing else changes |
| Users.ZeroPadded | controllers/user.controller.go:64 | `%06d`: exactly the width in decimal digits for a value that fits |
| Users.ZeroPaddedRoundTrip | controllers/user.controller.go:64 | reading the padded digits back gives the original number |
| Users.VerificationCode | controllers/user.controller.go:64 | the code is six decimal digits |
| Users.VerificationCodeValue | controllers/user.controller.go:64 | the code's digits read back as the nanosecond clock modulo one million |
| Users.RegisteredUser | controllers/user.controller.go:57-70 | the new user gets the hashed password, the code, unverified, role 0, the fresh id, the requested name and e-mail, and both timestamps |
| Users.Verified | controllers/user.controller.go:128 | verification sets the flag, clears the code and keeps id, e-mail, role and password |
| Users.UserInfoPatch | controllers/user.controller.go:356-375 | the patch sets exactly the non-empty name, email, avatar, address, nrc and gender, and the update time; t1 and t2 are never written |
| Users.UserPatchEffect | controllers/user.controller.go:356-380 | applying the patch changes exactly the non-empty form fields and the update time, and keeps t1, t2, id, role, password and verification state |
| Users.AssignableRoles | controllers/user.controller.go:587-592 | 0 and 1 for everyone, 2 for owners and root, 3 only for root, 100 never |
| Users.MemberGuard | controllers/user.controller.go:547-585 | passes exactly when both ids are hex, the restaurant exists, the target is a member, and the caller is known and is root or a member |
| Users.CreateUserCheck | controllers/user.controller.go:153-203 | a non-hex restaurant id is refused, then a role other than 0, 1, 2; the check passes exactly when the id is hex, the role allowed, the caller known, the restaurant stored, an owner caller a member, the e-mail valid, the password six or more long and the e-mail unused; an owner who is not a member gets NotAuthorized, a taken e-mail UserExists |
| Users.UserStore.RegisterUser | controllers/user.controller.go:36-83 | a bad e-mail, a short password, a taken e-mail or an unsent mail change nothing; otherwise exactly the registered user is added |
| Users.UserStore.VerifyUser | controllers/user.controller.go:111-133 | an unknown e-mail or a wrong code changes nothing; otherwise only that user becomes verified |
| Users.UserStore.CreateUser | controllers/user.controller.go:153-234 | a failed guard changes nothing; otherwise the user is added under the fresh id and the id is added to the restaurant's members with `$addToSet` |
| Users.UserStore.UpdateUserInfo | controllers/user.controller.go:321-394 | no caller id or an e-mail used by another user changes nothing; otherwise only the caller's record is patched and returned |
| Users.UserStore.UpdateUserRole | controllers/user.controller.go:537-605 | role 0 is refused at binding and changes nothing; a failed guard changes nothing; otherwise the role is written, and `forbidden` is set exactly when the caller may not assign it |
| Users.UserStore.DeleteUser | controllers/user.controller.go:625-675 | a failed guard changes nothing; otherwise the target is removed, or "not found" when it is not stored |

## Left out

- MongoDB driver errors, timeouts and decode failures other than "no document" are not modelled.
  The model has no 500 branch for a store that fails.
- Binding errors from `c.BindJSON` are not modelled, except the refused role 0 of
  `UpdateUserRole`. Requests arrive as model values. An empty required id string is reported
  by the id check that follows it instead of by binding. Nothing is written in either case.
- HTTP status codes and JSON response bodies are outside the model, except the status the two
  middlewares set.
- Firebase uploads and deletes are inputs. An uploaded file's URL is a parameter, and a deletion
  is left out; only the URL strings are modelled.
- bcrypt, SMTP, JWT validation and `govalidator.IsEmail` are inputs or function parameters. They
  are foreign calls.
- `strconv.ParseFloat` is an abstract parser parameter. Money is an integer of minor units, so
  floating-point rounding is not modelled.
- The clock, `primitive.NewObjectID()` and `UnixNano` are inputs. `VerificationCode` takes a
  non-negative nanosecond count, so Go's negative remainder for clocks before 1970 is not modelled.
- ids are compared as strings.
  - ObjectID hex case and the `ObjectID` versus `string` mix of the Go code are not modelled.
  - `CreateMenu` stores `primitive.NewObjectID().String()` (the `ObjectID("…")` text). The model
    takes the id as given.
- `len` in Go counts bytes. The model counts characters in the password checks, and
  `strings.ToLower` is modelled for ASCII only.
- A missing multipart form would make `CreateMenu` and `UpdateMenu` dereference nil
  (menu.controller.go:126 and 302). The model assumes the form is present.
- Menus.MenuStore.CreateMenu: requires one fresh add-on id per add-on title, because the ids are
  inputs.
- Menus.MenuStore.UpdateMenu: requires one fresh add-on id per add-on title, because the ids are
  inputs. Also, the deletion of older images from the blob store is left out.
- Orders.OrderPipeline: the `$match` stage is an abstract predicate. The filters of
  `GetAllOrders` and `GetOneOrder` are not modelled.
- Menus.SearchMenuFilter: builds the filter only. `$regex` matching and the later `$lookup`
  stages are not modelled.
- Helpers.DeletePath: the round trip is proved only when the bucket separator first occurs after
  the URL prefix. A bucket name that occurs earlier in the URL is a precondition of
  `DeletePathOfPublicUrl`, not a finding.
- The branch, table and category controllers, `LoginUser`, `UploadAvatar`,
  `UpdateUserPassword`, the delete and get handlers other than the filters above, `tokens`,
  `database`, `routes` and `main` are not modelled. They are plain CRUD or wiring with no logic
  beyond what is modelled here.
- Concurrency between requests is not modelled. Each handler runs as one sequential step on the
  stores.

## Findings

| source | as written | input that shows it | evidently intended | confidence | as-written member | corrected member |
|---|---|---|---|---|---|---|
| helpers/helpers.go:67 | the content type is `"image/" + strings.Split(filename, ".")[1]`, the second dot-separated piece | a file named "a.b.png" gets "image/b" | the image type from the extension after the last dot, "image/png" | not executed | Helpers.ContentTypeTakesSecondPiece | Helpers.ExtensionContentTypeOfName |
