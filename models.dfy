/**
 * Entities of the restaurant back end. `User`, the gender type and the role numbering come from
 * models/models.go; the other records are not declared in that file, so their fields are the ones
 * the controllers read and write. Object ids are plain strings, money is an integer number of minor
 * currency units and instants are integers.
 */
module Models {
  import opened Wrappers

  type Money = int
  type Time = int

  // ----- gender -----

  const Male: string := "001"
  const Femail: string := "002"

  /** `TGender.IsValid`: nil for the two declared genders, an error for anything else. */
  function GenderIsValid(g: string): (r: Outcome<string>)
    ensures r.Pass? <==> g in {Male, Femail}
    ensures r.Fail? ==> r.error == "invalid gender type: must be '001' or '002'"
  {
    if g != Male && g != Femail then Fail("invalid gender type: must be '001' or '002'") else Pass
  }

  // ----- roles -----

  const WaiterOrChef: int := 0
  const Assistant: int := 1
  const Manager: int := 2
  const Owner: int := 3
  const RootAdmin: int := 100

  /** The role numbers documented beside the `User` record. */
  const DocumentedRoles: set<int> := {WaiterOrChef, Assistant, Manager, Owner, RootAdmin}

  // ----- object ids -----

  predicate IsHexDigit(c: char)
  {
    '0' <= c <= '9' || 'a' <= c <= 'f' || 'A' <= c <= 'F'
  }

  /** `primitive.ObjectIDFromHex` succeeds exactly on 24 hexadecimal digits (either case). */
  predicate IsObjectIdHex(s: string)
  {
    |s| == 24 && forall i :: 0 <= i < |s| ==> IsHexDigit(s[i])
  }

  // ----- records -----

  datatype User = User(
    userId: string,
    branchId: string,
    name: string,
    email: string,
    password: string,
    avatar: string,
    role: int,
    address: string,
    nrc: string,
    gender: string,
    verificationCode: string,
    isVerified: bool,
    t1: string,
    t2: string,
    createdAt: Time,
    updatedAt: Time)

  /** An add-on, either a document of the add-on collection or an entry embedded in a menu. */
  datatype AddOn = AddOn(
    addOnId: string,
    menuId: string,
    title: string,
    description: string,
    price: Money,
    cover: string,
    note: string,
    isAvailable: bool,
    categoryId: string,   // only ever written by UpdateMenuAddOn, which stores the form's menu_id here
    updatedAt: Time)

  datatype Menu = Menu(
    menuId: string,
    title: string,
    shortTitle: string,
    description: string,
    price: Money,
    discount: Money,
    categoryId: string,
    branchId: string,
    cover: string,
    images: seq<string>,
    addOns: seq<AddOn>,
    createdAt: Time,
    updatedAt: Time)

  /** One requested add-on of an order line. */
  datatype AddOnItem = AddOnItem(addOnId: string, quantity: int, note: string)

  /** One order line: a menu, its quantity and the add-ons chosen for it. */
  datatype MenuItem = MenuItem(menuId: string, quantity: int, note: string, addOnItems: seq<AddOnItem>)

  datatype Order = Order(
    orderId: string,
    branchId: string,
    tableId: string,
    menuItems: seq<MenuItem>,
    totalAmount: Money,
    status: string,
    isPaid: bool,
    note: string,
    createdAt: Time,
    updatedAt: Time)

  datatype Sale = Sale(
    saleId: string,
    branchId: string,
    tableId: string,
    orderIds: seq<string>,
    totalAmount: Money,
    discount: Money,
    tax: Money,
    grandTotal: Money,
    paymentMethod: string,
    note: string,
    createdAt: Time)

  datatype Restaurant = Restaurant(
    id: string,
    name: string,
    address: string,
    contact: string,
    ownerId: string,
    members: seq<string>,
    createdAt: Time,
    updatedAt: Time)

  /** Order status codes written by the handlers. */
  const StatusPending: string := "001"
  const StatusCompleted: string := "003"
}
