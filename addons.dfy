/**
 * controllers/addon.controller.go: creating a stand-alone add-on for an existing menu
 * (`AddMenuAddOn`), the conditional patch of `UpdateMenuAddOn`, and the `GetAllAddOns` filter.
 */
module AddOns {
  import opened Wrappers
  import opened Models
  import opened Helpers
  import opened Bson

  /** The form fields both handlers read. */
  datatype AddOnFields = AddOnFields(menuId: string, title: string, description: string, price: string, isAvaliable: string)

  datatype AddOnError = MenuNotFound | AddOnNotFound | InvalidMenuId | DuplicateAddOnId

  /** The add-on `AddMenuAddOn` inserts: the form's menu, title, description and price, available. */
  function NewAddOn(form: AddOnFields, newId: string, cover: string, parse: string -> Option<Money>): (a: AddOn)
    ensures a.isAvailable && a.menuId == form.menuId && a.addOnId == newId
    ensures a.title == form.title && a.description == form.description && a.cover == cover
    ensures a.price == ParseFloat(form.price, parse)
  {
    AddOn(newId, form.menuId, form.title, form.description, ParseFloat(form.price, parse), cover, "", true, "", 0)
  }

  /** Availability as `UpdateMenuAddOn` reads it: only the exact text "false" turns it off. */
  function AvailabilityOf(formValue: string): (b: bool)
    ensures !b <==> formValue == "false"
  {
    formValue != "false"
  }

  /**
   * The `updateFields` map of `UpdateMenuAddOn`: always the update time and availability; the
   * form's `menu_id` under the key `category_id`, the title and the description when non-empty;
   * the price when positive; the cover when a new one was uploaded.
   */
  predicate IsAddOnPatch(patch: map<string, Value>, form: AddOnFields, cover: Option<string>, now: Time,
                         parse: string -> Option<Money>)
  {
    patch.Keys <= {"updated_at", "is_available", "category_id", "title", "description", "price", "cover"} &&
    "updated_at" in patch && patch["updated_at"] == Stamp(now) &&
    "is_available" in patch && patch["is_available"] == Flag(form.isAvaliable != "false") &&
    ("category_id" in patch <==> form.menuId != "") && ("category_id" in patch ==> patch["category_id"] == Str(form.menuId)) &&
    ("title" in patch <==> form.title != "") && ("title" in patch ==> patch["title"] == Str(form.title)) &&
    ("description" in patch <==> form.description != "") &&
    ("description" in patch ==> patch["description"] == Str(form.description)) &&
    ("price" in patch <==> ParseFloat(form.price, parse) > 0) &&
    ("price" in patch ==> patch["price"] == Num(ParseFloat(form.price, parse))) &&
    ("cover" in patch <==> cover.Some?) && ("cover" in patch ==> patch["cover"] == Str(cover.value))
  }

  /** Builds that map by successive conditional writes. */
  method AddOnPatch(form: AddOnFields, cover: Option<string>, now: Time, parse: string -> Option<Money>)
    returns (patch: map<string, Value>)
    ensures IsAddOnPatch(patch, form, cover, now, parse)
  {
    var price := ParseFloat(form.price, parse);
    patch := map["updated_at" := Stamp(now), "is_available" := Flag(AvailabilityOf(form.isAvaliable))];
    if form.menuId != "" {
      patch := patch["category_id" := Str(form.menuId)];
    }
    if form.title != "" {
      patch := patch["title" := Str(form.title)];
    }
    if form.description != "" {
      patch := patch["description" := Str(form.description)];
    }
    if price > 0 {
      patch := patch["price" := Num(price)];
    }
    if cover.Some? {
      patch := patch["cover" := Str(cover.value)];
    }
  }

  function StrAt(patch: map<string, Value>, key: string, current: string): string
  {
    if key in patch && patch[key].Str? then patch[key].s else current
  }

  /** `$set` of an add-on patch onto a stored add-on. */
  function ApplyAddOnPatch(a: AddOn, patch: map<string, Value>): AddOn
  {
    a.(
      updatedAt := if "updated_at" in patch && patch["updated_at"].Stamp? then patch["updated_at"].t else a.updatedAt,
      isAvailable := if "is_available" in patch && patch["is_available"].Flag? then patch["is_available"].b else a.isAvailable,
      categoryId := StrAt(patch, "category_id", a.categoryId),
      title := StrAt(patch, "title", a.title),
      description := StrAt(patch, "description", a.description),
      price := if "price" in patch && patch["price"].Num? then patch["price"].n else a.price,
      cover := StrAt(patch, "cover", a.cover))
  }

  /** The add-on collection, keyed by `_id`. */
  class AddOnStore {
    var addOns: map<string, AddOn>

    constructor (addOns: map<string, AddOn>)
      ensures this.addOns == addOns
    {
      this.addOns := addOns;
    }

    /** `AddMenuAddOn`: the named menu must exist; then the new add-on is inserted. */
    method AddMenuAddOn(menus: map<string, Menu>, form: AddOnFields, cover: string, newId: string,
                        parse: string -> Option<Money>)
      returns (r: Result<AddOn, AddOnError>)
      modifies this
      ensures form.menuId !in menus ==> r == Err(MenuNotFound) && addOns == old(addOns)
      ensures form.menuId in menus ==>
                if newId in old(addOns) then r == Err(DuplicateAddOnId) && addOns == old(addOns)
                else r == Ok(NewAddOn(form, newId, cover, parse)) && addOns == old(addOns)[newId := r.value]
    {
      if form.menuId !in menus {
        return Err(MenuNotFound);
      }
      var addOn := NewAddOn(form, newId, cover, parse);
      if newId in addOns {
        return Err(DuplicateAddOnId);
      }
      addOns := addOns[newId := addOn];
      return Ok(addOn);
    }

    /**
     * `UpdateMenuAddOn`: the add-on must exist, then the form's menu must exist ("Invalid menu
     * ID"); then the patch is applied to the stored add-on.
     */
    method UpdateMenuAddOn(addOnId: string, menuIds: seq<string>, form: AddOnFields, cover: Option<string>, now: Time,
                           parse: string -> Option<Money>)
      returns (r: Outcome<AddOnError>, patch: map<string, Value>)
      modifies this
      ensures addOnId !in old(addOns) ==> r == Fail(AddOnNotFound) && addOns == old(addOns)
      ensures addOnId in old(addOns) && form.menuId !in menuIds ==> r == Fail(InvalidMenuId) && addOns == old(addOns)
      ensures addOnId in old(addOns) && form.menuId in menuIds ==>
                r == Pass && IsAddOnPatch(patch, form, cover, now, parse) &&
                addOns == old(addOns)[addOnId := ApplyAddOnPatch(old(addOns)[addOnId], patch)]
    {
      patch := map[];
      if addOnId !in addOns {
        return Fail(AddOnNotFound), patch;
      }
      var menuExists := CheckDataExist(menuIds, (m: string) => m == form.menuId);
      if !menuExists {
        return Fail(InvalidMenuId), patch;
      }
      patch := AddOnPatch(form, cover, now, parse);
      addOns := addOns[addOnId := ApplyAddOnPatch(addOns[addOnId], patch)];
      return Pass, patch;
    }
  }

  /**
   * What an update does to a stored add-on: availability is off exactly for the text "false",
   * empty texts and non-positive prices keep the stored value, the form's menu id lands in
   * `categoryId`, and the add-on's own `menuId`, id and note never change.
   */
  lemma {:induction false} UpdatedAddOnFields(a: AddOn, form: AddOnFields, cover: Option<string>, now: Time,
                                              parse: string -> Option<Money>, patch: map<string, Value>)
    requires IsAddOnPatch(patch, form, cover, now, parse)
    ensures var u := ApplyAddOnPatch(a, patch);
            u.updatedAt == now &&
            (u.isAvailable <==> form.isAvaliable != "false") &&
            u.categoryId == (if form.menuId != "" then form.menuId else a.categoryId) &&
            u.title == (if form.title != "" then form.title else a.title) &&
            u.description == (if form.description != "" then form.description else a.description) &&
            u.price == (if ParseFloat(form.price, parse) > 0 then ParseFloat(form.price, parse) else a.price) &&
            u.cover == (if cover.Some? then cover.value else a.cover) &&
            u.menuId == a.menuId && u.addOnId == a.addOnId && u.note == a.note
  {
    assert "category_id" in patch <==> form.menuId != "";
    assert "title" in patch <==> form.title != "";
    assert "description" in patch <==> form.description != "";
    assert "price" in patch <==> ParseFloat(form.price, parse) > 0;
    assert "cover" in patch <==> cover.Some?;
  }

  // ----- GetAllAddOns -----

  /** The `$match` of `GetAllAddOns`: by menu when a `menu_id` query is given, otherwise everything. */
  function AddOnsFilter(menuId: string): (f: Filter)
    ensures "menu_id" in f <==> menuId != ""
    ensures f.Keys <= {"menu_id"}
    ensures menuId != "" ==> f["menu_id"] == Str(menuId)
  {
    if menuId != "" then map["menu_id" := Str(menuId)] else map[]
  }

  /** An empty query selects every add-on; a given one selects exactly the add-ons of that menu. */
  lemma AddOnsFilterSelects(menuId: string, doc: map<string, Value>)
    ensures menuId == "" ==> EqualityMatches(AddOnsFilter(menuId), doc)
    ensures menuId != "" ==> (EqualityMatches(AddOnsFilter(menuId), doc) <==> "menu_id" in doc && doc["menu_id"] == Str(menuId))
  {
    if menuId != "" {
      assert "menu_id" in AddOnsFilter(menuId);
    }
  }
}
