/**
 * controllers/menu.controller.go: building a menu's add-on list from the parallel form arrays in
 * `CreateMenu` and `UpdateMenu`, the existence checks and field writes of those handlers, and the
 * filter `SearchMenu` assembles from its query parameters. Image uploads are inputs: the URL each
 * upload produced is handed in.
 */
module Menus {
  import opened Wrappers
  import opened Models
  import opened Helpers
  import opened Bson

  // ----- strconv.ParseBool -----

  const TrueSpellings: set<string> := {"1", "t", "T", "TRUE", "true", "True"}
  const FalseSpellings: set<string> := {"0", "f", "F", "FALSE", "false", "False"}

  /** `strconv.ParseBool`: the twelve accepted spellings, nothing else. */
  function ParseBool(s: string): (r: Option<bool>)
    ensures r.Some? <==> s in TrueSpellings + FalseSpellings
    ensures r == Some(true) <==> s in TrueSpellings
    ensures r == Some(false) <==> s in FalseSpellings
  {
    if s in TrueSpellings then Some(true)
    else if s in FalseSpellings then Some(false)
    else None
  }

  // ----- add-on zipping -----

  /**
   * The add-on arrays of a menu form: `add_on_title`, `add_on_note`, `add_on_price`,
   * `add_on_available`, and the URL each uploaded `add_on_images` file received ("" when the
   * file could not be opened).
   */
  datatype AddOnForm = AddOnForm(
    titles: seq<string>, notes: seq<string>, prices: seq<string>, availables: seq<string>, covers: seq<string>)

  /** The i-th add-on of the form: the title, and each other array's i-th entry or its default. */
  function FormAddOn(form: AddOnForm, newIds: seq<string>, parse: string -> Option<Money>, i: nat): AddOn
    requires i < |form.titles| && |newIds| == |form.titles|
  {
    AddOn(
      addOnId := newIds[i],
      menuId := "",
      title := form.titles[i],
      description := "",
      price := if i < |form.prices| then ParseFloat(form.prices[i], parse) else 0,
      cover := if i < |form.covers| then form.covers[i] else "",
      note := if i < |form.notes| then form.notes[i] else "",
      isAvailable := if i < |form.availables| then ParseBool(form.availables[i]).GetOr(false) else true,
      categoryId := "",
      updatedAt := 0)
  }

  /** The whole list: one entry per title, in title order. */
  function ZippedAddOns(form: AddOnForm, newIds: seq<string>, parse: string -> Option<Money>): (r: seq<AddOn>)
    requires |newIds| == |form.titles|
    ensures |r| == |form.titles|
  {
    seq(|form.titles|, i requires 0 <= i < |form.titles| => FormAddOn(form, newIds, parse, i))
  }

  /** The loop of `CreateMenu`/`UpdateMenu` that appends one add-on per submitted title. */
  method ZipAddOns(form: AddOnForm, newIds: seq<string>, parse: string -> Option<Money>) returns (addOns: seq<AddOn>)
    requires |newIds| == |form.titles|
    ensures addOns == ZippedAddOns(form, newIds, parse)
  {
    addOns := [];
    var i := 0;
    while i < |form.titles|
      invariant 0 <= i <= |form.titles|
      invariant addOns == ZippedAddOns(form, newIds, parse)[..i]
    {
      var price: Money := 0;
      if i < |form.prices| {
        price := ParseFloat(form.prices[i], parse);
      }
      var note := "";
      if i < |form.notes| {
        note := form.notes[i];
      }
      var available := true;
      if i < |form.availables| {
        available := ParseBool(form.availables[i]).GetOr(false);
      }
      var cover := "";
      if i < |form.covers| {
        cover := form.covers[i];
      }
      var addOn := AddOn(newIds[i], "", form.titles[i], "", price, cover, note, available, "", 0);
      assert addOn == FormAddOn(form, newIds, parse, i);
      addOns := addOns + [addOn];
      i := i + 1;
    }
  }

  /**
   * The defaults of the zipped list: entry i carries title i; its price is the parsed i-th price,
   * 0 when there is none or it does not parse; its note is the i-th note or ""; it is available
   * unless an i-th availability value exists and is not a spelling of true.
   */
  lemma ZippedAddOnDefaults(form: AddOnForm, newIds: seq<string>, parse: string -> Option<Money>, i: nat)
    requires |newIds| == |form.titles| && i < |form.titles|
    ensures var a := ZippedAddOns(form, newIds, parse)[i];
            a.title == form.titles[i] && a.addOnId == newIds[i] &&
            (i >= |form.prices| || parse(form.prices[i]).None? ==> a.price == 0) &&
            (i < |form.prices| && parse(form.prices[i]).Some? ==> a.price == parse(form.prices[i]).value) &&
            (a.note == if i < |form.notes| then form.notes[i] else "") &&
            (a.isAvailable <==> i >= |form.availables| || form.availables[i] in TrueSpellings)
  {
  }

  /** `CreateMenu` reads no availability array, so every add-on it builds is available. */
  lemma CreateMenuAddOnsAvailable(form: AddOnForm, newIds: seq<string>, parse: string -> Option<Money>)
    requires |newIds| == |form.titles|
    ensures forall i :: 0 <= i < |form.titles| ==> ZippedAddOns(form.(availables := []), newIds, parse)[i].isAvailable
  {
  }

  // ----- the menu store -----

  datatype MenuError = MenuNotFound | InvalidBranch | InvalidCategory | DuplicateMenuId

  /** The menu `CreateMenu` inserts: the submitted fields, fresh id and times, uploads and add-ons. */
  function NewMenu(req: Menu, newId: string, now: Time, cover: Option<string>, images: seq<string>, addOns: seq<AddOn>): (m: Menu)
    ensures m.menuId == newId && m.createdAt == now && m.updatedAt == now
    ensures m.cover == cover.GetOr(req.cover) && m.images == images && m.addOns == addOns
    ensures m.title == req.title && m.price == req.price && m.discount == req.discount &&
            m.categoryId == req.categoryId && m.branchId == req.branchId
  {
    req.(menuId := newId, createdAt := now, updatedAt := now, cover := cover.GetOr(req.cover), images := images, addOns := addOns)
  }

  /**
   * The `$set` of `UpdateMenu`: the update time, the new cover when one was uploaded, the new image
   * list and the rebuilt add-on list. Title, prices, category and branch are not written.
   */
  function UpdatedMenu(m: Menu, now: Time, cover: Option<string>, images: seq<string>, addOns: seq<AddOn>): (u: Menu)
    ensures u.updatedAt == now && u.images == images && u.addOns == addOns
    ensures cover.Some? ==> u.cover == cover.value
    ensures cover.None? ==> u.cover == m.cover
    ensures u.menuId == m.menuId && u.title == m.title && u.shortTitle == m.shortTitle && u.description == m.description &&
            u.price == m.price && u.discount == m.discount && u.categoryId == m.categoryId &&
            u.branchId == m.branchId && u.createdAt == m.createdAt
  {
    m.(updatedAt := now, cover := cover.GetOr(m.cover), images := images, addOns := addOns)
  }

  /** The menu collection, keyed by `menu_id`. */
  class MenuStore {
    var menus: map<string, Menu>

    constructor (menus: map<string, Menu>)
      ensures this.menus == menus
    {
      this.menus := menus;
    }

    /**
     * `CreateMenu`: the branch, then the category, must exist; then the menu is inserted with its
     * uploads and its add-ons zipped from the form (all available). The existence tests query the
     * branch collection on `branch_id` and the category collection on `category_id`, so the two
     * sequences are the values those documents hold under those field names, not their `_id`s.
     */
    method CreateMenu(branchFieldValues: seq<string>, categoryFieldValues: seq<string>, req: Menu, newId: string, now: Time,
                      cover: Option<string>, images: seq<string>, form: AddOnForm, addOnIds: seq<string>,
                      parse: string -> Option<Money>)
      returns (r: Result<Menu, MenuError>)
      requires |addOnIds| == |form.titles|
      modifies this
      ensures req.branchId !in branchFieldValues ==> r == Err(InvalidBranch) && menus == old(menus)
      ensures req.branchId in branchFieldValues && req.categoryId !in categoryFieldValues ==> r == Err(InvalidCategory) && menus == old(menus)
      ensures req.branchId in branchFieldValues && req.categoryId in categoryFieldValues ==>
                if newId in old(menus) then r == Err(DuplicateMenuId) && menus == old(menus)
                else r == Ok(NewMenu(req, newId, now, cover, images, ZippedAddOns(form.(availables := []), addOnIds, parse))) &&
                     menus == old(menus)[newId := r.value]
    {
      var branchExists := CheckDataExist(branchFieldValues, (b: string) => b == req.branchId);
      if !branchExists {
        return Err(InvalidBranch);
      }
      var categoryExists := CheckDataExist(categoryFieldValues, (c: string) => c == req.categoryId);
      if !categoryExists {
        return Err(InvalidCategory);
      }
      var addOns := ZipAddOns(form.(availables := []), addOnIds, parse);
      if newId in menus {
        return Err(DuplicateMenuId);
      }
      var menu := NewMenu(req, newId, now, cover, images, addOns);
      menus := menus[newId := menu];
      return Ok(menu);
    }

    /**
     * `UpdateMenu`: the menu must exist, then the submitted branch, then the submitted category
     * (tested on the `branch_id` and `category_id` fields, as in `CreateMenu`); then the update
     * time, cover, images and the rebuilt add-on list are written.
     */
    method UpdateMenu(menuId: string, branchFieldValues: seq<string>, categoryFieldValues: seq<string>, req: Menu, now: Time,
                      cover: Option<string>, images: seq<string>, form: AddOnForm, addOnIds: seq<string>,
                      parse: string -> Option<Money>)
      returns (r: Outcome<MenuError>)
      requires |addOnIds| == |form.titles|
      modifies this
      ensures menuId !in old(menus) ==> r == Fail(MenuNotFound) && menus == old(menus)
      ensures menuId in old(menus) && req.branchId !in branchFieldValues ==> r == Fail(InvalidBranch) && menus == old(menus)
      ensures menuId in old(menus) && req.branchId in branchFieldValues && req.categoryId !in categoryFieldValues ==>
                r == Fail(InvalidCategory) && menus == old(menus)
      ensures menuId in old(menus) && req.branchId in branchFieldValues && req.categoryId in categoryFieldValues ==>
                r == Pass &&
                menus == old(menus)[menuId := UpdatedMenu(old(menus)[menuId], now, cover, images, ZippedAddOns(form, addOnIds, parse))]
    {
      if menuId !in menus {
        return Fail(MenuNotFound);
      }
      var branchExists := CheckDataExist(branchFieldValues, (b: string) => b == req.branchId);
      if !branchExists {
        return Fail(InvalidBranch);
      }
      var categoryExists := CheckDataExist(categoryFieldValues, (c: string) => c == req.categoryId);
      if !categoryExists {
        return Fail(InvalidCategory);
      }
      var addOns := ZipAddOns(form, addOnIds, parse);
      menus := menus[menuId := UpdatedMenu(menus[menuId], now, cover, images, addOns)];
      return Pass;
    }
  }

  // ----- SearchMenu -----

  /** A price bound from a query parameter: absent when empty or when it does not parse. */
  function Bound(param: string, parse: string -> Option<Money>): Option<Money>
  {
    if param == "" then None else parse(param)
  }

  /** Case-insensitive regular-expression match on one field. */
  function RegexOn(field: string, query: string): Value
  {
    Doc(map[field := Doc(map["$regex" := Str(query), "$options" := Str("i")])])
  }

  /** The `price` condition for the bounds present. */
  function PriceRange(lo: Option<Money>, hi: Option<Money>): (v: Value)
    requires lo.Some? || hi.Some?
    ensures forall x :: InRange(v, x) <==> (lo.Some? ==> lo.value <= x) && (hi.Some? ==> x <= hi.value)
  {
    if lo.Some? && hi.Some? then Doc(map["$gte" := Num(lo.value), "$lte" := Num(hi.value)])
    else if lo.Some? then Doc(map["$gte" := Num(lo.value)])
    else Doc(map["$lte" := Num(hi.value)])
  }

  /**
   * `SearchMenu`'s filter: the title/description `$or` only for a non-empty query, the category
   * equality only for a non-empty category, and a `price` condition built from whichever bounds
   * parse (an unparsable bound is dropped).
   */
  method SearchMenuFilter(query: string, categoryId: string, minPrice: string, maxPrice: string,
                          parse: string -> Option<Money>)
    returns (filter: map<string, Value>)
    ensures filter.Keys <= {"$or", "category_id", "price"}
    ensures "$or" in filter <==> query != ""
    ensures query != "" ==> filter["$or"] == Array([RegexOn("title", query), RegexOn("description", query)])
    ensures "category_id" in filter <==> categoryId != ""
    ensures categoryId != "" ==> filter["category_id"] == Str(categoryId)
    ensures "price" in filter <==> Bound(minPrice, parse).Some? || Bound(maxPrice, parse).Some?
    ensures "price" in filter ==> filter["price"] == PriceRange(Bound(minPrice, parse), Bound(maxPrice, parse))
  {
    filter := map[];
    if query != "" {
      filter := filter["$or" := Array([RegexOn("title", query), RegexOn("description", query)])];
    }
    if categoryId != "" {
      filter := filter["category_id" := Str(categoryId)];
    }
    if minPrice != "" {
      var minPriceVal := parse(minPrice);
      if minPriceVal.Some? {
        filter := filter["price" := Doc(map["$gte" := Num(minPriceVal.value)])];
      }
    }
    if maxPrice != "" {
      var maxPriceVal := parse(maxPrice);
      if maxPriceVal.Some? {
        if "price" !in filter {
          filter := filter["price" := Doc(map["$lte" := Num(maxPriceVal.value)])];
        } else {
          filter := filter["price" := Doc(map["$gte" := filter["price"].fields["$gte"], "$lte" := Num(maxPriceVal.value)])];
        }
      }
    }
  }

  /** With both bounds valid a price matches exactly when it lies between them, inclusive. */
  lemma BothBoundsMeanBetween(minPrice: string, maxPrice: string, parse: string -> Option<Money>, x: Money)
    requires Bound(minPrice, parse).Some? && Bound(maxPrice, parse).Some?
    ensures InRange(PriceRange(Bound(minPrice, parse), Bound(maxPrice, parse)), x) <==>
              Bound(minPrice, parse).value <= x <= Bound(maxPrice, parse).value
  {
  }
}
