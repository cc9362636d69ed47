/**
 * The small part of the document store's value and query language the handlers build:
 * update patches and find filters are `bson.M` maps from field names to values.
 */
module Bson {

  datatype Value =
    | Str(s: string)
    | Num(n: int)
    | Flag(b: bool)
    | Stamp(t: int)
    | Doc(fields: map<string, Value>)
    | Array(items: seq<Value>)

  /** A filter made only of field equalities, as `{owner_id: id}` or `{menu_id: id}`. */
  type Filter = map<string, Value>

  /** A document satisfies an equality-only filter when it holds every listed field with that value. */
  predicate EqualityMatches(filter: Filter, doc: map<string, Value>)
  {
    forall k :: k in filter ==> k in doc && doc[k] == filter[k]
  }

  /** Meaning of a range condition `{$gte: lo}`, `{$lte: hi}` or `{$gte: lo, $lte: hi}` on a number. */
  predicate InRange(cond: Value, x: int)
  {
    cond.Doc? &&
    ("$gte" in cond.fields ==> cond.fields["$gte"].Num? && cond.fields["$gte"].n <= x) &&
    ("$lte" in cond.fields ==> cond.fields["$lte"].Num? && x <= cond.fields["$lte"].n)
  }
}
