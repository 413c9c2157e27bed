/**
 * What the two checking passes share about a collections document: how a
 * pass ends in its catch block, which items of a collection it visits, and
 * the path it names an item by.
 */
module Collections {
  import opened Prelude
  import opened Json

  /** How a pass ends in the catch block: unparsable JSON, a missing file, or any other error. */
  datatype Fault = InvalidJson | FileNotFound | OtherError

  /** `collections[<collectionIndex>].items[<itemIndex>]` */
  function ItemLabel(collectionIndex: nat, itemIndex: nat): string {
    "collections[" + NatToString(collectionIndex) + "].items[" + NatToString(itemIndex) + "]"
  }

  /**
   * The items the pass visits in a collection: its own `items` when that is
   * an array, otherwise none. Err when `hasOwnProperty` throws.
   */
  function OwnItems(collection: Json): (r: Result<seq<Json>, Fault>)
    ensures r.Err? <==> HasOwnProperty(collection, "items").None?
    ensures r.Ok? && r.value != [] ==> collection.JObj? && Get(collection.members, "items") == Some(JArr(r.value))
  {
    NamedKeyOnlyOnObjects(collection, "items");
    match HasOwnProperty(collection, "items")
    case None => Err(OtherError)
    case Some(has) =>
      var items := Lookup(collection, "items");
      if has && items.Some? && items.value.JArr? then Ok(items.value.elems) else Ok([])
  }

}
