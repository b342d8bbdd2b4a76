/**
 * The catalog records every variant of the storefront shares: items,
 * categories and the market configuration. Display-only fields (description,
 * image, icon, usage texts) carry no behaviour and are not modelled.
 */
module Catalog {
  import opened Base

  /** A sellable item; `price` is in whole currency units. */
  datatype Item = Item(id: string, name: string, price: int, category: string)

  datatype Category = Category(id: string, name: string)

  /** A market: its categories in display order, its items, and an optional owner. */
  datatype MarketConfig = MarketConfig(
    id: string,
    name: string,
    categories: seq<Category>,
    items: seq<Item>,
    ownerId: Option<string>,
    ownerName: Option<string>)

  /** `items.find(i => i.id === id)`: the first item carrying that id, if any. */
  function FindItem(items: seq<Item>, id: string): (r: Option<Item>)
    ensures r.None? <==> forall i :: 0 <= i < |items| ==> items[i].id != id
    ensures r.Some? ==> exists i :: 0 <= i < |items| && items[i] == r.value && r.value.id == id
                          && forall j :: 0 <= j < i ==> items[j].id != id
  {
    if items == [] then None
    else if items[0].id == id then Some(items[0])
    else
      var r := FindItem(items[1..], id);
      assert r.Some? ==> exists i :: 1 <= i < |items| && items[i] == r.value && r.value.id == id
                                     && forall j :: 0 <= j < i ==> items[j].id != id by {
        if r.Some? {
          var k :| 0 <= k < |items| - 1 && items[1..][k] == r.value && r.value.id == id
                   && forall j :: 0 <= j < k ==> items[1..][j].id != id;
          assert items[k + 1] == r.value;
          assert forall j :: 0 <= j < k + 1 ==> items[j].id != id by {
            forall j | 0 <= j < k + 1 ensures items[j].id != id {
              if j > 0 { assert items[j] == items[1..][j - 1]; }
            }
          }
        }
      }
      r
  }

  /** `categories[0]?.id || ''`: the default category of a market. */
  function FirstCategoryId(categories: seq<Category>): (r: string)
    ensures |categories| > 0 ==> r == categories[0].id
    ensures |categories| == 0 ==> r == ""
    ensures r != "" ==> exists c :: c in categories && c.id == r
  {
    if |categories| > 0 then categories[0].id else ""
  }
}
