/** Catalog entries (services and products for sale) and the name lookup that
    both order screens perform with `Array.prototype.find`. */
module Catalog {

  datatype Option<+T> = None | Some(value: T)

  /** One row of the `services` or `products` table: id, display name, unit price.
      (A product's stock is informational only and not read by the order screens.) */
  datatype CatalogItem = CatalogItem(id: int, name: string, price: real)

  /** True when some entry of `catalog` carries the display name `name`. */
  predicate Listed(catalog: seq<CatalogItem>, name: string)
  {
    exists k :: 0 <= k < |catalog| && catalog[k].name == name
  }

  /** `catalog.find(item => item.name === name)`: the FIRST entry with that name, if any. */
  function FindByName(catalog: seq<CatalogItem>, name: string): (r: Option<CatalogItem>)
    ensures r.None? <==> !Listed(catalog, name)
    ensures r.Some? ==> exists k :: 0 <= k < |catalog| && catalog[k] == r.value
                                    && forall j :: 0 <= j < k ==> catalog[j].name != name
    ensures r.Some? ==> r.value.name == name
  {
    if |catalog| == 0 then None
    else if catalog[0].name == name then Some(catalog[0])
    else
      var rest := FindByName(catalog[1..], name);
      assert Listed(catalog, name) ==> Listed(catalog[1..], name) by {
        if Listed(catalog, name) {
          var k :| 0 <= k < |catalog| && catalog[k].name == name;
          assert catalog[1..][k - 1].name == name;
        }
      }
      assert rest.Some? ==> exists k :: 0 <= k < |catalog| && catalog[k] == rest.value
                                      && forall j :: 0 <= j < k ==> catalog[j].name != name by {
        if rest.Some? {
          var k :| 0 <= k < |catalog[1..]| && catalog[1..][k] == rest.value
                   && forall j :: 0 <= j < k ==> catalog[1..][j].name != name;
          assert catalog[k + 1] == rest.value;
          assert forall j :: 0 <= j < k + 1 ==> catalog[j].name != name by {
            forall j | 0 <= j < k + 1 ensures catalog[j].name != name {
              if j > 0 { assert catalog[j] == catalog[1..][j - 1]; }
            }
          }
        }
      }
      rest
  }
}
