/**
 * The static food catalog of the application. Each entry in the application also carries a
 * display name, an image URL, an accent colour and a manual test procedure; none of those
 * influence any transition or analysis, so an item is modelled by its identifier alone.
 */
module Catalog {

  datatype FoodItem = FoodItem(id: string)

  /** The catalog, in display order. */
  const FoodItems: seq<FoodItem> := [
    FoodItem("turmeric"),
    FoodItem("honey"),
    FoodItem("black-pepper"),
    FoodItem("chili-powder"),
    FoodItem("milk"),
    FoodItem("ghee"),
    FoodItem("rice"),
    FoodItem("salt"),
    FoodItem("tea")
  ]

  /** The identifiers of the catalog, as a set. */
  function CatalogIds(): (ids: set<string>)
    ensures forall item :: item in FoodItems ==> item.id in ids
    ensures forall id :: id in ids ==> FoodItem(id) in FoodItems
  {
    set i | 0 <= i < |FoodItems| :: FoodItems[i].id
  }

  /** The catalog has nine entries and no two of them share an identifier. */
  lemma CatalogDistinct()
    ensures |FoodItems| == 9
    ensures forall i, j :: 0 <= i < j < |FoodItems| ==> FoodItems[i].id != FoodItems[j].id
  {
  }

  /** The identifiers, written out. */
  lemma CatalogIdSet()
    ensures CatalogIds() == {"turmeric", "honey", "black-pepper", "chili-powder", "milk",
                             "ghee", "rice", "salt", "tea"}
  {
    var lit := {"turmeric", "honey", "black-pepper", "chili-powder", "milk",
                "ghee", "rice", "salt", "tea"};
    forall i | 0 <= i < |FoodItems| ensures FoodItems[i].id in lit {
      assert i == 0 || i == 1 || i == 2 || i == 3 || i == 4 || i == 5 || i == 6 || i == 7 || i == 8;
    }
    assert FoodItems[0].id == "turmeric" && FoodItems[1].id == "honey";
    assert FoodItems[2].id == "black-pepper" && FoodItems[3].id == "chili-powder";
    assert FoodItems[4].id == "milk" && FoodItems[5].id == "ghee" && FoodItems[6].id == "rice";
    assert FoodItems[7].id == "salt" && FoodItems[8].id == "tea";
  }
}
