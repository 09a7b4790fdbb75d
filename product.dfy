/** The server's persistent entities as the production planner sees them. A product
    owns its recipe, the `composition` list, and grows it with `addMaterial`. Prices
    are integer cents and per-unit quantities are integers. */
module InventoryModel {
  import opened Optional

  datatype RawMaterial = RawMaterial(id: int, name: string, code: string, stockQuantity: int)

  /** One recipe entry: its owning product, the material (null when the reference is
      missing) and the quantity of that material per unit of product. */
  datatype ProductMaterial = ProductMaterial(product: Product?, rawMaterial: Option<RawMaterial>, quantityRequired: int)

  /** A product's fields as the planner reads them; the name may be null, and a
      composition that was never loaded is null. */
  datatype ProductRecord = ProductRecord(name: Option<string>, value: int, composition: Option<seq<ProductMaterial>>)

  class Product {
    var name: Option<string>
    var code: Option<string>
    var value: int
    var composition: seq<ProductMaterial>

    /** A new product has an empty recipe; the string fields start null and the
        value at 0. */
    constructor ()
      ensures name == None && code == None && value == 0
      ensures composition == []
    {
      name := None;
      code := None;
      value := 0;
      composition := [];
    }

    /** Appends one entry owned by this product, whatever entries are already there:
        adding the same material twice gives two entries. */
    method AddMaterial(material: Option<RawMaterial>, quantity: int)
      modifies this
      ensures composition == old(composition) + [ProductMaterial(this, material, quantity)]
      ensures name == old(name) && code == old(code) && value == old(value)
    {
      var pm := ProductMaterial(this, material, quantity);
      composition := composition + [pm];
    }
  }

  /** The recipe the service test gives its premium cake: 40 of flour, then 2 of egg,
      in that order. */
  method CakeRecipe(flour: RawMaterial, egg: RawMaterial) returns (cake: Product)
    ensures fresh(cake)
    ensures cake.composition == [ProductMaterial(cake, Some(flour), 40), ProductMaterial(cake, Some(egg), 2)]
  {
    cake := new Product();
    cake.AddMaterial(Some(flour), 40);
    cake.AddMaterial(Some(egg), 2);
  }

  /** Adding the same material twice keeps both entries, in order. */
  method AddTwice(p: Product, material: RawMaterial, quantity: int)
    modifies p
    ensures |p.composition| == |old(p.composition)| + 2
    ensures p.composition[|p.composition| - 2] == p.composition[|p.composition| - 1] == ProductMaterial(p, Some(material), quantity)
    ensures p.composition[..|old(p.composition)|] == old(p.composition)
  {
    p.AddMaterial(Some(material), quantity);
    p.AddMaterial(Some(material), quantity);
  }
}
