/** The record normalizer of the web client: it maps each product record the server
    returns into the ProductWithMaterials shape the simulator reads, accepting the
    recipe list under `materials` or `composition` and the per-unit quantity under
    `quantityRequired` or `quantity`. JavaScript's `||` picks its left operand when
    that is truthy: an array (even an empty one) is truthy, `undefined` is not, and
    a number is truthy unless it is 0. */
module UseProducts {
  import opened Optional
  import opened Sequences

  /** The material object nested in each recipe line. */
  datatype RawMaterialRecord = RawMaterialRecord(id: int, name: string, stockQuantity: int)

  /** A recipe line as received; each field may be missing. */
  datatype RawLine = RawLine(
    id: Option<int>,
    quantityRequired: Option<int>,
    quantity: Option<int>,
    rawMaterial: Option<RawMaterialRecord>)

  /** A product record as received; the recipe list may come under either name. */
  datatype RawProduct = RawProduct(
    id: int,
    name: string,
    code: string,
    value: int,
    materials: Option<seq<RawLine>>,
    composition: Option<seq<RawLine>>)

  /** The nested material of a normalized line. `active` is part of the declared
      shape; the mapping never fills it in. */
  datatype MaterialInfo = MaterialInfo(
    id: Option<int>,
    name: Option<string>,
    stockQuantity: Option<int>,
    active: Option<bool>)

  datatype MaterialRow = MaterialRow(
    id: Option<int>,
    quantityRequired: Option<int>,
    rawMaterialId: Option<int>,
    rawMaterials: MaterialInfo)

  datatype ProductWithMaterials = ProductWithMaterials(
    id: int,
    name: string,
    code: string,
    value: int,
    productMaterials: seq<MaterialRow>)

  /** JavaScript truthiness of a possibly undefined number. */
  predicate Truthy(o: Option<int>)
  {
    o.Some? && o.value != 0
  }

  /** `materials || composition || []`: the first list that is present, even if empty. */
  function RecipeSource(p: RawProduct): seq<RawLine>
  {
    if p.materials.Some? then p.materials.value
    else if p.composition.Some? then p.composition.value
    else []
  }

  function NormalizeLine(m: RawLine): MaterialRow
  {
    MaterialRow(
      m.id,
      if Truthy(m.quantityRequired) then m.quantityRequired else m.quantity,
      if m.rawMaterial.Some? then Some(m.rawMaterial.value.id) else None,
      match m.rawMaterial
      case Some(r) => MaterialInfo(Some(r.id), Some(r.name), Some(r.stockQuantity), None)
      case None => MaterialInfo(None, None, None, None))
  }

  function NormalizeProduct(p: RawProduct): ProductWithMaterials
  {
    ProductWithMaterials(p.id, p.name, p.code, p.value, MapSeq(RecipeSource(p), NormalizeLine))
  }

  function Normalize(data: seq<RawProduct>): seq<ProductWithMaterials>
  {
    MapSeq(data, NormalizeProduct)
  }

  /** One product out per record in, in the same order, with its identity and price
      unchanged and one recipe row per line of the chosen list, in order. */
  lemma NormalizeShape(data: seq<RawProduct>)
    ensures var ps := Normalize(data);
      |ps| == |data| &&
      forall i :: 0 <= i < |data| ==>
        var p, q := data[i], ps[i];
        q.id == p.id && q.name == p.name && q.code == p.code && q.value == p.value &&
        |q.productMaterials| == |RecipeSource(p)| &&
        forall j :: 0 <= j < |q.productMaterials| ==> q.productMaterials[j] == NormalizeLine(RecipeSource(p)[j])
  {
  }

  /** The two recipe field names are interchangeable, and `materials` wins whenever it is
      present: an empty `materials` list hides a non-empty `composition`. */
  lemma RecipeFieldNames(p: RawProduct, lines: seq<RawLine>)
    ensures NormalizeProduct(p.(materials := Some(lines), composition := None))
         == NormalizeProduct(p.(materials := None, composition := Some(lines)))
    ensures p.materials == Some([]) ==> NormalizeProduct(p).productMaterials == []
    ensures p.materials.None? && p.composition.None? ==> NormalizeProduct(p).productMaterials == []
  {
  }

  /** The two quantity field names are interchangeable for a non-zero quantity; a
      `quantityRequired` of 0 is falsy and falls back to `quantity` (so a lone 0 under
      `quantityRequired` becomes undefined), and a positive `quantityRequired` is kept. */
  lemma QuantityFieldNames(m: RawLine, q: int)
    ensures q != 0 ==>
              NormalizeLine(m.(quantityRequired := Some(q), quantity := None)).quantityRequired
              == NormalizeLine(m.(quantityRequired := None, quantity := Some(q))).quantityRequired
    ensures NormalizeLine(m.(quantityRequired := Some(0))).quantityRequired == m.quantity
    ensures q >= 1 ==> NormalizeLine(m.(quantityRequired := Some(q))).quantityRequired == Some(q)
  {
  }

  /** Both material ids come from the nested material, as do its name and stock; without a
      nested material all of them are undefined. `active` is never set. */
  lemma MaterialFields(m: RawLine)
    ensures var row := NormalizeLine(m);
      && row.rawMaterialId == row.rawMaterials.id
      && row.rawMaterials.active.None?
      && (m.rawMaterial.None? ==>
            row.rawMaterialId.None? && row.rawMaterials.name.None? && row.rawMaterials.stockQuantity.None?)
      && (m.rawMaterial.Some? ==>
            row.rawMaterialId == Some(m.rawMaterial.value.id) &&
            row.rawMaterials.name == Some(m.rawMaterial.value.name) &&
            row.rawMaterials.stockQuantity == Some(m.rawMaterial.value.stockQuantity))
  {
  }

  // ---------------------------------------------------------------------------
  // The server's own shape: a product carries `composition`, each entry carries
  // `quantityRequired` and the full `rawMaterial`.

  /** A row the server could have produced: both ids agree, name and stock are
      present, `active` is unset and the quantity is not the falsy 0. */
  predicate ServerRow(row: MaterialRow)
  {
    && row.rawMaterialId.Some?
    && row.rawMaterials.id == row.rawMaterialId
    && row.rawMaterials.name.Some?
    && row.rawMaterials.stockQuantity.Some?
    && row.rawMaterials.active.None?
    && row.quantityRequired != Some(0)
  }

  function ServerLine(row: MaterialRow): RawLine
  {
    RawLine(row.id, row.quantityRequired, None,
      if row.rawMaterialId.Some? && row.rawMaterials.name.Some? && row.rawMaterials.stockQuantity.Some?
      then Some(RawMaterialRecord(row.rawMaterialId.value, row.rawMaterials.name.value, row.rawMaterials.stockQuantity.value))
      else None)
  }

  function ServerRecord(p: ProductWithMaterials): RawProduct
  {
    RawProduct(p.id, p.name, p.code, p.value, None, Some(MapSeq(p.productMaterials, ServerLine)))
  }

  /** Normalizing what the server sends for a product gives that product back. */
  lemma {:induction false} NormalizeServerRecord(p: ProductWithMaterials)
    requires forall j :: 0 <= j < |p.productMaterials| ==> ServerRow(p.productMaterials[j])
    ensures NormalizeProduct(ServerRecord(p)) == p
  {
    var rows := p.productMaterials;
    var back := NormalizeProduct(ServerRecord(p)).productMaterials;
    assert |back| == |rows|;
    forall j | 0 <= j < |rows| ensures back[j] == rows[j] {
      var row := rows[j];
      assert back[j] == NormalizeLine(ServerLine(row));
      assert row.rawMaterials == MaterialInfo(row.rawMaterialId, row.rawMaterials.name, row.rawMaterials.stockQuantity, None);
    }
  }
}
