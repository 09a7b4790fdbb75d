/** The web client's production simulator: it seeds a stock dictionary from the
    material records nested in the normalized products, drops products without a
    recipe, orders the rest by value, highest first, and then, product by product,
    narrows the producible count over the recipe lines, subtracts what it builds
    and records a suggestion. */
module ProductionSimulator {
  import opened Optional
  import opened Sequences
  import opened Allocation
  import opened UseProducts

  /** One line of a suggestion's material breakdown. */
  datatype MaterialUse = MaterialUse(name: Option<string>, required: int, available: int)

  /** A production suggestion; values are in cents. */
  datatype Suggestion = Suggestion(
    productId: int,
    productName: string,
    productValue: int,
    maxQuantity: int,
    totalValue: int,
    materialsUsed: seq<MaterialUse>)

  // ---------------------------------------------------------------------------
  // Reading normalized products as allocator input

  /** A row the allocator can read: the per-unit quantity is a positive integer. The
      material id may be undefined (a line without a nested material). */
  predicate UsableRow(row: MaterialRow)
  {
    row.quantityRequired.Some? && row.quantityRequired.value >= 1
  }

  predicate UsableProduct(p: ProductWithMaterials)
  {
    forall j :: 0 <= j < |p.productMaterials| ==> UsableRow(p.productMaterials[j])
  }

  predicate Usable(ps: seq<ProductWithMaterials>)
  {
    forall i :: 0 <= i < |ps| ==> UsableProduct(ps[i])
  }

  /** The stock dictionary is keyed by strings: a defined id by its digits, an undefined
      one by "undefined", which no id spells. Here the keys are integers: ids map
      one-to-one onto the integers other than UndefinedKey, which stands for "undefined". */
  const UndefinedKey: MaterialId := -1

  function MaterialOf(row: MaterialRow): MaterialId
  {
    match row.rawMaterialId
    case None => UndefinedKey
    case Some(id) => if id >= 0 then id else id - 1
  }

  /** Two rows share a dictionary entry exactly when their material ids agree, an
      undefined id included. */
  lemma TrackerKey(a: MaterialRow, b: MaterialRow)
    ensures MaterialOf(a) == MaterialOf(b) <==> a.rawMaterialId == b.rawMaterialId
    ensures MaterialOf(a) == UndefinedKey <==> a.rawMaterialId.None?
  {
  }

  function RequiredOf(row: MaterialRow): int
  {
    GetOr(row.quantityRequired, 0)
  }

  /** An undefined stock reads as 0 wherever the simulator looks at it. */
  function StockOf(row: MaterialRow): int
  {
    GetOr(row.rawMaterials.stockQuantity, 0)
  }

  function LineOf(row: MaterialRow): Line
  {
    Line(MaterialOf(row), RequiredOf(row))
  }

  function ItemOf(p: ProductWithMaterials): Item<ProductWithMaterials>
  {
    Item(p, p.value, MapSeq(p.productMaterials, LineOf))
  }

  function ItemsOf(ps: seq<ProductWithMaterials>): seq<Item<ProductWithMaterials>>
  {
    MapSeq(ps, ItemOf)
  }

  predicate HasMaterials(p: ProductWithMaterials)
  {
    |p.productMaterials| > 0
  }

  function ValueOf(p: ProductWithMaterials): int
  {
    p.value
  }

  lemma UsableItems(ps: seq<ProductWithMaterials>)
    requires Usable(ps)
    ensures AllPositive(ItemsOf(ps))
  {
    var items := ItemsOf(ps);
    forall i | 0 <= i < |items| ensures PositiveQuantities(items[i].recipe) {
      assert items[i] == ItemOf(ps[i]);
      assert UsableProduct(ps[i]);
    }
  }

  /** The simulator's own order: filtered and sorted products, read as items, are the
      allocator's priority order over all items. */
  lemma ItemsOfSorted(ps: seq<ProductWithMaterials>)
    ensures ItemsOf(SortDesc(Filter(ps, HasMaterials), ValueOf))
         == SortDesc(Filter(ItemsOf(ps), HasRecipe), PriceOf)
  {
    SortMap(Filter(ps, HasMaterials), ValueOf, ItemOf, PriceOf);
    FilterMap(ps, HasMaterials, ItemOf, HasRecipe);
  }

  lemma UsableSorted(ps: seq<ProductWithMaterials>)
    requires Usable(ps)
    ensures Usable(SortDesc(Filter(ps, HasMaterials), ValueOf))
  {
    var f := Filter(ps, HasMaterials);
    var o := SortDesc(f, ValueOf);
    FilterMultiset(ps, HasMaterials);
    SortSorted(f, ValueOf);
    forall i | 0 <= i < |o| ensures UsableProduct(o[i]) {
      assert o[i] in multiset(o);
      assert o[i] in multiset(f);
      assert o[i] in ps;
    }
  }

  // ---------------------------------------------------------------------------
  // Seeding the stock dictionary

  /** Every recipe row of every product, products in order. */
  function AllRows(ps: seq<ProductWithMaterials>): seq<MaterialRow>
  {
    if |ps| == 0 then [] else AllRows(ps[..|ps| - 1]) + ps[|ps| - 1].productMaterials
  }

  /** Visits rows in order and writes a row's stock under its material id unless the
      entry already holds a truthy (non-zero) number. */
  function SeedRows(rows: seq<MaterialRow>, s: Stock): Stock
  {
    if |rows| == 0 then s
    else
      var t := SeedRows(rows[..|rows| - 1], s);
      var row := rows[|rows| - 1];
      if Available(t, MaterialOf(row)) == 0 then t[MaterialOf(row) := StockOf(row)] else t
  }

  function SeedStock(ps: seq<ProductWithMaterials>): Stock
  {
    SeedRows(AllRows(ps), map[])
  }

  /** All copies of a material carry the same stock. */
  predicate ConsistentSnapshot(rows: seq<MaterialRow>)
  {
    forall i, j :: 0 <= i < |rows| && 0 <= j < |rows| && MaterialOf(rows[i]) == MaterialOf(rows[j]) ==>
      StockOf(rows[i]) == StockOf(rows[j])
  }

  /** With a consistent snapshot, the seeded dictionary holds each material's stock, and
      a material that no row mentions reads as 0. */
  lemma {:induction false} SeedExact(rows: seq<MaterialRow>)
    requires ConsistentSnapshot(rows)
    ensures forall k :: 0 <= k < |rows| ==> Available(SeedRows(rows, map[]), MaterialOf(rows[k])) == StockOf(rows[k])
    ensures forall m :: (forall k :: 0 <= k < |rows| ==> MaterialOf(rows[k]) != m) ==> Available(SeedRows(rows, map[]), m) == 0
  {
    if |rows| > 0 {
      var init, row := rows[..|rows| - 1], rows[|rows| - 1];
      assert ConsistentSnapshot(init);
      SeedExact(init);
      var t := SeedRows(init, map[]);
      var m := MaterialOf(row);
      if exists k :: 0 <= k < |init| && MaterialOf(init[k]) == m {
        var k :| 0 <= k < |init| && MaterialOf(init[k]) == m;
        assert StockOf(init[k]) == StockOf(row) by {
          assert init[k] == rows[k];
        }
      }
      forall k | 0 <= k < |rows|
        ensures Available(SeedRows(rows, map[]), MaterialOf(rows[k])) == StockOf(rows[k])
      {
        if k < |init| {
          assert rows[k] == init[k];
        }
      }
      forall m' | forall k :: 0 <= k < |rows| ==> MaterialOf(rows[k]) != m'
        ensures Available(SeedRows(rows, map[]), m') == 0
      {
        assert MaterialOf(rows[|rows| - 1]) != m';
        assert forall k :: 0 <= k < |init| ==> MaterialOf(init[k]) != m' by {
          forall k | 0 <= k < |init| ensures MaterialOf(init[k]) != m' {
            assert init[k] == rows[k];
          }
        }
        assert Available(t, m') == 0;
      }
    }
  }

  // ---------------------------------------------------------------------------
  // Lines without a nested material

  /** A recipe row whose nested material was missing: its id reads as undefined. */
  predicate Unlinked(row: MaterialRow)
  {
    row.rawMaterialId.None?
  }

  /** Every unlinked row also lacks a stock, as the normalizer leaves it. */
  predicate UnlinkedWithoutStock(ps: seq<ProductWithMaterials>)
  {
    forall i, j :: 0 <= i < |ps| && 0 <= j < |ps[i].productMaterials| && Unlinked(ps[i].productMaterials[j]) ==>
      ps[i].productMaterials[j].rawMaterials.stockQuantity.None?
  }

  /** The normalizer never gives an unlinked row a stock. */
  lemma NormalizeUnlinked(data: seq<RawProduct>)
    ensures UnlinkedWithoutStock(Normalize(data))
  {
    var ps := Normalize(data);
    NormalizeShape(data);
    forall i, j | 0 <= i < |ps| && 0 <= j < |ps[i].productMaterials| && Unlinked(ps[i].productMaterials[j])
      ensures ps[i].productMaterials[j].rawMaterials.stockQuantity.None?
    {
      MaterialFields(RecipeSource(data[i])[j]);
    }
  }

  /** Every row AllRows lists belongs to one of the products. */
  lemma {:induction false} AllRowsFrom(ps: seq<ProductWithMaterials>)
    ensures forall row :: row in AllRows(ps) ==> exists i :: 0 <= i < |ps| && row in ps[i].productMaterials
  {
    if |ps| > 0 {
      var init := ps[..|ps| - 1];
      AllRowsFrom(init);
      assert AllRows(ps) == AllRows(init) + ps[|ps| - 1].productMaterials;
      forall row | row in AllRows(ps) ensures exists i :: 0 <= i < |ps| && row in ps[i].productMaterials {
        if row in AllRows(init) {
          var i :| 0 <= i < |init| && row in init[i].productMaterials;
          assert init[i] == ps[i];
        } else {
          assert row in ps[|ps| - 1].productMaterials;
        }
      }
    }
  }

  /** Seeding from rows whose unlinked entries carry no stock leaves the "undefined"
      entry at 0. */
  lemma {:induction false} SeedUndefined(rows: seq<MaterialRow>, s: Stock)
    requires Available(s, UndefinedKey) == 0
    requires forall k :: 0 <= k < |rows| && Unlinked(rows[k]) ==> rows[k].rawMaterials.stockQuantity.None?
    ensures Available(SeedRows(rows, s), UndefinedKey) == 0
  {
    if |rows| > 0 {
      var init := rows[..|rows| - 1];
      assert forall k :: 0 <= k < |init| ==> init[k] == rows[k];
      SeedUndefined(init, s);
    }
  }

  /** A product with a recipe line that has no nested material is never suggested: the
      "undefined" entry reads as 0, so that line allows no unit. */
  lemma UnlinkedSkipped(ps: seq<ProductWithMaterials>)
    requires Usable(ps) && UnlinkedWithoutStock(ps)
    ensures forall b :: b in Schedule(ps) ==>
      forall j :: 0 <= j < |b.item.product.productMaterials| ==> !Unlinked(b.item.product.productMaterials[j])
  {
    var rows := AllRows(ps);
    AllRowsFrom(ps);
    forall k | 0 <= k < |rows| && Unlinked(rows[k]) ensures rows[k].rawMaterials.stockQuantity.None? {
      assert rows[k] in rows;
      var i :| 0 <= i < |ps| && rows[k] in ps[i].productMaterials;
      var j :| 0 <= j < |ps[i].productMaterials| && ps[i].productMaterials[j] == rows[k];
    }
    SeedUndefined(rows, map[]);
    UsableItems(ps);
    var items := ItemsOf(ps);
    var o := SortDesc(Filter(items, HasRecipe), PriceOf);
    PrioritizedPositive(items);
    DepletedMaterial(o, SeedStock(ps), UndefinedKey);
    AllocateFromInput(items, SeedStock(ps));
    forall b | b in Schedule(ps)
      ensures forall j :: 0 <= j < |b.item.product.productMaterials| ==> !Unlinked(b.item.product.productMaterials[j])
    {
      var pi :| 0 <= pi < |ps| && items[pi] == b.item;
      assert b.item == ItemOf(ps[pi]);
      forall j | 0 <= j < |b.item.product.productMaterials|
        ensures !Unlinked(b.item.product.productMaterials[j])
      {
        assert b.item.recipe[j].material == MaterialOf(b.item.product.productMaterials[j]);
        assert b.item.recipe[j].material in Materials(b.item.recipe);
      }
    }
  }

  // ---------------------------------------------------------------------------
  // Suggestions

  /** The material breakdown of a product at stock s: name, per-unit quantity and the
      stock available when the product was considered. */
  function UsesOf(rows: seq<MaterialRow>, s: Stock): seq<MaterialUse>
  {
    if |rows| == 0 then []
    else UsesOf(rows[..|rows| - 1], s) + [MaterialUse(rows[|rows| - 1].rawMaterials.name, RequiredOf(rows[|rows| - 1]), Available(s, MaterialOf(rows[|rows| - 1])))]
  }

  function SuggestionOf(b: Build<ProductWithMaterials>): Suggestion
  {
    Suggestion(b.item.product.id, b.item.product.name, b.item.price, b.quantity, Subtotal(b),
      UsesOf(b.item.product.productMaterials, b.before))
  }

  /** What the simulator schedules for the products it received. */
  function Schedule(ps: seq<ProductWithMaterials>): seq<Build<ProductWithMaterials>>
    requires Usable(ps)
  {
    UsableItems(ps);
    Allocate(ItemsOf(ps), SeedStock(ps))
  }

  lemma {:induction false} SeedRowsAppend(a: seq<MaterialRow>, b: seq<MaterialRow>, s: Stock)
    ensures SeedRows(a + b, s) == SeedRows(b, SeedRows(a, s))
  {
    if |b| > 0 {
      assert (a + b)[..|a + b| - 1] == a + b[..|b| - 1];
      SeedRowsAppend(a, b[..|b| - 1], s);
    } else {
      assert a + b == a;
    }
  }

  /** Lines 40-44: one product's rows, seeding entries that are still 0 or missing. */
  method SeedProduct(rows: seq<MaterialRow>, start: Stock) returns (stockTracker: Stock)
    ensures stockTracker == SeedRows(rows, start)
  {
    stockTracker := start;
    for j := 0 to |rows|
      invariant stockTracker == SeedRows(rows[..j], start)
    {
      assert rows[..j + 1][..j] == rows[..j];
      if Available(stockTracker, MaterialOf(rows[j])) == 0 {
        stockTracker := stockTracker[MaterialOf(rows[j]) := StockOf(rows[j])];
      }
    }
    assert rows[..|rows|] == rows;
  }

  /** Lines 38-45: one pass over every row of every product, seeding the dictionary. */
  method SeedTracker(ps: seq<ProductWithMaterials>) returns (stockTracker: Stock)
    ensures stockTracker == SeedStock(ps)
  {
    stockTracker := map[];
    for i := 0 to |ps|
      invariant stockTracker == SeedRows(AllRows(ps[..i]), map[])
    {
      assert ps[..i + 1][..i] == ps[..i];
      SeedRowsAppend(AllRows(ps[..i]), ps[i].productMaterials, map[]);
      stockTracker := SeedProduct(ps[i].productMaterials, stockTracker);
    }
    assert ps[..|ps|] == ps;
  }

  /** Lines 54-66: the producible count, narrowed line by line from "unbounded", and the
      material breakdown, both read from the current stock. */
  method Capacity(rows: seq<MaterialRow>, stockTracker: Stock) returns (maxQuantity: Bound, materialsInfo: seq<MaterialUse>)
    requires forall j :: 0 <= j < |rows| ==> UsableRow(rows[j])
    ensures PositiveQuantities(MapSeq(rows, LineOf))
    ensures maxQuantity == Limit(MapSeq(rows, LineOf), stockTracker)
    ensures materialsInfo == UsesOf(rows, stockTracker)
  {
    ghost var lines := MapSeq(rows, LineOf);
    maxQuantity := Unbounded;
    materialsInfo := [];
    for k := 0 to |rows|
      invariant PositiveQuantities(lines[..k])
      invariant maxQuantity == Limit(lines[..k], stockTracker)
      invariant materialsInfo == UsesOf(rows[..k], stockTracker)
    {
      var pm := rows[k];
      CapacityStep(rows, k, stockTracker);
      var available := Available(stockTracker, MaterialOf(pm));
      var canProduce := available / RequiredOf(pm);
      maxQuantity := Narrow(maxQuantity, canProduce);
      materialsInfo := materialsInfo + [MaterialUse(pm.rawMaterials.name, RequiredOf(pm), available)];
    }
    assert lines[..|rows|] == lines && rows[..|rows|] == rows;
  }

  /** One turn of the loop in Capacity: the limit and the breakdown of one more row. */
  lemma CapacityStep(rows: seq<MaterialRow>, k: int, s: Stock)
    requires forall j :: 0 <= j < |rows| ==> UsableRow(rows[j])
    requires 0 <= k < |rows|
    ensures var lines := MapSeq(rows, LineOf);
      && PositiveQuantities(lines[..k]) && PositiveQuantities(lines[..k + 1])
      && Limit(lines[..k + 1], s) == Narrow(Limit(lines[..k], s), Available(s, MaterialOf(rows[k])) / RequiredOf(rows[k]))
      && UsesOf(rows[..k + 1], s) == UsesOf(rows[..k], s) + [MaterialUse(rows[k].rawMaterials.name, RequiredOf(rows[k]), Available(s, MaterialOf(rows[k])))]
  {
    var lines := MapSeq(rows, LineOf);
    assert lines[..k + 1][..k] == lines[..k] && lines[..k + 1][k] == LineOf(rows[k]);
    assert rows[..k + 1][..k] == rows[..k];
  }

  /** Lines 69-72: subtracts quantity × units from each row's material. */
  method Subtract(rows: seq<MaterialRow>, stockTracker: Stock, units: int) returns (after: Stock)
    ensures after == Consume(MapSeq(rows, LineOf), stockTracker, units)
  {
    ghost var lines := MapSeq(rows, LineOf);
    after := stockTracker;
    for k := 0 to |rows|
      invariant after == Consume(lines[..k], stockTracker, units)
    {
      var pm := rows[k];
      assert lines[..k + 1][..k] == lines[..k] && lines[..k + 1][k] == LineOf(pm);
      after := after[MaterialOf(pm) := Available(after, MaterialOf(pm)) - RequiredOf(pm) * units];
    }
    assert lines[..|rows|] == lines;
  }

  /** Line 85: the grand total, summed from the left. */
  method SumValues(suggestions: seq<Suggestion>, ghost bs: seq<Build<ProductWithMaterials>>) returns (totalValue: int)
    requires suggestions == MapSeq(bs, SuggestionOf)
    ensures totalValue == Total(bs)
  {
    totalValue := 0;
    for k := 0 to |suggestions|
      invariant totalValue == Total(bs[..k])
    {
      assert bs[..k + 1][..k] == bs[..k];
      totalValue := totalValue + suggestions[k].totalValue;
    }
    assert bs[..|bs|] == bs;
  }

  /** The allocation body: no products yet gives no suggestions and a total of 0;
      otherwise the suggestions are the greedy schedule, in priority order, and the
      total is the sum of their values. */
  method Simulate(products: Option<seq<ProductWithMaterials>>) returns (suggestions: seq<Suggestion>, totalValue: int)
    requires products.Some? ==> Usable(products.value)
    ensures products.None? ==> suggestions == [] && totalValue == 0
    ensures products.Some? ==>
      suggestions == MapSeq(Schedule(products.value), SuggestionOf) &&
      totalValue == Total(Schedule(products.value))
  {
    if products.None? {
      return [], 0;
    }
    var ps := products.value;
    var stockTracker := SeedTracker(ps);
    ghost var seed := stockTracker;

    var sortedProducts := SortDesc(Filter(ps, HasMaterials), ValueOf);
    UsableSorted(ps);
    ghost var items := ItemsOf(sortedProducts);
    UsableItems(sortedProducts);

    suggestions := [];
    for n := 0 to |sortedProducts|
      invariant AllPositive(items[..n])
      invariant stockTracker == Run(items[..n], seed)
      invariant suggestions == MapSeq(Plan(items[..n], seed), SuggestionOf)
    {
      var product := sortedProducts[n];
      assert items[n] == ItemOf(product);
      assert UsableProduct(product);
      var maxQuantity, materialsInfo := Capacity(product.productMaterials, stockTracker);
      ghost var prefix := items[..n + 1];
      assert prefix[..n] == items[..n] && prefix[n] == items[n];
      assert AllPositive(prefix);
      PlanLast(prefix, seed);
      QuantityOfLimit(items[n].recipe, stockTracker);
      if maxQuantity.Finite? && maxQuantity.n > 0 {
        ghost var b := Build(items[n], maxQuantity.n, stockTracker);
        stockTracker := Subtract(product.productMaterials, stockTracker, maxQuantity.n);
        MapSeqSnoc(Plan(items[..n], seed), b, SuggestionOf);
        suggestions := suggestions + [Suggestion(product.id, product.name, product.value, maxQuantity.n, maxQuantity.n * product.value, materialsInfo)];
      }
    }
    assert items[..|sortedProducts|] == items;
    ItemsOfSorted(ps);
    totalValue := SumValues(suggestions, Plan(items, seed));
  }

  // ---------------------------------------------------------------------------
  // What the suggestions promise

  lemma {:induction false} UsesOfIndex(rows: seq<MaterialRow>, s: Stock)
    ensures |UsesOf(rows, s)| == |rows|
    ensures forall j :: 0 <= j < |rows| ==>
      UsesOf(rows, s)[j] == MaterialUse(rows[j].rawMaterials.name, RequiredOf(rows[j]), Available(s, MaterialOf(rows[j])))
  {
    if |rows| > 0 {
      var init := rows[..|rows| - 1];
      UsesOfIndex(init, s);
      forall j | 0 <= j < |init| ensures init[j] == rows[j] {
      }
    }
  }

  /** A suggestion whose unit count is the minimum over its lines of
      floor(available / required), each line with a positive per-unit quantity. */
  predicate MinOfFloors(s: Suggestion)
  {
    && (forall j :: 0 <= j < |s.materialsUsed| ==>
          s.materialsUsed[j].required >= 1 &&
          s.maxQuantity <= s.materialsUsed[j].available / s.materialsUsed[j].required)
    && (exists j :: 0 <= j < |s.materialsUsed| &&
          s.maxQuantity == s.materialsUsed[j].available / s.materialsUsed[j].required)
  }

  lemma SuggestionOfBuild(b: Build<ProductWithMaterials>)
    requires UsableProduct(b.item.product) && b.item == ItemOf(b.item.product)
    requires PositiveQuantities(b.item.recipe) && Limit(b.item.recipe, b.before) == Finite(b.quantity)
    ensures MinOfFloors(SuggestionOf(b))
  {
    var rows := b.item.product.productMaterials;
    var recipe := b.item.recipe;
    UsesOfIndex(rows, b.before);
    var uses := SuggestionOf(b).materialsUsed;
    forall j | 0 <= j < |uses|
      ensures uses[j].required >= 1 && b.quantity <= uses[j].available / uses[j].required
    {
      assert recipe[j] == LineOf(rows[j]);
      assert UsableRow(rows[j]);
    }
    var j :| 0 <= j < |recipe| && b.quantity == Available(b.before, recipe[j].material) / recipe[j].qty;
    assert recipe[j] == LineOf(rows[j]);
  }

  /** Every suggestion builds at least one unit, is valued at units × price, lists every
      line of a non-empty recipe, and its unit count is the minimum over those lines of
      floor(available / required), read from the stock left when the product was
      considered (a material without an entry reads as 0). */
  lemma SuggestionsSound(ps: seq<ProductWithMaterials>)
    requires Usable(ps)
    ensures var ss := MapSeq(Schedule(ps), SuggestionOf);
      forall i :: 0 <= i < |ss| ==>
        && ss[i].maxQuantity >= 1
        && ss[i].totalValue == ss[i].maxQuantity * ss[i].productValue
        && |ss[i].materialsUsed| > 0
        && MinOfFloors(ss[i])
  {
    var bs := Schedule(ps);
    var ss := MapSeq(bs, SuggestionOf);
    UsableItems(ps);
    AllocateFromInput(ItemsOf(ps), SeedStock(ps));
    forall i | 0 <= i < |ss|
      ensures ss[i].maxQuantity >= 1 && ss[i].totalValue == ss[i].maxQuantity * ss[i].productValue
      ensures |ss[i].materialsUsed| > 0 && MinOfFloors(ss[i])
    {
      var b := bs[i];
      assert b in bs;
      var pi :| 0 <= pi < |ps| && ItemsOf(ps)[pi] == b.item;
      assert b.item == ItemOf(ps[pi]) && UsableProduct(ps[pi]);
      SuggestionOfBuild(b);
      UsesOfIndex(b.item.product.productMaterials, b.before);
    }
  }

  /** Suggestions come out in non-increasing value order. */
  lemma SuggestionsOrdered(ps: seq<ProductWithMaterials>)
    requires Usable(ps)
    ensures var ss := MapSeq(Schedule(ps), SuggestionOf);
      forall i, j :: 0 <= i < j < |ss| ==> ss[i].productValue >= ss[j].productValue
  {
    UsableItems(ps);
    var bs := Schedule(ps);
    AllocateOrder(ItemsOf(ps), SeedStock(ps), 0);
    var sch := Scheduled(bs);
    forall i, j | 0 <= i < j < |bs| ensures bs[i].item.price >= bs[j].item.price {
      assert sch[i] == bs[i].item && sch[j] == bs[j].item;
    }
  }

  /** Line 229: the amount of a material shown for a suggestion. */
  function BadgeAmount(u: MaterialUse, maxQuantity: int): int
  {
    u.required * maxQuantity
  }

  lemma BadgeOfSuggestion(s: Suggestion)
    requires s.maxQuantity >= 1 && MinOfFloors(s)
    ensures forall j :: 0 <= j < |s.materialsUsed| ==>
      0 < BadgeAmount(s.materialsUsed[j], s.maxQuantity) <= s.materialsUsed[j].available
  {
    forall j | 0 <= j < |s.materialsUsed|
      ensures 0 < BadgeAmount(s.materialsUsed[j], s.maxQuantity) <= s.materialsUsed[j].available
    {
      var u := s.materialsUsed[j];
      FloorFits(u.available, u.required, s.maxQuantity);
      assert u.required * s.maxQuantity >= 1 * 1;
    }
  }

  /** The amount shown for each material is positive and never exceeds the stock shown
      beside it. */
  lemma BadgeWithinAvailable(ps: seq<ProductWithMaterials>)
    requires Usable(ps)
    ensures var ss := MapSeq(Schedule(ps), SuggestionOf);
      forall i, j :: 0 <= i < |ss| && 0 <= j < |ss[i].materialsUsed| ==>
        0 < BadgeAmount(ss[i].materialsUsed[j], ss[i].maxQuantity) <= ss[i].materialsUsed[j].available
  {
    var ss := MapSeq(Schedule(ps), SuggestionOf);
    SuggestionsSound(ps);
    forall i | 0 <= i < |ss| {
      BadgeOfSuggestion(ss[i]);
    }
  }

  /** Line 134: the number of units over all suggestions. */
  function TotalUnits(ss: seq<Suggestion>): int
  {
    if |ss| == 0 then 0 else TotalUnits(ss[..|ss| - 1]) + ss[|ss| - 1].maxQuantity
  }

  /** Every suggestion contributes at least one unit to the count. */
  lemma {:induction false} TotalUnitsAtLeastCount(ss: seq<Suggestion>)
    requires forall i :: 0 <= i < |ss| ==> ss[i].maxQuantity >= 1
    ensures TotalUnits(ss) >= |ss|
  {
    if |ss| > 0 {
      TotalUnitsAtLeastCount(ss[..|ss| - 1]);
    }
  }

  // ---------------------------------------------------------------------------
  // The message shown when there is no suggestion

  datatype EmptyState = NoProducts | NeedMaterials | InsufficientStock

  /** Lines 252-256: no products at all; products but none with a recipe; otherwise the
      stock is the reason. While the products are undefined both optional tests fail and
      the stock message is chosen. */
  function EmptyStateMessage(products: Option<seq<ProductWithMaterials>>): EmptyState
  {
    if products.Some? && |products.value| == 0 then NoProducts
    else if products.Some? && forall i :: 0 <= i < |products.value| ==> |products.value[i].productMaterials| == 0 then NeedMaterials
    else InsufficientStock
  }

  /** The first two messages are only chosen when there can be no suggestion, and the
      stock message for a loaded product list means some product has a recipe. */
  lemma EmptyStateSound(ps: seq<ProductWithMaterials>)
    requires Usable(ps)
    ensures EmptyStateMessage(Some(ps)) != InsufficientStock ==> Schedule(ps) == []
    ensures EmptyStateMessage(Some(ps)) == InsufficientStock <==> exists i :: 0 <= i < |ps| && HasMaterials(ps[i])
  {
    UsableItems(ps);
    var bs := Schedule(ps);
    AllocateFromInput(ItemsOf(ps), SeedStock(ps));
    if |bs| > 0 {
      var b := bs[0];
      assert b in bs;
      var pi :| 0 <= pi < |ps| && ItemsOf(ps)[pi] == b.item;
      assert HasMaterials(ps[pi]);
    }
  }

  // ---------------------------------------------------------------------------
  // Scenarios (values in cents)

  const Gold := MaterialRow(None, Some(2), Some(1), MaterialInfo(Some(1), Some("Ouro"), Some(10), Some(true)))
  const Expensive := ProductWithMaterials(1, "Produto Caro", "P1", 10000, [Gold])

  /** The gold row seeds the dictionary with its stock of 10. */
  lemma ScenarioGoldSeed()
    ensures SeedStock([Expensive]) == map[1 := 10]
  {
    assert [Expensive][..0] == [] && [Gold][..0] == [];
    assert AllRows([Expensive]) == [Gold];
    assert SeedRows([Gold], map[]) == map[1 := 10];
  }

  /** The product is scheduled once, for 5 units, from the seeded stock. */
  lemma ScenarioExpensiveSchedule()
    ensures Usable([Expensive])
    ensures Schedule([Expensive]) == [Build(ItemOf(Expensive), 5, map[1 := 10])]
  {
    var seed := map[1 := 10];
    ScenarioGoldSeed();
    var it := ItemOf(Expensive);
    assert it.recipe == [Line(1, 2)];
    assert ItemsOf([Expensive]) == [it];
    assert Filter([it], HasRecipe) == [it];
    assert SortDesc([it], PriceOf) == [it];
    assert [it][..0] == [];
    assert Quantity(it.recipe, seed) == 5;
    assert Plan([it], seed) == [Build(it, 5, seed)];
  }

  /** One product at 100.00 needing 2 of a material with 10 in stock: 5 units, 500.00. */
  lemma ScenarioExpensiveProduct()
    ensures Usable([Expensive])
    ensures var ss := MapSeq(Schedule([Expensive]), SuggestionOf);
            |ss| == 1 && ss[0].productName == "Produto Caro" && ss[0].maxQuantity == 5 &&
            Total(Schedule([Expensive])) == 50000
  {
    ScenarioExpensiveSchedule();
    var bs := Schedule([Expensive]);
    assert bs[..0] == [];
  }

  /** An empty product list gives no suggestion and the "no products" message. */
  lemma ScenarioNoProducts()
    ensures Schedule([]) == [] && EmptyStateMessage(Some([])) == NoProducts
    ensures EmptyStateMessage(None) == InsufficientStock
  {
    assert ItemsOf([]) == [];
  }
}
