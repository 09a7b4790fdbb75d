/** The server's production planner. It orders the products by value, highest first,
    loads every material's stock into a map, and then, product by product, builds one
    unit at a time for as long as every recipe line has a material and enough stock,
    taking each line's quantity from the map for every unit built. */
module ProductionService {
  import opened Optional
  import opened Sequences
  import opened Allocation
  import opened InventoryModel

  /** One line of the result; the product's name is passed on as it is, null included. */
  datatype ProductionItem = ProductionItem(productName: Option<string>, quantity: int, unitValue: int, subtotal: int)

  datatype ProductionResult = ProductionResult(items: seq<ProductionItem>, totalValue: int)

  // ---------------------------------------------------------------------------
  // The stock map

  /** Lines 22-25: one entry per material record; a later record with the same id
      overwrites an earlier one. */
  function StockMap(materials: seq<RawMaterial>): Stock
  {
    if |materials| == 0 then map[]
    else StockMap(materials[..|materials| - 1])[materials[|materials| - 1].id := materials[|materials| - 1].stockQuantity]
  }

  /** The stock a material is planned with is that of the last record carrying its id. */
  lemma {:induction false} StockMapLast(materials: seq<RawMaterial>, i: int)
    requires 0 <= i < |materials|
    requires forall j :: i < j < |materials| ==> materials[j].id != materials[i].id
    ensures Available(StockMap(materials), materials[i].id) == materials[i].stockQuantity
  {
    var init := materials[..|materials| - 1];
    if i < |materials| - 1 {
      assert materials[|materials| - 1].id != materials[i].id;
      assert init[i] == materials[i];
      assert forall j :: i < j < |init| ==> init[j] == materials[j];
      StockMapLast(init, i);
    }
  }

  /** An id that no material record carries reads as 0. */
  lemma {:induction false} StockMapAbsent(materials: seq<RawMaterial>, m: int)
    requires forall i :: 0 <= i < |materials| ==> materials[i].id != m
    ensures Available(StockMap(materials), m) == 0
  {
    if |materials| > 0 {
      var init := materials[..|materials| - 1];
      assert forall i :: 0 <= i < |init| ==> init[i] == materials[i];
      StockMapAbsent(init, m);
    }
  }

  method LoadStock(materials: seq<RawMaterial>) returns (stockMap: Stock)
    ensures stockMap == StockMap(materials)
  {
    stockMap := map[];
    for i := 0 to |materials|
      invariant stockMap == StockMap(materials[..i])
    {
      assert materials[..i + 1][..i] == materials[..i];
      stockMap := stockMap[materials[i].id := materials[i].stockQuantity];
    }
    assert materials[..|materials|] == materials;
  }

  // ---------------------------------------------------------------------------
  // One product

  /** A recipe line as the allocator reads it; a null material stands for id 0, which
      the planner never reaches because it stops at the null first. */
  function LineOf(pm: ProductMaterial): Line
  {
    Line(if pm.rawMaterial.Some? then pm.rawMaterial.value.id else 0, pm.quantityRequired)
  }

  function LinesOf(composition: seq<ProductMaterial>): seq<Line>
  {
    MapSeq(composition, LineOf)
  }

  predicate PositiveComposition(composition: seq<ProductMaterial>)
  {
    forall i :: 0 <= i < |composition| ==> composition[i].quantityRequired >= 1
  }

  predicate HasNullMaterial(composition: seq<ProductMaterial>)
  {
    exists i :: 0 <= i < |composition| && composition[i].rawMaterial.None?
  }

  predicate LineSatisfied(pm: ProductMaterial, stockMap: Stock)
  {
    pm.rawMaterial.Some? && Available(stockMap, pm.rawMaterial.value.id) >= pm.quantityRequired
  }

  /** Lines 39-51: one more unit is possible when every line has a material and at least
      its quantity in stock (a material missing from the map counts as 0). */
  predicate UnitPossible(composition: seq<ProductMaterial>, stockMap: Stock)
  {
    forall i :: 0 <= i < |composition| ==> LineSatisfied(composition[i], stockMap)
  }

  /** The check agrees with the allocator's test for one unit, and any null material
      makes it fail. */
  lemma UnitPossibleMeans(composition: seq<ProductMaterial>, stockMap: Stock)
    ensures UnitPossible(composition, stockMap) <==>
      !HasNullMaterial(composition) && CanBuild(LinesOf(composition), stockMap)
  {
    var lines := LinesOf(composition);
    if !HasNullMaterial(composition) && CanBuild(lines, stockMap) {
      forall i | 0 <= i < |composition| ensures LineSatisfied(composition[i], stockMap) {
        assert lines[i] == LineOf(composition[i]);
      }
    }
    if UnitPossible(composition, stockMap) {
      forall i | 0 <= i < |lines| ensures Available(stockMap, lines[i].material) >= lines[i].qty {
        assert LineSatisfied(composition[i], stockMap);
      }
    }
  }

  /** The first line's stock, clamped at 0: every unit built lowers it by at least one. */
  function Reserve(composition: seq<ProductMaterial>, stockMap: Stock): nat
    requires |composition| > 0
  {
    var a := Available(stockMap, LineOf(composition[0]).material);
    if a > 0 then a else 0
  }

  lemma ReserveDrops(composition: seq<ProductMaterial>, stockMap: Stock)
    requires |composition| > 0 && PositiveComposition(composition) && UnitPossible(composition, stockMap)
    ensures Reserve(composition, Consume(LinesOf(composition), stockMap, 1)) < Reserve(composition, stockMap)
  {
    var lines := LinesOf(composition);
    assert lines[0] == LineOf(composition[0]);
    assert LineSatisfied(composition[0], stockMap);
    assert PositiveQuantities(lines);
    ConsumeAvailable(lines, stockMap, 1);
    UsedAtLeast(lines, 0);
  }

  /** Lines 35-61: builds one unit at a time while one more is possible; the result is the
      number of units and the stock map afterwards. */
  function Produce(composition: seq<ProductMaterial>, stockMap: Stock): (nat, Stock)
    requires |composition| > 0 && PositiveComposition(composition)
    decreases Reserve(composition, stockMap)
  {
    if UnitPossible(composition, stockMap) then
      ReserveDrops(composition, stockMap);
      var rest := Produce(composition, Consume(LinesOf(composition), stockMap, 1));
      (rest.0 + 1, rest.1)
    else (0, stockMap)
  }

  /** A composition with a null material builds nothing and leaves the stock alone. */
  lemma ProduceNull(composition: seq<ProductMaterial>, stockMap: Stock)
    requires |composition| > 0 && PositiveComposition(composition) && HasNullMaterial(composition)
    ensures Produce(composition, stockMap) == (0, stockMap)
  {
    UnitPossibleMeans(composition, stockMap);
  }

  lemma ProduceStep(composition: seq<ProductMaterial>, stockMap: Stock)
    requires |composition| > 0 && PositiveComposition(composition) && UnitPossible(composition, stockMap)
    ensures var rest := Produce(composition, Consume(LinesOf(composition), stockMap, 1));
            Produce(composition, stockMap) == (rest.0 + 1, rest.1)
  {
  }

  /** With distinct materials, building one unit lowers the allocator's count by one. */
  lemma QuantityStep(lines: seq<Line>, stockMap: Stock)
    requires |lines| > 0 && PositiveQuantities(lines) && DistinctMaterials(lines) && CanBuild(lines, stockMap)
    ensures Quantity(lines, stockMap) >= 1
    ensures Quantity(lines, Consume(lines, stockMap, 1)) == Quantity(lines, stockMap) - 1
  {
    var t := Consume(lines, stockMap, 1);
    ConsumeDistinct(lines, stockMap, 1);
    LimitShift(lines, stockMap, t);
    QuantityOfLimit(lines, stockMap);
    QuantityOfLimit(lines, t);
  }

  /** With distinct materials, no null material and positive quantities, the
      unit-at-a-time loop builds exactly the minimum over the lines of
      floor(stock / quantity) and takes exactly that many units' worth of stock. */
  lemma {:induction false} ProduceMatchesQuantity(composition: seq<ProductMaterial>, stockMap: Stock)
    requires |composition| > 0 && PositiveComposition(composition)
    requires !HasNullMaterial(composition) && DistinctMaterials(LinesOf(composition))
    ensures PositiveQuantities(LinesOf(composition))
    ensures var lines := LinesOf(composition);
            var k := Quantity(lines, stockMap);
            Produce(composition, stockMap) == (k, if k > 0 then Consume(lines, stockMap, k) else stockMap)
    decreases Reserve(composition, stockMap)
  {
    var lines := LinesOf(composition);
    assert PositiveQuantities(lines);
    UnitPossibleMeans(composition, stockMap);
    if UnitPossible(composition, stockMap) {
      var t := Consume(lines, stockMap, 1);
      ReserveDrops(composition, stockMap);
      ProduceMatchesQuantity(composition, t);
      ProduceStep(composition, stockMap);
      QuantityStep(lines, stockMap);
      ConsumeOneThenRest(lines, stockMap, Quantity(lines, stockMap));
    }
  }

  /** One unit and then the other k - 1 take what k units take at once. */
  lemma ConsumeOneThenRest(lines: seq<Line>, stockMap: Stock, k: int)
    requires CanBuild(lines, stockMap) && PositiveQuantities(lines) && k >= 1
    ensures (var t := Consume(lines, stockMap, 1); if k - 1 > 0 then Consume(lines, t, k - 1) else t) == Consume(lines, stockMap, k)
  {
    if k - 1 > 0 {
      ConsumeAdd(lines, stockMap, 1, k - 1);
    }
  }

  /** Lines 39-51: the check pass, leaving at the first line that fails. */
  method CheckUnit(composition: seq<ProductMaterial>, stockMap: Stock) returns (canProduce: bool)
    ensures canProduce <==> UnitPossible(composition, stockMap)
  {
    canProduce := true;
    for i := 0 to |composition|
      invariant forall j :: 0 <= j < i ==> LineSatisfied(composition[j], stockMap)
    {
      var pm := composition[i];
      if pm.rawMaterial.None? {
        canProduce := false;
        break;
      }
      var currentStock := Available(stockMap, pm.rawMaterial.value.id);
      if currentStock < pm.quantityRequired {
        canProduce := false;
        break;
      }
    }
  }

  /** Lines 56-59: takes one unit's worth of every line from the map. Every entry it
      reads is present, because the check found at least one unit of it. */
  method TakeUnit(composition: seq<ProductMaterial>, stockMap: Stock) returns (after: Stock)
    requires PositiveComposition(composition) && UnitPossible(composition, stockMap)
    ensures after == Consume(LinesOf(composition), stockMap, 1)
  {
    ghost var lines := LinesOf(composition);
    after := stockMap;
    for i := 0 to |composition|
      invariant after == Consume(lines[..i], stockMap, 1)
      invariant stockMap.Keys <= after.Keys
    {
      var pm := composition[i];
      assert LineSatisfied(pm, stockMap);
      assert lines[..i + 1][..i] == lines[..i] && lines[..i + 1][i] == LineOf(pm);
      var currentStock := after[pm.rawMaterial.value.id];
      after := after[pm.rawMaterial.value.id := currentStock - pm.quantityRequired];
    }
    assert lines[..|composition|] == lines;
  }

  /** Lines 35-61: the unit-at-a-time loop for one product. */
  method ProduceProduct(composition: seq<ProductMaterial>, stockMap: Stock) returns (quantityToProduce: nat, after: Stock)
    requires |composition| > 0 && PositiveComposition(composition)
    ensures (quantityToProduce, after) == Produce(composition, stockMap)
  {
    quantityToProduce := 0;
    after := stockMap;
    var canProduce := true;
    while canProduce
      invariant Produce(composition, stockMap) == (quantityToProduce + Produce(composition, after).0, Produce(composition, after).1)
      invariant !canProduce ==> !UnitPossible(composition, after)
      decreases if canProduce then Reserve(composition, after) + 1 else 0
    {
      canProduce := CheckUnit(composition, after);
      if canProduce {
        ReserveDrops(composition, after);
        quantityToProduce := quantityToProduce + 1;
        after := TakeUnit(composition, after);
      }
    }
  }

  // ---------------------------------------------------------------------------
  // All products

  predicate ValidRecord(p: ProductRecord)
  {
    p.composition.Some? ==> PositiveComposition(p.composition.value)
  }

  predicate ValidRecords(ps: seq<ProductRecord>)
  {
    forall i :: 0 <= i < |ps| ==> ValidRecord(ps[i])
  }

  function RecordValue(p: ProductRecord): int
  {
    p.value
  }

  /** Line 31: a product without a composition, or with an empty one, is skipped. */
  function Step(p: ProductRecord, stockMap: Stock): (nat, Stock)
    requires ValidRecord(p)
  {
    if p.composition.None? || |p.composition.value| == 0 then (0, stockMap)
    else Produce(p.composition.value, stockMap)
  }

  /** The stock map after the products, in the order given. */
  function ServiceRun(ps: seq<ProductRecord>, stockMap: Stock): Stock
    requires ValidRecords(ps)
  {
    if |ps| == 0 then stockMap
    else Step(ps[|ps| - 1], ServiceRun(ps[..|ps| - 1], stockMap)).1
  }

  /** Lines 63-67: one item per product that built at least one unit. */
  function ServiceItems(ps: seq<ProductRecord>, stockMap: Stock): seq<ProductionItem>
    requires ValidRecords(ps)
  {
    if |ps| == 0 then []
    else
      var p := ps[|ps| - 1];
      var k := Step(p, ServiceRun(ps[..|ps| - 1], stockMap)).0;
      ServiceItems(ps[..|ps| - 1], stockMap) + (if k > 0 then [ProductionItem(p.name, k, p.value, k * p.value)] else [])
  }

  function SubtotalSum(items: seq<ProductionItem>): int
  {
    if |items| == 0 then 0 else SubtotalSum(items[..|items| - 1]) + items[|items| - 1].subtotal
  }

  lemma ValidSorted(ps: seq<ProductRecord>)
    requires ValidRecords(ps)
    ensures ValidRecords(SortDesc(ps, RecordValue))
  {
    var o := SortDesc(ps, RecordValue);
    SortSorted(ps, RecordValue);
    forall i | 0 <= i < |o| ensures ValidRecord(o[i]) {
      assert o[i] in multiset(o);
      assert o[i] in ps;
    }
  }

  lemma ServiceLast(ps: seq<ProductRecord>, stockMap: Stock)
    requires ValidRecords(ps) && |ps| > 0
    ensures var p := ps[|ps| - 1];
            var step := Step(p, ServiceRun(ps[..|ps| - 1], stockMap));
            && ServiceRun(ps, stockMap) == step.1
            && ServiceItems(ps, stockMap) == ServiceItems(ps[..|ps| - 1], stockMap) +
                 (if step.0 > 0 then [ProductionItem(p.name, step.0, p.value, step.0 * p.value)] else [])
  {
  }

  /** ServiceLast for the product at position n of a list. */
  lemma ServicePrefix(ps: seq<ProductRecord>, n: int, stockMap: Stock)
    requires ValidRecords(ps) && 0 <= n < |ps|
    ensures ValidRecords(ps[..n]) && ValidRecords(ps[..n + 1]) && ValidRecord(ps[n])
    ensures var p := ps[n];
            var step := Step(p, ServiceRun(ps[..n], stockMap));
            && ServiceRun(ps[..n + 1], stockMap) == step.1
            && ServiceItems(ps[..n + 1], stockMap) == ServiceItems(ps[..n], stockMap) +
                 (if step.0 > 0 then [ProductionItem(p.name, step.0, p.value, step.0 * p.value)] else [])
  {
    var prefix := ps[..n + 1];
    assert prefix[..n] == ps[..n] && prefix[n] == ps[n];
    ServiceLast(prefix, stockMap);
  }

  /** Lines 31-61 for one product. */
  method PlanProduct(product: ProductRecord, stockMap: Stock) returns (quantityToProduce: nat, after: Stock)
    requires ValidRecord(product)
    ensures (quantityToProduce, after) == Step(product, stockMap)
  {
    if product.composition.None? || |product.composition.value| == 0 {
      return 0, stockMap;
    }
    quantityToProduce, after := ProduceProduct(product.composition.value, stockMap);
  }

  /** calculateProduction: the products (the loaded list) are sorted by value, highest
      first, keeping ties in list order; the items are those of the products that built
      at least one unit, in that order, and the total is the sum of their subtotals. */
  method CalculateProduction(products: seq<ProductRecord>, materials: seq<RawMaterial>) returns (result: ProductionResult)
    requires ValidRecords(products)
    ensures ValidRecords(SortDesc(products, RecordValue))
    ensures result.items == ServiceItems(SortDesc(products, RecordValue), StockMap(materials))
    ensures result.totalValue == SubtotalSum(result.items)
  {
    var sorted := SortDesc(products, RecordValue);
    ValidSorted(products);
    var stockMap := LoadStock(materials);
    ghost var start := stockMap;

    var suggestion: seq<ProductionItem> := [];
    var totalValue := 0;
    for n := 0 to |sorted|
      invariant stockMap == ServiceRun(sorted[..n], start)
      invariant suggestion == ServiceItems(sorted[..n], start)
      invariant totalValue == SubtotalSum(suggestion)
    {
      var product := sorted[n];
      ServicePrefix(sorted, n, start);
      var quantityToProduce;
      quantityToProduce, stockMap := PlanProduct(product, stockMap);
      if quantityToProduce > 0 {
        var subtotal := quantityToProduce * product.value;
        totalValue := totalValue + subtotal;
        ghost var before := suggestion;
        suggestion := suggestion + [ProductionItem(product.name, quantityToProduce, product.value, subtotal)];
        assert suggestion[..|suggestion| - 1] == before;
      }
    }
    assert sorted[..|sorted|] == sorted;
    result := ProductionResult(suggestion, totalValue);
  }

  // ---------------------------------------------------------------------------
  // What the items promise

  /** The records behind the items: the products that built at least one unit, in the
      order they were visited. */
  function ServiceChosen(ps: seq<ProductRecord>, stockMap: Stock): seq<ProductRecord>
    requires ValidRecords(ps)
  {
    if |ps| == 0 then []
    else
      var p := ps[|ps| - 1];
      var k := Step(p, ServiceRun(ps[..|ps| - 1], stockMap)).0;
      ServiceChosen(ps[..|ps| - 1], stockMap) + (if k > 0 then [p] else [])
  }

  /** Item i carries the name and value of the i-th chosen product, and the chosen
      products are a subsequence of the visited ones, whatever their compositions. */
  lemma {:induction false} ServiceItemsChosen(ps: seq<ProductRecord>, stockMap: Stock)
    requires ValidRecords(ps)
    ensures var items := ServiceItems(ps, stockMap);
      var chosen := ServiceChosen(ps, stockMap);
      |items| == |chosen| &&
      forall i :: 0 <= i < |items| ==> items[i].productName == chosen[i].name && items[i].unitValue == chosen[i].value
    ensures Subseq(ServiceChosen(ps, stockMap), ps)
  {
    if |ps| > 0 {
      var init, p := ps[..|ps| - 1], ps[|ps| - 1];
      assert ValidRecords(init);
      ServiceItemsChosen(init, stockMap);
      ServiceLast(ps, stockMap);
      var k := Step(p, ServiceRun(init, stockMap)).0;
      var tail := if k > 0 then [p] else [];
      SubseqRefl([p]);
      SubseqConcat(ServiceChosen(init, stockMap), init, tail, [p]);
      assert init + [p] == ps;
    }
  }

  /** Every item built at least one unit and its subtotal is units × value. */
  lemma {:induction false} ServiceItemsSound(ps: seq<ProductRecord>, stockMap: Stock)
    requires ValidRecords(ps)
    ensures var items := ServiceItems(ps, stockMap);
      forall i :: 0 <= i < |items| ==> items[i].quantity >= 1 && items[i].subtotal == items[i].quantity * items[i].unitValue
  {
    if |ps| > 0 {
      assert ValidRecords(ps[..|ps| - 1]);
      ServiceItemsSound(ps[..|ps| - 1], stockMap);
      ServiceLast(ps, stockMap);
    }
  }

  /** The total is never negative when no product has a negative value. */
  lemma {:induction false} SubtotalSumNonNegative(items: seq<ProductionItem>)
    requires forall i :: 0 <= i < |items| ==> items[i].subtotal >= 0
    ensures SubtotalSum(items) >= 0
  {
    if |items| > 0 {
      SubtotalSumNonNegative(items[..|items| - 1]);
    }
  }

  // ---------------------------------------------------------------------------
  // The planner and the allocator agree

  /** A product record as the allocator reads it: a missing composition is an empty recipe. */
  function RecordItem(p: ProductRecord): Item<ProductRecord>
  {
    Item(p, p.value, LinesOf(GetOr(p.composition, [])))
  }

  function RecordItems(ps: seq<ProductRecord>): seq<Item<ProductRecord>>
  {
    MapSeq(ps, RecordItem)
  }

  function ItemOfBuild(b: Build<ProductRecord>): ProductionItem
  {
    ProductionItem(b.item.product.name, b.quantity, b.item.price, b.quantity * b.item.price)
  }

  /** A record on which the two planners are comparable: positive quantities, no null
      material and no material twice in one recipe. */
  predicate CleanRecord(p: ProductRecord)
  {
    p.composition.Some? ==>
      PositiveComposition(p.composition.value) &&
      !HasNullMaterial(p.composition.value) &&
      DistinctMaterials(LinesOf(p.composition.value))
  }

  predicate CleanRecords(ps: seq<ProductRecord>)
  {
    forall i :: 0 <= i < |ps| ==> CleanRecord(ps[i])
  }

  lemma StepMatches(p: ProductRecord, stockMap: Stock)
    requires CleanRecord(p)
    ensures ValidRecord(p) && PositiveQuantities(RecordItem(p).recipe)
    ensures var r := RecordItem(p).recipe;
            var k := Quantity(r, stockMap);
            Step(p, stockMap) == (k, if k > 0 then Consume(r, stockMap, k) else stockMap)
  {
    if p.composition.Some? && |p.composition.value| > 0 {
      ProduceMatchesQuantity(p.composition.value, stockMap);
    }
  }

  /** Clean records are records the server accepts, and read as allocator input. */
  lemma CleanValid(ps: seq<ProductRecord>)
    requires CleanRecords(ps)
    ensures ValidRecords(ps) && AllPositive(RecordItems(ps))
  {
    var items := RecordItems(ps);
    forall i | 0 <= i < |ps| ensures ValidRecord(ps[i]) && PositiveQuantities(items[i].recipe) {
      assert CleanRecord(ps[i]);
    }
  }

  lemma {:induction false} ServiceMatchesPlan(ps: seq<ProductRecord>, stockMap: Stock)
    requires CleanRecords(ps)
    ensures ValidRecords(ps) && AllPositive(RecordItems(ps))
    ensures ServiceRun(ps, stockMap) == Run(RecordItems(ps), stockMap)
    ensures ServiceItems(ps, stockMap) == MapSeq(Plan(RecordItems(ps), stockMap), ItemOfBuild)
  {
    var items := RecordItems(ps);
    CleanValid(ps);
    if |ps| > 0 {
      var init, p := ps[..|ps| - 1], ps[|ps| - 1];
      assert CleanRecords(init);
      ServiceMatchesPlan(init, stockMap);
      assert items[..|ps| - 1] == RecordItems(init) && items[|ps| - 1] == RecordItem(p);
      var u := ServiceRun(init, stockMap);
      StepMatches(p, u);
      ServiceLast(ps, stockMap);
      PlanLast(items, stockMap);
      var k := Quantity(RecordItem(p).recipe, u);
      if k > 0 {
        MapSeqSnoc(Plan(RecordItems(init), stockMap), Build(RecordItem(p), k, u), ItemOfBuild);
      }
    }
  }

  /** With clean records, the server's plan is the shared allocator's schedule: the same
      products, in the same order, with the same unit counts. */
  lemma ServiceMatchesAllocator(ps: seq<ProductRecord>, stockMap: Stock)
    requires CleanRecords(ps)
    ensures ValidRecords(ps) && AllPositive(RecordItems(ps)) && ValidRecords(SortDesc(ps, RecordValue))
    ensures ServiceItems(SortDesc(ps, RecordValue), stockMap) == MapSeq(Allocate(RecordItems(ps), stockMap), ItemOfBuild)
  {
    var o := SortDesc(ps, RecordValue);
    SortSorted(ps, RecordValue);
    ValidSorted(ps);
    forall i | 0 <= i < |o| ensures CleanRecord(o[i]) {
      assert o[i] in multiset(o);
      assert o[i] in ps;
    }
    ServiceMatchesPlan(ps, stockMap);
    ValidSorted(ps);
    ServiceMatchesPlan(o, stockMap);
    var items := RecordItems(ps);
    SortMap(ps, RecordValue, RecordItem, PriceOf);
    assert RecordItems(o) == SortDesc(items, PriceOf);
    PlanSkipsEmpty(SortDesc(items, PriceOf), stockMap);
    SortFilter(items, PriceOf, HasRecipe);
  }

  /** Items come out in non-increasing value order, and the products behind items of
      equal value keep the order they had in the list. */
  lemma ServiceOrdered(ps: seq<ProductRecord>, stockMap: Stock, v: int)
    requires ValidRecords(ps)
    ensures ValidRecords(SortDesc(ps, RecordValue))
    ensures var items := ServiceItems(SortDesc(ps, RecordValue), stockMap);
      forall i, j :: 0 <= i < j < |items| ==> items[i].unitValue >= items[j].unitValue
    ensures Subseq(WithKey(ServiceChosen(SortDesc(ps, RecordValue), stockMap), RecordValue, v), WithKey(ps, RecordValue, v))
  {
    var o := SortDesc(ps, RecordValue);
    ValidSorted(ps);
    var chosen := ServiceChosen(o, stockMap);
    var items := ServiceItems(o, stockMap);
    ServiceItemsChosen(o, stockMap);
    SortSorted(ps, RecordValue);
    SubseqSorted(chosen, o, RecordValue);
    forall i, j | 0 <= i < j < |items| ensures items[i].unitValue >= items[j].unitValue {
      assert RecordValue(chosen[i]) >= RecordValue(chosen[j]);
    }
    SubseqWithKey(chosen, o, RecordValue, v);
    SortStable(ps, RecordValue, v);
  }

  // ---------------------------------------------------------------------------
  // The service test (values in cents)

  const Flour := RawMaterial(1, "Farinha", "", 100)
  const Egg := RawMaterial(2, "Ovo", "", 5)
  const CakeLines := [ProductMaterial(null, Some(Flour), 40), ProductMaterial(null, Some(Egg), 2)]
  const BreadLines := [ProductMaterial(null, Some(Flour), 10)]
  const Cake := ProductRecord(Some("Bolo Premium"), 5000, Some(CakeLines))
  const Bread := ProductRecord(Some("Pão Simples"), 500, Some(BreadLines))

  /** From flour 100 and egg 5 the cake takes two units; the third fails on the eggs. */
  lemma ScenarioCakeUnits()
    ensures Step(Cake, map[1 := 100, 2 := 5]) == (2, map[1 := 20, 2 := 1])
  {
    var cc := CakeLines;
    var cl := LinesOf(cc);
    assert cl == [Line(1, 40), Line(2, 2)];
    assert cl[..1] == [Line(1, 40)] && cl[..1][..0] == [];
    var s0 := map[1 := 100, 2 := 5];
    var s1 := map[1 := 60, 2 := 3];
    var s2 := map[1 := 20, 2 := 1];
    assert Consume(cl[..1], s0, 1) == map[1 := 60, 2 := 5];
    assert UnitPossible(cc, s0) && Consume(cl, s0, 1) == s1;
    assert Consume(cl[..1], s1, 1) == map[1 := 20, 2 := 3];
    assert UnitPossible(cc, s1) && Consume(cl, s1, 1) == s2;
    assert !LineSatisfied(cc[1], s2);
    ProduceStep(cc, s0);
    ProduceStep(cc, s1);
    assert Produce(cc, s2) == (0, s2);
  }

  /** The 20 flour the cake leaves give two loaves of bread. */
  lemma ScenarioBreadUnits()
    ensures Step(Bread, map[1 := 20, 2 := 1]) == (2, map[1 := 0, 2 := 1])
  {
    var bc := BreadLines;
    var bl := LinesOf(bc);
    assert bl == [Line(1, 10)] && bl[..0] == [];
    var s2 := map[1 := 20, 2 := 1];
    var s3 := map[1 := 10, 2 := 1];
    var s4 := map[1 := 0, 2 := 1];
    assert UnitPossible(bc, s2) && Consume(bl, s2, 1) == s3;
    assert UnitPossible(bc, s3) && Consume(bl, s3, 1) == s4;
    assert !LineSatisfied(bc[0], s4);
    ProduceStep(bc, s2);
    ProduceStep(bc, s3);
    assert Produce(bc, s4) == (0, s4);
  }

  /** The two material records load as flour 100 and egg 5. */
  lemma ScenarioStock()
    ensures StockMap([Flour, Egg]) == map[1 := 100, 2 := 5]
  {
    assert [Flour, Egg][..1] == [Flour] && [Flour][..0] == [];
    assert StockMap([Flour]) == map[1 := 100];
  }

  /** Listed either way round, the products are visited cake first. */
  lemma ScenarioOrder()
    ensures SortDesc([Bread, Cake], RecordValue) == [Cake, Bread]
    ensures SortDesc([Cake, Bread], RecordValue) == [Cake, Bread]
  {
    assert [Bread, Cake][..1] == [Bread] && [Bread][..0] == [];
    assert SortDesc([Bread], RecordValue) == [Bread];
    assert [Cake, Bread][..1] == [Cake] && [Cake][..0] == [];
    assert SortDesc([Cake], RecordValue) == [Cake];
  }

  /** Flour 100 and egg 5; the cake (50.00) needs 40 flour and 2 eggs, the bread (5.00)
      needs 10 flour. Listed in either order, the cake is planned first and gets 2 units
      (the eggs run out), and the bread gets 2 units from the 20 flour left. */
  lemma ScenarioCakeAndBread()
    ensures ValidRecords(SortDesc([Bread, Cake], RecordValue)) && ValidRecords(SortDesc([Cake, Bread], RecordValue))
    ensures ServiceItems(SortDesc([Bread, Cake], RecordValue), StockMap([Flour, Egg])) ==
              [ProductionItem(Some("Bolo Premium"), 2, 5000, 10000), ProductionItem(Some("Pão Simples"), 2, 500, 1000)]
    ensures ServiceItems(SortDesc([Cake, Bread], RecordValue), StockMap([Flour, Egg])) ==
              [ProductionItem(Some("Bolo Premium"), 2, 5000, 10000), ProductionItem(Some("Pão Simples"), 2, 500, 1000)]
  {
    var s0 := map[1 := 100, 2 := 5];
    ScenarioStock();
    ScenarioOrder();
    var sorted := [Cake, Bread];
    ScenarioCakeUnits();
    ScenarioBreadUnits();
    assert sorted[..1] == [Cake] && [Cake][..0] == [];
    assert ValidRecords(sorted);
    ServiceLast([Cake], s0);
    assert ServiceItems([Cake], s0) == [ProductionItem(Some("Bolo Premium"), 2, 5000, 10000)];
    ServiceLast(sorted, s0);
  }
}
