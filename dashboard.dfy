/** The figures on the dashboard page: the number of products and of raw materials,
    the total value of all products, the low-stock alerts and the two short lists of
    at most five entries. Each is an expression over the fetched lists, which are
    absent while the first fetch has not returned. Product values are in cents. */
module Dashboard {
  import opened Optional
  import opened Sequences

  datatype ProductCard = ProductCard(id: int, name: string, value: int)

  datatype MaterialCard = MaterialCard(id: int, name: string, stockQuantity: int)

  /** A material is low on stock strictly below this many units. */
  const LowStockThreshold := 10

  /** Each of the two lists shows at most this many entries. */
  const ListedLimit := 5

  /** `?.length || 0`: the length of the list, 0 while it is absent. */
  function Count<T>(xs: Option<seq<T>>): (n: nat)
    ensures xs.None? ==> n == 0
    ensures xs.Some? ==> n == |xs.value|
  {
    match xs
    case None => 0
    case Some(s) => |s|
  }

  /** The running sum of the product values, left to right, starting from 0. */
  function SumValues(ps: seq<ProductCard>): int
  {
    if |ps| == 0 then 0 else SumValues(ps[..|ps| - 1]) + ps[|ps| - 1].value
  }

  /** The reduce over the products, or 0 while they are absent: `|| 0` turns the
      undefined of `products?.reduce` into 0 (the None branch); on present data it
      changes nothing on whole cents. */
  function TotalProductsValue(products: Option<seq<ProductCard>>): int
  {
    if products.Some? then SumValues(products.value) else 0
  }

  predicate IsLow(m: MaterialCard)
  {
    m.stockQuantity < LowStockThreshold
  }

  /** The materials strictly below the threshold, in the order they were fetched. */
  function LowStock(materials: Option<seq<MaterialCard>>): (low: seq<MaterialCard>)
    ensures forall i :: 0 <= i < |low| ==> low[i].stockQuantity < LowStockThreshold
  {
    if materials.Some? then Filter(materials.value, IsLow) else []
  }

  /** `slice(0, 5)`: the first five entries, or all of them when there are fewer. */
  function FirstFive<T>(xs: seq<T>): (r: seq<T>)
    ensures |r| <= ListedLimit
  {
    if |xs| <= ListedLimit then xs else xs[..ListedLimit]
  }

  // ---------------------------------------------------------------------------
  // Properties

  /** Exactly the materials below the threshold are listed, and in fetch order. */
  lemma LowStockExact(materials: seq<MaterialCard>)
    ensures Subseq(LowStock(Some(materials)), materials)
    ensures forall m :: m in LowStock(Some(materials)) <==> m in materials && m.stockQuantity < LowStockThreshold
  {
    var low := LowStock(Some(materials));
    FilterSubseq(materials, IsLow);
    SubseqMembers(low, materials);
    FilterComplete(materials, IsLow);
    forall m | m in low ensures m.stockQuantity < LowStockThreshold {
      var i :| 0 <= i < |low| && low[i] == m;
    }
  }

  /** The threshold is strict: ten units is not low, nine is. */
  lemma LowStockStrict(id: int, name: string)
    ensures LowStock(Some([MaterialCard(id, name, LowStockThreshold)])) == []
    ensures LowStock(Some([MaterialCard(id, name, LowStockThreshold - 1)])) == [MaterialCard(id, name, LowStockThreshold - 1)]
  {
    assert [MaterialCard(id, name, LowStockThreshold)][1..] == [];
    assert [MaterialCard(id, name, LowStockThreshold - 1)][1..] == [];
  }

  /** While nothing has been fetched every figure is zero and both lists are empty. */
  lemma AbsentData()
    ensures Count<ProductCard>(None) == 0 && Count<MaterialCard>(None) == 0
    ensures TotalProductsValue(None) == 0
    ensures LowStock(None) == [] && |LowStock(None)| == 0
  {
  }

  /** The listed entries are the first ones, in order. */
  lemma FirstFivePrefix<T>(xs: seq<T>)
    ensures |FirstFive(xs)| == if |xs| < ListedLimit then |xs| else ListedLimit
    ensures forall i :: 0 <= i < |FirstFive(xs)| ==> FirstFive(xs)[i] == xs[i]
  {
  }

  /** The total of a longer list is the total of its parts; adding a product adds its value. */
  lemma {:induction false} SumValuesAppend(a: seq<ProductCard>, b: seq<ProductCard>)
    ensures SumValues(a + b) == SumValues(a) + SumValues(b)
  {
    if |b| > 0 {
      assert (a + b)[..|a + b| - 1] == a + b[..|b| - 1];
      SumValuesAppend(a, b[..|b| - 1]);
    } else {
      assert a + b == a;
    }
  }

  /** The total is the sum of the values of every product, one by one. */
  lemma {:induction false} TotalIsSum(products: seq<ProductCard>)
    ensures TotalProductsValue(Some([])) == 0
    ensures |products| > 0 ==>
      TotalProductsValue(Some(products)) == products[0].value + TotalProductsValue(Some(products[1..]))
  {
    if |products| > 0 {
      assert products == [products[0]] + products[1..];
      SumValuesAppend([products[0]], products[1..]);
      assert [products[0]][..0] == [];
    }
  }

  /** With no negative values the total is at least the value of any one product. */
  lemma {:induction false} TotalBoundsEach(products: seq<ProductCard>, i: int)
    requires forall j :: 0 <= j < |products| ==> products[j].value >= 0
    requires 0 <= i < |products|
    ensures TotalProductsValue(Some(products)) >= products[i].value
  {
    var init := products[..|products| - 1];
    if i < |products| - 1 {
      TotalBoundsEach(init, i);
    } else {
      SumNonNegative(init);
    }
  }

  lemma {:induction false} SumNonNegative(products: seq<ProductCard>)
    requires forall j :: 0 <= j < |products| ==> products[j].value >= 0
    ensures SumValues(products) >= 0
  {
    if |products| > 0 {
      SumNonNegative(products[..|products| - 1]);
    }
  }

  // ---------------------------------------------------------------------------
  // The dashboard test

  /** Two products (100.00 and 50.50) and four materials with 100, 50, 20 and 5 units:
      the counts read 2 and 4, there is one alert, and only "Chip" is listed as low. */
  lemma ScenarioDashboard()
    ensures var products := [ProductCard(1, "Prod A", 10000), ProductCard(2, "Prod B", 5050)];
            var materials := [MaterialCard(1, "Aço", 100), MaterialCard(2, "Ferro", 50),
                              MaterialCard(3, "Plástico", 20), MaterialCard(4, "Chip", 5)];
            && Count(Some(products)) == 2
            && Count(Some(materials)) == 4
            && TotalProductsValue(Some(products)) == 15050
            && |LowStock(Some(materials))| == 1
            && MapSeq(FirstFive(LowStock(Some(materials))), (m: MaterialCard) => m.name) == ["Chip"]
  {
    var products := [ProductCard(1, "Prod A", 10000), ProductCard(2, "Prod B", 5050)];
    assert products[..1] == [ProductCard(1, "Prod A", 10000)] && products[..1][..0] == [];
    var materials := [MaterialCard(1, "Aço", 100), MaterialCard(2, "Ferro", 50),
                      MaterialCard(3, "Plástico", 20), MaterialCard(4, "Chip", 5)];
    assert materials[1..][1..][1..][1..] == [];
    assert LowStock(Some(materials)) == [MaterialCard(4, "Chip", 5)];
    assert SumValues(products) == 15050;
    assert MapSeq([MaterialCard(4, "Chip", 5)], (m: MaterialCard) => m.name)[0] == "Chip";
  }
}
