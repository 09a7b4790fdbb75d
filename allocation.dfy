/** The greedy production allocator that both the web simulator and the server
    planner implement, stated over one abstract input: products, each with an
    integer price (in cents) and a recipe of (material, quantity per unit) lines,
    and a stock level per material. Products are taken in priority order; each
    one is built as many times as the stock it sees allows, and the stock it
    uses is gone for every later product. */
module Allocation {
  import opened Sequences

  type MaterialId = int

  /** Working stock: material id to remaining units. A missing id reads as 0. */
  type Stock = map<MaterialId, int>

  /** One recipe line: `qty` units of `material` per unit of product. */
  datatype Line = Line(material: MaterialId, qty: int)

  /** A product as the allocator sees it; `product` carries the caller's own record. */
  datatype Item<P> = Item(product: P, price: int, recipe: seq<Line>)

  /** A scheduled product: how many units, and the stock it saw when it was considered. */
  datatype Build<P> = Build(item: Item<P>, quantity: nat, before: Stock)

  /** A limit on the number of units; `Unbounded` plays the part of JavaScript's Infinity. */
  datatype Bound = Unbounded | Finite(n: int)

  function Available(s: Stock, m: MaterialId): int
  {
    if m in s then s[m] else 0
  }

  predicate PositiveQuantities(r: seq<Line>)
  {
    forall i :: 0 <= i < |r| ==> r[i].qty >= 1
  }

  predicate DistinctMaterials(r: seq<Line>)
  {
    forall i, j :: 0 <= i < j < |r| ==> r[i].material != r[j].material
  }

  predicate AllPositive<P>(items: seq<Item<P>>)
  {
    forall i :: 0 <= i < |items| ==> PositiveQuantities(items[i].recipe)
  }

  predicate AllDistinct<P>(items: seq<Item<P>>)
  {
    forall i :: 0 <= i < |items| ==> DistinctMaterials(items[i].recipe)
  }

  predicate NonNegative(s: Stock)
  {
    forall m :: m in s ==> s[m] >= 0
  }

  function Materials(r: seq<Line>): set<MaterialId>
  {
    set i | 0 <= i < |r| :: r[i].material
  }

  /** Every line of the recipe has at least one unit's worth of its material. */
  predicate CanBuild(r: seq<Line>, s: Stock)
  {
    forall i :: 0 <= i < |r| ==> Available(s, r[i].material) >= r[i].qty
  }

  // ---------------------------------------------------------------------------
  // One product

  function Narrow(b: Bound, n: int): (r: Bound)
  {
    match b
    case Unbounded => Finite(n)
    case Finite(x) => Finite(if n < x then n else x)
  }

  /** The minimum over the lines of floor(available / quantity), starting from
      "unbounded". For a positive divisor, Dafny's `/` is floor division. */
  function Limit(r: seq<Line>, s: Stock): (b: Bound)
    requires PositiveQuantities(r)
    ensures b.Unbounded? <==> |r| == 0
    ensures b.Finite? ==> forall i :: 0 <= i < |r| ==> b.n <= Available(s, r[i].material) / r[i].qty
    ensures b.Finite? ==> exists i :: 0 <= i < |r| && b.n == Available(s, r[i].material) / r[i].qty
  {
    if |r| == 0 then Unbounded
    else
      var b := Limit(r[..|r| - 1], s);
      var last := r[|r| - 1];
      var n := Available(s, last.material) / last.qty;
      assert forall i :: 0 <= i < |r| - 1 ==> r[..|r| - 1][i] == r[i];
      Narrow(b, n)
  }

  lemma DivAtLeastOne(a: int, q: int)
    requires q >= 1
    ensures a / q >= 1 <==> a >= q
  {
    var d, m := a / q, a % q;
    assert a == q * d + m && 0 <= m < q;
    if d >= 1 {
      assert q * d >= q * 1;
    } else {
      assert q * d <= 0;
    }
  }

  /** Taking u >= q units for each of the floor(a / q) units built leaves less than q. */
  lemma FloorLeavesLess(a: int, q: int, u: int, k: int)
    requires q >= 1 && u >= q && k == a / q && k >= 0
    ensures a - u * k < q
  {
    assert a == q * k + a % q;
    assert (u - q) * k >= 0;
    assert u * k == q * k + (u - q) * k;
  }

  /** Taking q units for each of at most floor(a / q) units built leaves at least 0. */
  lemma FloorFits(a: int, q: int, k: int)
    requires q >= 1 && 0 <= k <= a / q
    ensures a - q * k >= 0
  {
    assert a == q * (a / q) + a % q;
    assert q * (a / q - k) >= 0;
    assert q * (a / q) == q * k + q * (a / q - k);
  }

  lemma LimitPositive(r: seq<Line>, s: Stock)
    requires PositiveQuantities(r) && |r| > 0
    ensures Limit(r, s).n >= 1 <==> CanBuild(r, s)
  {
    var b := Limit(r, s);
    forall i | 0 <= i < |r| {
      DivAtLeastOne(Available(s, r[i].material), r[i].qty);
    }
    if b.n >= 1 {
      assert CanBuild(r, s);
    } else {
      var i :| 0 <= i < |r| && b.n == Available(s, r[i].material) / r[i].qty;
      assert Available(s, r[i].material) < r[i].qty;
    }
  }

  /** How many units of a product the allocator schedules at stock s: the limit when
      it is finite and positive, 0 otherwise (the product is skipped, not listed with 0). */
  function Quantity(r: seq<Line>, s: Stock): (k: nat)
    requires PositiveQuantities(r)
    ensures k > 0 <==> |r| > 0 && CanBuild(r, s)
    ensures k > 0 ==> Limit(r, s) == Finite(k)
  {
    if |r| > 0 then LimitPositive(r, s); (if Limit(r, s).n > 0 then Limit(r, s).n else 0)
    else 0
  }

  /** The scheduled count is the limit when that is finite and positive, else 0. */
  lemma QuantityOfLimit(r: seq<Line>, s: Stock)
    requires PositiveQuantities(r)
    ensures Quantity(r, s) == (if Limit(r, s).Finite? && Limit(r, s).n > 0 then Limit(r, s).n else 0)
  {
  }

  /** Total quantity per unit of product that the recipe takes from material m. */
  function Used(r: seq<Line>, m: MaterialId): int
  {
    if |r| == 0 then 0
    else Used(r[..|r| - 1], m) + (if r[|r| - 1].material == m then r[|r| - 1].qty else 0)
  }

  /** Subtracts quantity × k from each line's material, one line after the other. */
  function Consume(r: seq<Line>, s: Stock, k: int): Stock
  {
    if |r| == 0 then s
    else
      var u := Consume(r[..|r| - 1], s, k);
      u[r[|r| - 1].material := Available(u, r[|r| - 1].material) - r[|r| - 1].qty * k]
  }

  /** Building k units takes quantity per unit × k from every material, whatever the
      order of the lines, and nothing from a material the recipe does not use. */
  lemma {:induction false} ConsumeAvailable(r: seq<Line>, s: Stock, k: int)
    ensures forall m :: Available(Consume(r, s, k), m) == Available(s, m) - Used(r, m) * k
  {
    if |r| > 0 {
      var init, last := r[..|r| - 1], r[|r| - 1];
      ConsumeAvailable(init, s, k);
      forall m ensures Available(Consume(r, s, k), m) == Available(s, m) - Used(r, m) * k {
        MulAdd(Used(init, m), if last.material == m then last.qty else 0, k);
      }
    }
  }

  lemma {:induction false} ConsumeKeys(r: seq<Line>, s: Stock, k: int)
    ensures Consume(r, s, k).Keys == s.Keys + Materials(r)
  {
    if |r| > 0 {
      var init := r[..|r| - 1];
      ConsumeKeys(init, s, k);
      assert Materials(r) == Materials(init) + {r[|r| - 1].material} by {
        assert forall i :: 0 <= i < |init| ==> init[i] == r[i];
      }
    }
  }

  lemma MapsAgree(x: Stock, y: Stock)
    requires x.Keys == y.Keys
    requires forall m :: Available(x, m) == Available(y, m)
    ensures x == y
  {
    forall m | m in x ensures x[m] == y[m] {
      assert Available(x, m) == Available(y, m);
    }
  }

  /** Two rounds of building from a stock that covers one unit of every line take the
      same stock as one round of the combined count. */
  lemma ConsumeAdd(r: seq<Line>, s: Stock, a: int, b: int)
    requires CanBuild(r, s) && PositiveQuantities(r)
    ensures Consume(r, Consume(r, s, a), b) == Consume(r, s, a + b)
  {
    var t := Consume(r, s, a);
    ConsumeKeys(r, s, a);
    ConsumeKeys(r, t, b);
    ConsumeKeys(r, s, a + b);
    assert Materials(r) <= s.Keys by {
      forall m | m in Materials(r) ensures m in s {
        var i :| 0 <= i < |r| && r[i].material == m;
      }
    }
    ConsumeAvailable(r, s, a);
    ConsumeAvailable(r, t, b);
    ConsumeAvailable(r, s, a + b);
    forall m ensures Available(Consume(r, t, b), m) == Available(Consume(r, s, a + b), m) {
      MulAdd(a, b, Used(r, m));
    }
    MapsAgree(Consume(r, t, b), Consume(r, s, a + b));
  }

  lemma MulAtLeast(q: int, x: int)
    requires q >= 1
    ensures x >= 1 ==> q * x >= q
  {
    if x >= 1 {
      assert q * x == q + q * (x - 1);
    }
  }

  lemma DivUnique(a: int, q: int, d: int, m: int)
    requires q >= 1 && a == q * d + m && 0 <= m < q
    ensures a / q == d
  {
    var d', m' := a / q, a % q;
    assert a == q * d' + m' && 0 <= m' < q;
    assert q * (d - d') == m' - m;
    assert q * (d' - d) == m - m';
    MulAtLeast(q, d - d');
    MulAtLeast(q, d' - d);
  }

  lemma DivMinusOne(a: int, q: int)
    requires q >= 1
    ensures (a - q) / q == a / q - 1
  {
    var d, m := a / q, a % q;
    assert a == q * d + m && 0 <= m < q;
    assert a - q == q * (d - 1) + m;
    DivUnique(a - q, q, d - 1, m);
  }

  /** When every line's stock drops by exactly one unit's worth, the limit drops by one. */
  lemma {:induction false} LimitShift(r: seq<Line>, s: Stock, t: Stock)
    requires PositiveQuantities(r) && |r| > 0
    requires forall i :: 0 <= i < |r| ==> Available(t, r[i].material) == Available(s, r[i].material) - r[i].qty
    ensures Limit(r, t) == Finite(Limit(r, s).n - 1)
  {
    var init, last := r[..|r| - 1], r[|r| - 1];
    DivMinusOne(Available(s, last.material), last.qty);
    if |init| > 0 {
      assert forall i :: 0 <= i < |init| ==> init[i] == r[i];
      LimitShift(init, s, t);
    }
  }

  lemma MulAdd(a: int, b: int, k: int)
    ensures (a + b) * k == a * k + b * k
    ensures k * (a + b) == k * a + k * b
  {
  }

  lemma {:induction false} UsedNonNegative(r: seq<Line>, m: MaterialId)
    requires PositiveQuantities(r)
    ensures Used(r, m) >= 0
  {
    if |r| > 0 {
      UsedNonNegative(r[..|r| - 1], m);
    }
  }

  lemma {:induction false} UsedAtLeast(r: seq<Line>, i: int)
    requires PositiveQuantities(r) && 0 <= i < |r|
    ensures Used(r, r[i].material) >= r[i].qty
  {
    var init := r[..|r| - 1];
    if i < |r| - 1 {
      UsedAtLeast(init, i);
    } else {
      UsedNonNegative(init, r[i].material);
    }
  }

  lemma {:induction false} UsedDistinct(r: seq<Line>, i: int)
    requires DistinctMaterials(r) && 0 <= i < |r|
    ensures Used(r, r[i].material) == r[i].qty
  {
    var init := r[..|r| - 1];
    if i < |r| - 1 {
      UsedDistinct(init, i);
    } else {
      UsedAbsent(init, r[i].material);
    }
  }

  lemma {:induction false} UsedAbsent(r: seq<Line>, m: MaterialId)
    requires m !in Materials(r)
    ensures Used(r, m) == 0
  {
    if |r| > 0 {
      var init := r[..|r| - 1];
      assert Materials(init) <= Materials(r) by {
        assert forall i :: 0 <= i < |init| ==> init[i] == r[i];
      }
      UsedAbsent(init, m);
    }
  }

  /** Maximality: right after a product is scheduled, at least one of its lines has
      less stock left than one unit needs. */
  lemma Maximal(r: seq<Line>, s: Stock)
    requires PositiveQuantities(r) && Quantity(r, s) > 0
    ensures !CanBuild(r, Consume(r, s, Quantity(r, s)))
  {
    var k := Quantity(r, s);
    var i :| 0 <= i < |r| && k == Available(s, r[i].material) / r[i].qty;
    ConsumeAvailable(r, s, k);
    UsedAtLeast(r, i);
    FloorLeavesLess(Available(s, r[i].material), r[i].qty, Used(r, r[i].material), k);
  }

  /** With distinct materials per recipe, building k units takes exactly quantity × k
      from each line's material and leaves every other entry alone. */
  lemma ConsumeDistinct(r: seq<Line>, s: Stock, k: int)
    requires DistinctMaterials(r)
    ensures forall i :: 0 <= i < |r| ==> Available(Consume(r, s, k), r[i].material) == Available(s, r[i].material) - r[i].qty * k
    ensures forall m :: m !in Materials(r) ==> Available(Consume(r, s, k), m) == Available(s, m)
  {
    ConsumeAvailable(r, s, k);
    forall i | 0 <= i < |r| {
      UsedDistinct(r, i);
    }
    forall m | m !in Materials(r) {
      UsedAbsent(r, m);
    }
  }

  /** With distinct materials, positive quantities and non-negative stock, building
      the scheduled number of units leaves every entry non-negative. */
  lemma StepNonNegative(r: seq<Line>, s: Stock)
    requires PositiveQuantities(r) && DistinctMaterials(r) && NonNegative(s)
    ensures NonNegative(Consume(r, s, Quantity(r, s)))
  {
    var k := Quantity(r, s);
    var t := Consume(r, s, k);
    ConsumeDistinct(r, s, k);
    forall m | m in t ensures t[m] >= 0 {
      assert t[m] == Available(t, m);
      if m in Materials(r) {
        var i :| 0 <= i < |r| && r[i].material == m;
        if k > 0 {
          FloorFits(Available(s, m), r[i].qty, k);
        }
      }
    }
  }

  // ---------------------------------------------------------------------------
  // A sequence of products, in the order given

  /** The stock left after the greedy pass over items. */
  function Run<P>(items: seq<Item<P>>, s: Stock): Stock
    requires AllPositive(items)
  {
    if |items| == 0 then s
    else
      var u := Run(items[..|items| - 1], s);
      var r := items[|items| - 1].recipe;
      var k := Quantity(r, u);
      if k > 0 then Consume(r, u, k) else u
  }

  /** The builds the greedy pass schedules over items, in the order they are considered. */
  function Plan<P>(items: seq<Item<P>>, s: Stock): (bs: seq<Build<P>>)
    requires AllPositive(items)
    ensures forall i :: 0 <= i < |bs| ==>
      PositiveQuantities(bs[i].item.recipe) && bs[i].quantity >= 1 &&
      Limit(bs[i].item.recipe, bs[i].before) == Finite(bs[i].quantity)
  {
    if |items| == 0 then []
    else
      var u := Run(items[..|items| - 1], s);
      var it := items[|items| - 1];
      var k := Quantity(it.recipe, u);
      Plan(items[..|items| - 1], s) + (if k > 0 then [Build(it, k, u)] else [])
  }

  function BuildItem<P>(b: Build<P>): Item<P>
  {
    b.item
  }

  function Scheduled<P>(bs: seq<Build<P>>): seq<Item<P>>
  {
    MapSeq(bs, BuildItem)
  }

  /** The units times quantity per unit taken from material m by all builds. */
  function Consumed<P>(bs: seq<Build<P>>, m: MaterialId): int
  {
    if |bs| == 0 then 0
    else Consumed(bs[..|bs| - 1], m) + Used(bs[|bs| - 1].item.recipe, m) * bs[|bs| - 1].quantity
  }

  lemma PlanLast<P>(items: seq<Item<P>>, s: Stock)
    requires AllPositive(items) && |items| > 0
    ensures var u := Run(items[..|items| - 1], s);
            var it := items[|items| - 1];
            var k := Quantity(it.recipe, u);
            && Plan(items, s) == Plan(items[..|items| - 1], s) + (if k > 0 then [Build(it, k, u)] else [])
            && Run(items, s) == (if k > 0 then Consume(it.recipe, u, k) else u)
  {
  }

  /** The products scheduled after visiting one more product. */
  lemma ScheduledLast<P>(items: seq<Item<P>>, s: Stock)
    requires AllPositive(items) && |items| > 0
    ensures var it := items[|items| - 1];
            Scheduled(Plan(items, s)) == Scheduled(Plan(items[..|items| - 1], s)) +
              (if Quantity(it.recipe, Run(items[..|items| - 1], s)) > 0 then [it] else [])
  {
    var init, it := items[..|items| - 1], items[|items| - 1];
    PlanLast(items, s);
    var u := Run(init, s);
    var k := Quantity(it.recipe, u);
    var tail: seq<Build<P>> := if k > 0 then [Build(it, k, u)] else [];
    ScheduledAppend(Plan(init, s), tail);
  }

  /** The scheduled products are a subsequence of the products considered. */
  lemma {:induction false} PlanSubseq<P>(items: seq<Item<P>>, s: Stock)
    requires AllPositive(items)
    ensures Subseq(Scheduled(Plan(items, s)), items)
  {
    if |items| > 0 {
      var init, it := items[..|items| - 1], items[|items| - 1];
      PlanSubseq(init, s);
      ScheduledLast(items, s);
      var tail := if Quantity(it.recipe, Run(init, s)) > 0 then [it] else [];
      SubseqRefl([it]);
      SubseqConcat(Scheduled(Plan(init, s)), init, tail, [it]);
      assert init + [it] == items;
    }
  }

  lemma ScheduledAppend<P>(a: seq<Build<P>>, b: seq<Build<P>>)
    ensures Scheduled(a + b) == Scheduled(a) + Scheduled(b)
  {
  }

  /** Stock conservation: for every material, the stock at the end is the stock at the
      start minus quantity × units over all scheduled products. */
  lemma {:induction false} Conservation<P>(items: seq<Item<P>>, s: Stock, m: MaterialId)
    requires AllPositive(items)
    ensures Available(Run(items, s), m) == Available(s, m) - Consumed(Plan(items, s), m)
  {
    if |items| > 0 {
      var init := items[..|items| - 1];
      Conservation(init, s, m);
      PlanLast(items, s);
      var u := Run(init, s);
      ConsumeAvailable(items[|items| - 1].recipe, u, Quantity(items[|items| - 1].recipe, u));
      var bs := Plan(items, s);
      var head := Plan(init, s);
      if |bs| > |head| {
        assert bs[..|bs| - 1] == head;
      } else {
        assert bs == head;
      }
    }
  }

  /** Visiting one more product moves each material's stock by its use in that product's
      recipe times the units built: a skipped product (0 units) and the materials its
      recipe does not name are left as they were. */
  lemma RunStep<P>(items: seq<Item<P>>, s: Stock)
    requires AllPositive(items) && |items| > 0
    ensures var u := Run(items[..|items| - 1], s);
            var r := items[|items| - 1].recipe;
            var k := Quantity(r, u);
            && (forall m :: Available(Run(items, s), m) == Available(u, m) - Used(r, m) * k)
            && (forall m :: m !in Materials(r) ==> Available(Run(items, s), m) == Available(u, m))
  {
    var u := Run(items[..|items| - 1], s);
    var r := items[|items| - 1].recipe;
    var k := Quantity(r, u);
    PlanLast(items, s);
    ConsumeAvailable(r, u, k);
    forall m | m !in Materials(r) ensures Available(Run(items, s), m) == Available(u, m) {
      UsedAbsent(r, m);
    }
  }

  /** A material whose stock is not positive blocks every recipe that names it: no
      scheduled product uses it, and its stock never changes. */
  lemma {:induction false} DepletedMaterial<P>(items: seq<Item<P>>, s: Stock, m: MaterialId)
    requires AllPositive(items) && Available(s, m) <= 0
    ensures Available(Run(items, s), m) == Available(s, m)
    ensures forall b :: b in Plan(items, s) ==> m !in Materials(b.item.recipe)
  {
    if |items| > 0 {
      var init, it := items[..|items| - 1], items[|items| - 1];
      assert AllPositive(init);
      DepletedMaterial(init, s, m);
      PlanLast(items, s);
      var u := Run(init, s);
      assert PositiveQuantities(it.recipe);
      RunStep(items, s);
    }
  }

  /** With distinct materials per recipe and positive quantities, stock that starts
      non-negative stays non-negative through the whole pass. */
  lemma {:induction false} RunNonNegative<P>(items: seq<Item<P>>, s: Stock)
    requires AllPositive(items) && AllDistinct(items) && NonNegative(s)
    ensures NonNegative(Run(items, s))
  {
    if |items| > 0 {
      var init, it := items[..|items| - 1], items[|items| - 1];
      assert AllDistinct(init);
      RunNonNegative(init, s);
      var u := Run(init, s);
      if Quantity(it.recipe, u) > 0 {
        StepNonNegative(it.recipe, u);
      }
    }
  }

  /** No material is ever asked for more than its starting stock. */
  lemma StockSuffices<P>(items: seq<Item<P>>, s: Stock, m: MaterialId)
    requires AllPositive(items) && AllDistinct(items) && NonNegative(s)
    ensures Consumed(Plan(items, s), m) <= Available(s, m)
  {
    Conservation(items, s, m);
    RunNonNegative(items, s);
  }

  /** Every scheduled product could not be built one more time right after it was scheduled. */
  lemma PlanMaximal<P>(items: seq<Item<P>>, s: Stock)
    requires AllPositive(items)
    ensures forall b :: b in Plan(items, s) ==> !CanBuild(b.item.recipe, Consume(b.item.recipe, b.before, b.quantity))
  {
    var bs := Plan(items, s);
    forall b | b in bs ensures !CanBuild(b.item.recipe, Consume(b.item.recipe, b.before, b.quantity)) {
      var i :| 0 <= i < |bs| && bs[i] == b;
      assert Quantity(b.item.recipe, b.before) == b.quantity;
      Maximal(b.item.recipe, b.before);
    }
  }

  /** A product with an empty recipe contributes nothing, wherever it stands. */
  lemma {:induction false} PlanSkipsEmpty<P>(items: seq<Item<P>>, s: Stock)
    requires AllPositive(items)
    ensures AllPositive(Filter(items, HasRecipe))
    ensures Plan(Filter(items, HasRecipe), s) == Plan(items, s)
    ensures Run(Filter(items, HasRecipe), s) == Run(items, s)
  {
    FilterPositive(items, HasRecipe);
    if |items| > 0 {
      var init, it := items[..|items| - 1], items[|items| - 1];
      assert AllPositive(init);
      PlanSkipsEmpty(init, s);
      FilterLast(items, HasRecipe);
      var fi := Filter(init, HasRecipe);
      PlanLast(items, s);
      if HasRecipe(it) {
        var fs := fi + [it];
        assert Filter(items, HasRecipe) == fs;
        assert fs[..|fs| - 1] == fi;
        PlanLast(fs, s);
      } else {
        assert Filter(items, HasRecipe) == fi;
        assert Quantity(it.recipe, Run(init, s)) == 0;
      }
    }
  }

  lemma FilterPositive<P>(items: seq<Item<P>>, keep: Item<P> -> bool)
    requires AllPositive(items)
    ensures AllPositive(Filter(items, keep))
  {
    var f := Filter(items, keep);
    FilterMultiset(items, keep);
    forall i | 0 <= i < |f| ensures PositiveQuantities(f[i].recipe) {
      assert f[i] in multiset(f);
      assert f[i] in items;
    }
  }

  // ---------------------------------------------------------------------------
  // Priority order

  function PriceOf<P>(it: Item<P>): int
  {
    it.price
  }

  predicate HasRecipe<P>(it: Item<P>)
  {
    |it.recipe| > 0
  }

  lemma PrioritizedPositive<P>(items: seq<Item<P>>)
    requires AllPositive(items)
    ensures AllPositive(SortDesc(Filter(items, HasRecipe), PriceOf))
  {
    var f := Filter(items, HasRecipe);
    FilterPositive(items, HasRecipe);
    var o := SortDesc(f, PriceOf);
    SortSorted(f, PriceOf);
    forall i | 0 <= i < |o| ensures PositiveQuantities(o[i].recipe) {
      assert o[i] in multiset(o);
      assert o[i] in f;
    }
  }

  /** The allocation: drop products without a recipe, order the rest by price,
      highest first (ties keep their input order), then run the greedy pass. */
  function Allocate<P>(items: seq<Item<P>>, s: Stock): seq<Build<P>>
    requires AllPositive(items)
  {
    PrioritizedPositive(items);
    Plan(SortDesc(Filter(items, HasRecipe), PriceOf), s)
  }

  /** Scheduled products come out in non-increasing price order, and products of equal
      price keep the order they had in the input. */
  lemma AllocateOrder<P>(items: seq<Item<P>>, s: Stock, v: int)
    requires AllPositive(items)
    ensures SortedDesc(Scheduled(Allocate(items, s)), PriceOf)
    ensures Subseq(WithKey(Scheduled(Allocate(items, s)), PriceOf, v), WithKey(items, PriceOf, v))
  {
    var f := Filter(items, HasRecipe);
    var o := SortDesc(f, PriceOf);
    PrioritizedPositive(items);
    var sch := Scheduled(Plan(o, s));
    PlanSubseq(o, s);
    SortSorted(f, PriceOf);
    SubseqSorted(sch, o, PriceOf);
    SubseqWithKey(sch, o, PriceOf, v);
    SortStable(f, PriceOf, v);
    FilterSubseq(items, HasRecipe);
    SubseqWithKey(f, items, PriceOf, v);
    SubseqTrans(WithKey(sch, PriceOf, v), WithKey(f, PriceOf, v), WithKey(items, PriceOf, v));
  }

  /** The products the greedy pass sees are input products with a non-empty recipe. */
  lemma PrioritizedFromInput<P>(items: seq<Item<P>>)
    ensures forall x :: x in SortDesc(Filter(items, HasRecipe), PriceOf) ==> x in items && HasRecipe(x)
  {
    var f := Filter(items, HasRecipe);
    var o := SortDesc(f, PriceOf);
    SortSorted(f, PriceOf);
    FilterMultiset(items, HasRecipe);
    forall x | x in o ensures x in items && HasRecipe(x) {
      assert x in multiset(o);
      assert x in multiset(f);
      var i :| 0 <= i < |f| && f[i] == x;
    }
  }

  /** Every scheduled product is an input product with a non-empty recipe. */
  lemma AllocateFromInput<P>(items: seq<Item<P>>, s: Stock)
    requires AllPositive(items)
    ensures forall b :: b in Allocate(items, s) ==> b.item in items && |b.item.recipe| > 0 && b.quantity >= 1
  {
    var o := SortDesc(Filter(items, HasRecipe), PriceOf);
    PrioritizedPositive(items);
    var bs := Plan(o, s);
    PlanSubseq(o, s);
    SubseqMembers(Scheduled(bs), o);
    PrioritizedFromInput(items);
    forall b | b in bs ensures b.item in items && |b.item.recipe| > 0 && b.quantity >= 1 {
      var i :| 0 <= i < |bs| && bs[i] == b;
      assert Scheduled(bs)[i] == b.item;
      assert b.item in o;
    }
  }

  // ---------------------------------------------------------------------------
  // Value

  /** Price times units, in cents. */
  function Subtotal<P>(b: Build<P>): int
  {
    b.item.price * b.quantity
  }

  /** The sum of the subtotals, accumulated from the left. */
  function Total<P>(bs: seq<Build<P>>): int
  {
    if |bs| == 0 then 0 else Total(bs[..|bs| - 1]) + Subtotal(bs[|bs| - 1])
  }

  lemma {:induction false} TotalNonNegative<P>(bs: seq<Build<P>>)
    requires forall i :: 0 <= i < |bs| ==> bs[i].item.price >= 0
    ensures Total(bs) >= 0
  {
    if |bs| > 0 {
      TotalNonNegative(bs[..|bs| - 1]);
      var b := bs[|bs| - 1];
      assert b.item.price * b.quantity >= 0;
    }
  }

  // ---------------------------------------------------------------------------
  // Scenarios (prices in cents)

  /** One product at 100.00 needing 2 of material 1, with 20 in stock: 10 units, 1000.00. */
  lemma ScenarioSingleProduct()
    ensures var a := Item("A", 10000, [Line(1, 2)]);
            var bs := Allocate([a], map[1 := 20]);
            bs == [Build(a, 10, map[1 := 20])] && Total(bs) == 100000
  {
    var a := Item("A", 10000, [Line(1, 2)]);
    assert Filter([a], HasRecipe) == [a];
    assert SortDesc([a], PriceOf) == [a];
    assert [a][..0] == [];
    assert Quantity(a.recipe, map[1 := 20]) == 10;
  }

  /** A (100.00) and B (50.00) both need 2 of material 1, 10 in stock: A takes all
      10 units of stock for 5 units of product and B does not appear. */
  lemma ScenarioSharedMaterial()
    ensures var a := Item("A", 10000, [Line(1, 2)]);
            var b := Item("B", 5000, [Line(1, 2)]);
            Allocate([b, a], map[1 := 10]) == [Build(a, 5, map[1 := 10])]
  {
    var a := Item("A", 10000, [Line(1, 2)]);
    var b := Item("B", 5000, [Line(1, 2)]);
    var s := map[1 := 10];
    assert Filter([b, a], HasRecipe) == [b, a];
    assert [b, a][..1] == [b];
    assert SortDesc([b], PriceOf) == [b];
    assert SortDesc([b, a], PriceOf) == [a, b];
    var o := [a, b];
    assert o[..1] == [a] && [a][..0] == [];
    assert Quantity(a.recipe, s) == 5;
    assert Plan([a], s) == [Build(a, 5, s)];
    assert Run([a], s) == map[1 := 0];
    assert Quantity(b.recipe, map[1 := 0]) == 0;
    assert Plan(o, s) == Plan([a], s);
  }

  /** A product whose material has no stock entry is not scheduled. */
  lemma ScenarioMissingMaterial()
    ensures Allocate([Item("A", 10000, [Line(7, 1)])], map[1 := 20]) == []
  {
    var a := Item("A", 10000, [Line(7, 1)]);
    assert Filter([a], HasRecipe) == [a];
    assert SortDesc([a], PriceOf) == [a];
    assert [a][..0] == [];
    assert Quantity(a.recipe, map[1 := 20]) == 0;
  }
}
