/** The estimate: base price, ticked add-ons and extra pages, scaled by the
    complexity and timeline factors, plus 20% for first-year maintenance,
    rounded once. */
module Pricing {
  import opened Arrays
  import opened Catalog
  import opened Selection

  /** `Math.round` on an exact value: the nearest integer, halves rounded up. */
  function Round(x: real): (r: int)
    ensures x - 0.5 < r as real <= x + 0.5
  {
    (x + 0.5).Floor
  }

  /** Rounding preserves order. */
  lemma RoundMonotone(x: real, y: real)
    requires x <= y
    ensures Round(x) <= Round(y)
  {
  }

  function Max(a: int, b: int): int
  {
    if a < b then b else a
  }

  /** `ids.reduce((total, id) => total + price(id), 0)`: the running sum, left to
      right, of each ticked id's listed price (0 for an unknown id). */
  function Cost(catalog: seq<Item>, ids: seq<string>): (c: int)
    ensures (forall i :: 0 <= i < |catalog| ==> catalog[i].price >= 0) ==> c >= 0
  {
    if ids == [] then 0
    else Cost(catalog, ids[..|ids| - 1]) + PriceOf(catalog, ids[|ids| - 1])
  }

  /** Ticking one more id adds exactly that id's price. */
  lemma CostAppend(catalog: seq<Item>, ids: seq<string>, id: string)
    ensures Cost(catalog, ids + [id]) == Cost(catalog, ids) + PriceOf(catalog, id)
  {
    assert (ids + [id])[..|ids|] == ids;
  }

  /** The cost of two lists of ids is the sum of their costs. */
  lemma {:induction false} CostConcat(catalog: seq<Item>, a: seq<string>, b: seq<string>)
    ensures Cost(catalog, a + b) == Cost(catalog, a) + Cost(catalog, b)
    decreases |b|
  {
    if b == [] {
      assert a + b == a;
    } else {
      var front := b[..|b| - 1];
      assert (a + b)[..|a + b| - 1] == a + front;
      assert (a + b)[|a + b| - 1] == b[|b| - 1];
      CostConcat(catalog, a, front);
    }
  }

  /** Taking one id out of any position lowers the cost by exactly that id's price. */
  lemma CostRemoveAt(catalog: seq<Item>, b: seq<string>, k: nat)
    requires k < |b|
    ensures Cost(catalog, b) == Cost(catalog, b[..k] + b[k + 1..]) + PriceOf(catalog, b[k])
  {
    var left, right := b[..k], b[k + 1..];
    assert b == left + [b[k]] + right;
    CostConcat(catalog, left + [b[k]], right);
    CostAppend(catalog, left, b[k]);
    CostConcat(catalog, left, right);
  }

  /** The order of ticking does not matter: the cost depends only on which ids, how often. */
  lemma {:induction false} CostPermutation(catalog: seq<Item>, a: seq<string>, b: seq<string>)
    requires multiset(a) == multiset(b)
    ensures Cost(catalog, a) == Cost(catalog, b)
    decreases |a|
  {
    if a != [] {
      var n := |a| - 1;
      var x := a[n];
      assert a == a[..n] + [x];
      assert x in multiset(b);
      var k :| 0 <= k < |b| && b[k] == x;
      var rest := b[..k] + b[k + 1..];
      CostRemoveAt(catalog, b, k);
      RemoveAtMultiset(b, k);
      assert multiset(a[..n]) == multiset(a) - multiset{x};
      CostPermutation(catalog, a[..n], rest);
      CostAppend(catalog, a[..n], x);
    }
  }

  /** A ticked id that the list does not hold adds nothing; a listed one adds its price. */
  lemma CostAppendSpec(catalog: seq<Item>, ids: seq<string>, id: string)
    requires WellFormedItems(catalog)
    ensures forall i :: 0 <= i < |catalog| && catalog[i].id == id ==>
      Cost(catalog, ids + [id]) == Cost(catalog, ids) + catalog[i].price
    ensures (forall i :: 0 <= i < |catalog| ==> catalog[i].id != id) ==>
      Cost(catalog, ids + [id]) == Cost(catalog, ids)
  {
    CostAppend(catalog, ids, id);
    PriceOfSpec(catalog, id);
  }

  /** Toggling an id on adds its price; toggling it off (from a duplicate-free list) subtracts it. */
  lemma ToggleCost(catalog: seq<Item>, ids: seq<string>, id: string)
    requires NoDup(ids)
    ensures id !in ids ==> Cost(catalog, Toggle(ids, id)) == Cost(catalog, ids) + PriceOf(catalog, id)
    ensures id in ids ==> Cost(catalog, Toggle(ids, id)) == Cost(catalog, ids) - PriceOf(catalog, id)
  {
    if id in ids {
      var rest := Without(ids, id);
      NoDupOccursOnce(ids, id);
      assert multiset(rest + [id]) == multiset(ids);
      CostPermutation(catalog, rest + [id], ids);
      CostAppend(catalog, rest, id);
    } else {
      CostAppend(catalog, ids, id);
    }
  }

  /** Unticking and re-ticking an id moves it to the end of the list but leaves the cost as it was. */
  lemma ToggleTwiceSameCost(catalog: seq<Item>, ids: seq<string>, id: string)
    requires NoDup(ids)
    ensures Cost(catalog, Toggle(Toggle(ids, id), id)) == Cost(catalog, ids)
  {
    if id in ids {
      ToggleTwicePresent(ids, id);
      CostPermutation(catalog, Toggle(Toggle(ids, id), id), ids);
    } else {
      ToggleTwiceAbsent(ids, id);
    }
  }

  /** The price of the chosen project type; 0 while none (or an unknown id) is chosen. */
  function BaseCost(projectType: string): (b: int)
    ensures forall i :: 0 <= i < |ProjectTypes| && ProjectTypes[i].id == projectType ==>
      b == ProjectTypes[i].price
    ensures (forall i :: 0 <= i < |ProjectTypes| ==> ProjectTypes[i].id != projectType) ==> b == 0
    ensures projectType == "" ==> b == 0
    ensures b >= 0
  {
    ProjectTypesWellFormed();
    PriceOfSpec(ProjectTypes, projectType);
    PriceOf(ProjectTypes, projectType)
  }

  function FeatureCost(s: CalculatorState): int
  {
    Cost(Features, s.features)
  }

  function IntegrationCost(s: CalculatorState): int
  {
    Cost(Integrations, s.integrations)
  }

  /** Five pages are included; each further page costs 200. */
  function PageCost(pages: int): (c: int)
    ensures c >= 0
    ensures pages <= 5 ==> c == 0
    ensures pages > 5 ==> c == 200 * (pages - 5)
  {
    Max(0, pages - 5) * 200
  }

  function ComplexityMultiplier(s: CalculatorState): real
  {
    Multiplier(ComplexityMultipliers, s.complexity)
  }

  function TimelineMultiplier(s: CalculatorState): real
  {
    Multiplier(TimelineMultipliers, s.timeline)
  }

  /** The flat part of the estimate: base, features, integrations and extra pages. */
  function RawSum(s: CalculatorState): (r: int)
    ensures FeatureCost(s) >= 0 && IntegrationCost(s) >= 0
    ensures r >= BaseCost(s.projectType) >= 0
  {
    FeaturesWellFormed();
    IntegrationsWellFormed();
    BaseCost(s.projectType) + FeatureCost(s) + IntegrationCost(s) + PageCost(s.pages)
  }

  /** The component's arithmetic on the flat sum: times both factors, then, with
      maintenance, plus a fifth of that product, applied once. */
  function Scale(raw: int, complexity: real, timeline: real, maintenance: bool): (v: real)
    ensures raw >= 0 && complexity >= 1.0 && timeline >= 1.0 ==> v >= raw as real
    ensures raw == 0 ==> v == 0.0
  {
    var scaled := raw as real * complexity * timeline;
    ProductAtLeast(raw as real, complexity, timeline);
    if maintenance then scaled + scaled * 0.2 else scaled
  }

  /** The unrounded estimate: never below the flat sum, since both factors are at least 1. */
  function Subtotal(s: CalculatorState): (v: real)
    ensures v >= RawSum(s) as real >= 0.0
  {
    MultipliersAtLeastOne(s);
    Scale(RawSum(s), ComplexityMultiplier(s), TimelineMultiplier(s), s.maintenance)
  }

  /** The displayed estimate: no selection yields a negative figure. */
  function Total(s: CalculatorState): (t: int)
    ensures t >= 0
  {
    Round(Subtotal(s))
  }

  /** Whether the estimate panel shows a figure rather than its placeholder. */
  predicate ShowResult(s: CalculatorState)
    ensures ShowResult(s) <==> RawSum(s) > 0 && s.projectType != ""
  {
    Subtotal(s) > 0.0 && s.projectType != ""
  }

  /** The two steps the component takes, product then surcharge, compute `Scale`. */
  lemma ScaleSteps(raw: int, complexity: real, timeline: real, maintenance: bool, scaled: real, subtotal: real)
    requires scaled == raw as real * complexity * timeline
    requires subtotal == if maintenance then scaled + scaled * 0.2 else scaled
    ensures subtotal == Scale(raw, complexity, timeline, maintenance)
  {
  }

  /** `calculateCost`: builds the estimate step by step, as the component does,
      and yields the figure and the panel flag it stores. */
  method ComputeCost(s: CalculatorState) returns (totalCost: int, showResult: bool)
    ensures totalCost == Total(s)
    ensures showResult == ShowResult(s)
  {
    var baseCost := 0;
    var selectedProject := Find(ProjectTypes, (e: Item) => e.id, s.projectType);
    if selectedProject.Some? {
      baseCost := selectedProject.value.price;
    }
    var featureCost := Cost(Features, s.features);
    var integrationCost := Cost(Integrations, s.integrations);
    var pageCost := Max(0, s.pages - 5) * 200;
    var complexityMultiplier := Multiplier(ComplexityMultipliers, s.complexity);
    var timelineMultiplier := Multiplier(TimelineMultipliers, s.timeline);
    ghost var raw := baseCost + featureCost + integrationCost + pageCost;
    assert raw == RawSum(s);
    var subtotal := (baseCost + featureCost + integrationCost + pageCost) as real
      * complexityMultiplier * timelineMultiplier;
    ghost var scaled := subtotal;
    if s.maintenance {
      subtotal := subtotal + subtotal * 0.2;
    }
    ScaleSteps(raw, complexityMultiplier, timelineMultiplier, s.maintenance, scaled, subtotal);
    totalCost := Round(subtotal);
    showResult := subtotal > 0.0 && s.projectType != "";
  }

  /** Scaling by two factors of at least 1 keeps the order of flat sums. */
  lemma ScaleMonotone(a: int, b: int, complexity: real, timeline: real, maintenance: bool)
    requires a <= b && complexity >= 1.0 && timeline >= 1.0
    ensures Scale(a, complexity, timeline, maintenance) <= Scale(b, complexity, timeline, maintenance)
  {
    var d := (b - a) as real;
    assert d * complexity >= 0.0;
    assert d * complexity * timeline >= 0.0;
    assert b as real * complexity * timeline == a as real * complexity * timeline + d * complexity * timeline;
  }

  /** A non-negative amount times two factors of at least 1 is never below itself. */
  lemma ProductAtLeast(x: real, complexity: real, timeline: real)
    ensures x >= 0.0 && complexity >= 1.0 && timeline >= 1.0 ==> x * complexity * timeline >= x
  {
    if x >= 0.0 && complexity >= 1.0 && timeline >= 1.0 {
      assert x * (complexity - 1.0) >= 0.0;
      assert x * complexity >= x;
      assert x * complexity * (timeline - 1.0) >= 0.0;
    }
  }

  /** The surcharge multiplies the scaled sum by 1.2. */
  lemma ScaleSurcharge(a: int, complexity: real, timeline: real)
    ensures Scale(a, complexity, timeline, true) == Scale(a, complexity, timeline, false) * 1.2
  {
  }

  /** A complexity or timeline factor is at least 1 whatever id is stored, and exactly 1
      while none (or an unlisted id) is chosen. */
  lemma MultipliersAtLeastOne(s: CalculatorState)
    ensures ComplexityMultiplier(s) >= 1.0 && TimelineMultiplier(s) >= 1.0
    ensures (forall i :: 0 <= i < |ComplexityMultipliers| ==> ComplexityMultipliers[i].id != s.complexity) ==>
      ComplexityMultiplier(s) == 1.0
    ensures (forall i :: 0 <= i < |TimelineMultipliers| ==> TimelineMultipliers[i].id != s.timeline) ==>
      TimelineMultiplier(s) == 1.0
    ensures s.complexity == "" ==> ComplexityMultiplier(s) == 1.0
    ensures s.timeline == "" ==> TimelineMultiplier(s) == 1.0
  {
    CatalogsWellFormed();
    MultiplierSpec(ComplexityMultipliers, s.complexity);
    MultiplierSpec(TimelineMultipliers, s.timeline);
  }

  /** The panel's test on the unrounded estimate agrees with a test on the rounded
      figure: it shows a figure exactly when a type is chosen and the figure is positive. */
  lemma ShowResultSpec(s: CalculatorState)
    ensures ShowResult(s) <==> Total(s) > 0 && s.projectType != ""
  {
    MultipliersAtLeastOne(s);
  }

  /** Choosing a listed project type always shows a figure of at least that type's price. */
  lemma ChosenTypeShowsEstimate(s: CalculatorState, i: nat)
    requires i < |ProjectTypes| && s.projectType == ProjectTypes[i].id
    ensures ShowResult(s)
    ensures Total(s) >= ProjectTypes[i].price
  {
    CatalogsWellFormed();
  }

  /** With the same factors and maintenance choice, a larger flat sum never gives a smaller estimate. */
  lemma TotalMonotone(s: CalculatorState, u: CalculatorState)
    requires RawSum(s) <= RawSum(u)
    requires s.complexity == u.complexity && s.timeline == u.timeline && s.maintenance == u.maintenance
    ensures Subtotal(s) <= Subtotal(u)
    ensures Total(s) <= Total(u)
  {
    MultipliersAtLeastOne(s);
    ScaleMonotone(RawSum(s), RawSum(u), ComplexityMultiplier(s), TimelineMultiplier(s), s.maintenance);
    RoundMonotone(Subtotal(s), Subtotal(u));
  }

  /** Ticking one more feature or integration never lowers the estimate. */
  lemma TickingNeverLowersTotal(s: CalculatorState, id: string)
    ensures Total(s) <= Total(s.(features := s.features + [id]))
    ensures Total(s) <= Total(s.(integrations := s.integrations + [id]))
  {
    CatalogsWellFormed();
    CostAppend(Features, s.features, id);
    PriceOfSpec(Features, id);
    TotalMonotone(s, s.(features := s.features + [id]));
    CostAppend(Integrations, s.integrations, id);
    PriceOfSpec(Integrations, id);
    TotalMonotone(s, s.(integrations := s.integrations + [id]));
  }

  /** Maintenance adds 20% of the fully scaled sum, once, and never lowers the estimate. */
  lemma MaintenanceSurcharge(s: CalculatorState)
    ensures Subtotal(s.(maintenance := true)) == Subtotal(s.(maintenance := false)) * 1.2
    ensures Total(s.(maintenance := false)) <= Total(s.(maintenance := true))
  {
    var on, off := s.(maintenance := true), s.(maintenance := false);
    assert RawSum(on) == RawSum(off);
    ScaleSurcharge(RawSum(off), ComplexityMultiplier(off), TimelineMultiplier(off));
    RoundMonotone(Subtotal(off), Subtotal(on));
  }

  /** Enterprise complexity at the neutral timeline and without maintenance exactly doubles the flat sum. */
  lemma EnterpriseDoubles(s: CalculatorState)
    requires s.complexity == "enterprise" && (s.timeline == "" || s.timeline == "standard")
    requires !s.maintenance
    ensures Total(s) == 2 * RawSum(s)
  {
    CatalogsWellFormed();
    MultiplierSpec(ComplexityMultipliers, s.complexity);
    assert ComplexityMultipliers[3].id == "enterprise";
    MultiplierSpec(TimelineMultipliers, s.timeline);
    assert TimelineMultipliers[0].id == "standard";
    assert ComplexityMultiplier(s) == 2.0 && TimelineMultiplier(s) == 1.0;
    assert Subtotal(s) == 2.0 * RawSum(s) as real;
  }

  /** The form as mounted shows no estimate and a total of 0. */
  lemma InitialEstimate()
    ensures Total(Initial()) == 0 && !ShowResult(Initial())
  {
    assert RawSum(Initial()) == 0;
    MultipliersAtLeastOne(Initial());
  }

  /** A business website with user authentication, simple complexity, no timeline and the
      five included pages costs 6200, or 7440 with first-year maintenance. */
  lemma BusinessWebsiteWithAuthentication()
    ensures var s := CalculatorState("business", ["auth"], "", "simple", 5, [], false);
      Total(s) == 6200 && ShowResult(s) && Total(s.(maintenance := true)) == 7440
  {
    var s := CalculatorState("business", ["auth"], "", "simple", 5, [], false);
    assert ProjectTypes[1].id == "business";
    assert BaseCost(s.projectType) == 5000;
    FeaturesWellFormed();
    CostAppend(Features, [], "auth");
    PriceOfSpec(Features, "auth");
    assert Features[1].id == "auth";
    assert [] + ["auth"] == ["auth"];
    assert FeatureCost(s) == 1200;
    assert RawSum(s) == 6200;
    ComplexityTiersWellFormed();
    MultiplierSpec(ComplexityMultipliers, "simple");
    assert ComplexityMultipliers[0].id == "simple";
    MultipliersAtLeastOne(s);
    assert Subtotal(s) == 6200.0;
    MaintenanceSurcharge(s);
  }
}
