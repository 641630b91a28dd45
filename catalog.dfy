/** The estimator's hard-coded price lists and the lookups the formula makes in them. */
module Catalog {
  import opened Arrays

  /** A project type, feature or integration: an id and a flat price in dollars. */
  datatype Item = Item(id: string, name: string, price: int)

  /** A complexity or timeline tier: an id and the factor it scales the price by. */
  datatype Tier = Tier(id: string, name: string, multiplier: real, description: string)

  const ProjectTypes: seq<Item> := [
    Item("landing", "Landing Page", 2500),
    Item("business", "Business Website", 5000),
    Item("ecommerce", "E-commerce Store", 8000),
    Item("webapp", "Web Application", 12000),
    Item("mobile", "Mobile App", 15000),
    Item("custom", "Custom Software", 20000)
  ]

  const Features: seq<Item> := [
    Item("cms", "Content Management System", 1500),
    Item("auth", "User Authentication", 1200),
    Item("payment", "Payment Gateway", 2000),
    Item("analytics", "Analytics Dashboard", 1800),
    Item("api", "API Integration", 1000),
    Item("seo", "SEO Optimization", 800),
    Item("multilang", "Multi-language Support", 1500),
    Item("chat", "Live Chat Support", 600)
  ]

  const ComplexityMultipliers: seq<Tier> := [
    Tier("simple", "Simple", 1.0, "Basic functionality"),
    Tier("moderate", "Moderate", 1.3, "Standard features"),
    Tier("complex", "Complex", 1.6, "Advanced functionality"),
    Tier("enterprise", "Enterprise", 2.0, "Full-scale solution")
  ]

  const TimelineMultipliers: seq<Tier> := [
    Tier("standard", "3-6 months", 1.0, "Standard timeline"),
    Tier("fast", "1-3 months", 1.4, "Fast delivery"),
    Tier("rush", "Under 1 month", 1.8, "Rush delivery")
  ]

  const Integrations: seq<Item> := [
    Item("crm", "CRM Integration", 1200),
    Item("erp", "ERP System", 2500),
    Item("social", "Social Media APIs", 600),
    Item("email", "Email Marketing", 800),
    Item("cloud", "Cloud Storage", 1000)
  ]

  /** A price list keyed by id: ids are distinct and non-empty, prices positive. */
  predicate WellFormedItems(catalog: seq<Item>)
  {
    (forall i, j :: 0 <= i < j < |catalog| ==> catalog[i].id != catalog[j].id) &&
    (forall i :: 0 <= i < |catalog| ==> catalog[i].id != "" && catalog[i].price > 0)
  }

  /** A tier list keyed by id: ids are distinct and non-empty, every factor at least 1. */
  predicate WellFormedTiers(tiers: seq<Tier>)
  {
    (forall i, j :: 0 <= i < j < |tiers| ==> tiers[i].id != tiers[j].id) &&
    (forall i :: 0 <= i < |tiers| ==> tiers[i].id != "" && tiers[i].multiplier >= 1.0)
  }

  /** The five tables are keyed by id, priced positively and scale by at least 1. */
  lemma CatalogsWellFormed()
    ensures WellFormedItems(ProjectTypes) && WellFormedItems(Features) && WellFormedItems(Integrations)
    ensures WellFormedTiers(ComplexityMultipliers) && WellFormedTiers(TimelineMultipliers)
  {
    ProjectTypesWellFormed();
    FeaturesWellFormed();
    IntegrationsWellFormed();
    ComplexityTiersWellFormed();
    TimelineTiersWellFormed();
  }

  /** Each table, checked on its own to keep the proofs small. */
  lemma ProjectTypesWellFormed()
    ensures WellFormedItems(ProjectTypes)
  {
  }

  lemma FeaturesWellFormed()
    ensures WellFormedItems(Features)
  {
  }

  lemma IntegrationsWellFormed()
    ensures WellFormedItems(Integrations)
  {
  }

  lemma ComplexityTiersWellFormed()
    ensures WellFormedTiers(ComplexityMultipliers)
  {
  }

  lemma TimelineTiersWellFormed()
    ensures WellFormedTiers(TimelineMultipliers)
  {
  }

  /** `catalog.find(e => e.id === id)?.price || 0`: the listed price, 0 for an unknown id. */
  function PriceOf(catalog: seq<Item>, id: string): (p: int)
    ensures (forall i :: 0 <= i < |catalog| ==> catalog[i].id != id) ==> p == 0
    ensures (exists i :: 0 <= i < |catalog| && catalog[i].id == id) ==>
      exists i :: 0 <= i < |catalog| && catalog[i].id == id && catalog[i].price == p
  {
    match Find(catalog, (e: Item) => e.id, id)
    case Some(e) => e.price
    case None => 0
  }

  /** `tiers.find(t => t.id === id)?.multiplier || 1`: the listed factor, 1 for an unknown id
      (and, as `|| 1` reads it, 1 for a listed factor of 0). */
  function Multiplier(tiers: seq<Tier>, id: string): (m: real)
    ensures m != 0.0
    ensures (forall i :: 0 <= i < |tiers| ==> tiers[i].id != id) ==> m == 1.0
    ensures (exists i :: 0 <= i < |tiers| && tiers[i].id == id) ==>
      exists i :: 0 <= i < |tiers| && tiers[i].id == id &&
        (m == tiers[i].multiplier || (tiers[i].multiplier == 0.0 && m == 1.0))
  {
    match Find(tiers, (t: Tier) => t.id, id)
    case Some(t) => if t.multiplier != 0.0 then t.multiplier else 1.0
    case None => 1.0
  }

  /** In a keyed list, an id's price is its entry's price, and 0 when no entry has that id. */
  lemma PriceOfSpec(catalog: seq<Item>, id: string)
    requires WellFormedItems(catalog)
    ensures forall i :: 0 <= i < |catalog| && catalog[i].id == id ==> PriceOf(catalog, id) == catalog[i].price
    ensures (forall i :: 0 <= i < |catalog| ==> catalog[i].id != id) ==> PriceOf(catalog, id) == 0
    ensures PriceOf(catalog, id) >= 0
  {
    forall i | 0 <= i < |catalog| && catalog[i].id == id
      ensures PriceOf(catalog, id) == catalog[i].price
    {
      FindFirst(catalog, (e: Item) => e.id, id, i);
    }
  }

  /** In a keyed tier list, an id's factor is its entry's factor, and 1 when no entry has that id. */
  lemma MultiplierSpec(tiers: seq<Tier>, id: string)
    requires WellFormedTiers(tiers)
    ensures forall i :: 0 <= i < |tiers| && tiers[i].id == id ==> Multiplier(tiers, id) == tiers[i].multiplier
    ensures (forall i :: 0 <= i < |tiers| ==> tiers[i].id != id) ==> Multiplier(tiers, id) == 1.0
    ensures Multiplier(tiers, id) >= 1.0
  {
    forall i | 0 <= i < |tiers| && tiers[i].id == id
      ensures Multiplier(tiers, id) == tiers[i].multiplier
    {
      FindFirst(tiers, (t: Tier) => t.id, id, i);
    }
  }
}
