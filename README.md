# Project cost estimator

This is a Dafny model of the cost calculator in the Software-Dev-Web marketing site.
The calculator is a form. The visitor picks a project type and ticks features and
integrations from fixed price lists. They also choose a complexity tier, a delivery
timeline and a page count (five pages are included), and may tick first-year
maintenance. After every change the component recomputes the estimate:

- the base price of the chosen project type;
- plus the prices of the ticked features and integrations;
- plus 200 for each page beyond five;
- times the complexity factor and the timeline factor;
- plus 20% of that product when maintenance is ticked;
- rounded once with `Math.round`.

The panel shows the figure only when the unrounded estimate is positive and a
project type has been chosen.

Modules:

- `Arrays`: the JavaScript array operations the component uses. `Find` is `find` by id, `Without` is `filter(x => x !== id)`, and `includes` is Dafny's `in`. Also `NoDup` and their lemmas.
- `Catalog`: the five hard-coded tables, with the same ids, names, prices and factors. Also the two lookups `PriceOf` (`?.price || 0`) and `Multiplier` (`?.multiplier || 1`).
- `Selection`: the form record `CalculatorState`, its initial value and the checkbox toggle.
- `Pricing`: the formula as specification functions (`RawSum`, `Scale`, `Subtotal`, `Total`, `ShowResult`). Also `ComputeCost`, the step-by-step `calculateCost` proved against them, and the properties of the formula.
- `Estimator`: the component as a class `CostCalculator`. It holds `formData`, `totalCost` and `showResult`. Each change handler replaces the record and then calls `CalculateCost`, as the component's effect does on every change of `formData`.

Prices are integers. The factors 1, 1.3, 1.4, 1.6, 1.8 and 2 and the surcharge 0.2
are exact Dafny `real`s. `Math.round(x)` is `floor(x + 0.5)`: the nearest integer,
with halves rounded up.

Worked figures and details of the code:

- Business Website is listed at 5000 (src/components/CostCalculator.tsx:30) and User Authentication at 1200 (:39). So "business website + authentication, simple complexity, no timeline, five pages" costs 6200, and 7440 with maintenance (`BusinessWebsiteWithAuthentication`).
- The page slider (:303-308) feeds the page term of the formula (:95).
- The panel flag tests the unrounded subtotal (`subtotal > 0`, :112). `ShowResultSpec` proves that this agrees with testing the rounded total.

## Model

| member | source | states |
|---|---|---|
| `Arrays.Find` | src/components/CostCalculator.tsx:77 | `find` by id returns an element of the list carrying that id, and returns nothing exactly when no element carries it |
| `Arrays.FindFirst` | src/components/CostCalculator.tsx:77 | `find` returns the element at the first position carrying the id |
| `Arrays.Without` | src/components/CostCalculator.tsx:123 | `filter(f => f !== id)` drops every occurrence of the id and keeps every other id's count |
| `Arrays.WithoutAbsent` | src/components/CostCalculator.tsx:123 | filtering out an id that is not in the list returns the list unchanged |
| `Arrays.WithoutAppended` | src/components/CostCalculator.tsx:123-124 | filtering out the id just appended gives back the original list |
| `Arrays.WithoutNoDup` | src/components/CostCalculator.tsx:123 | filtering keeps a duplicate-free list duplicate-free |
| `Arrays.NoDupOccursOnce` | src/components/CostCalculator.tsx:122 | in a duplicate-free list a present id occurs exactly once |
| `Arrays.NoDupCounts` | src/components/CostCalculator.tsx:122-124 | a list has no duplicates exactly when no id is counted more than once; the checkbox lists are kept that way by the `includes` test before appending |
| `Catalog.ProjectTypesWellFormed` | src/components/CostCalculator.tsx:28-35 | the six project types have distinct, non-empty ids and positive prices |
| `Catalog.FeaturesWellFormed` | src/components/CostCalculator.tsx:37-46 | the eight features have distinct, non-empty ids and positive prices |
| `Catalog.ComplexityTiersWellFormed` | src/components/CostCalculator.tsx:48-53 | the four complexity tiers have distinct, non-empty ids and factors of at least 1 |
| `Catalog.TimelineTiersWellFormed` | src/components/CostCalculator.tsx:55-59 | the three timeline tiers have distinct, non-empty ids and factors of at least 1 |
| `Catalog.IntegrationsWellFormed` | src/components/CostCalculator.tsx:61-67 | the five integrations have distinct, non-empty ids and positive prices |
| `Catalog.CatalogsWellFormed` | src/components/CostCalculator.tsx:28-67 | each table has distinct, non-empty ids, positive prices, and factors of at least 1 |
| `Catalog.PriceOf` | src/components/CostCalculator.tsx:84-85 | `find` by id, then its price or 0: the price of an entry carrying the id, and 0 when no entry carries it |
| `Catalog.Multiplier` | src/components/CostCalculator.tsx:98 | `find` by id, then its factor or 1: never 0; the factor of an entry carrying the id, or 1 when that factor is 0; 1 when no entry carries the id |
| `Catalog.PriceOfSpec` | src/components/CostCalculator.tsx:84-85 | an id's price is its table entry's price, and 0 when no entry has the id |
| `Catalog.MultiplierSpec` | src/components/CostCalculator.tsx:98 | an id's factor is its entry's factor (at least 1), and 1 when no entry has the id |
| `Selection.Initial` | src/components/CostCalculator.tsx:15-23 | the form as mounted (nothing chosen or ticked, five pages) satisfies the form invariant `Consistent` |
| `Selection.Consistent` | src/components/CostCalculator.tsx:4-12 | the invariant on the form record: no feature or integration id is ticked twice and the page count is within the slider's 1 to 50; so every id is counted at most once |
| `Selection.Toggle` | src/components/CostCalculator.tsx:119-126 | the toggle flips the id's membership and leaves every other id's count unchanged |
| `Selection.ToggleTwiceAbsent` | src/components/CostCalculator.tsx:119-126 | ticking then unticking an absent id restores the list exactly |
| `Selection.ToggleTwicePresent` | src/components/CostCalculator.tsx:119-126 | unticking then re-ticking a present id keeps the same ids and moves it to the end |
| `Selection.ToggleKeepsNoDup` | src/components/CostCalculator.tsx:128-135 | toggling never introduces a duplicate id |
| `Pricing.Round` | src/components/CostCalculator.tsx:111 | `Math.round` gives the integer within one half of the value, with halves rounded up |
| `Pricing.RoundMonotone` | src/components/CostCalculator.tsx:111 | rounding preserves order |
| `Pricing.Cost` | src/components/CostCalculator.tsx:83-92 | the `reduce` over the ticked ids: over a list with non-negative prices the feature or integration cost is never negative |
| `Pricing.CostAppend` | src/components/CostCalculator.tsx:83-86 | the `reduce` over one more ticked id adds exactly that id's price |
| `Pricing.CostConcat` | src/components/CostCalculator.tsx:83-86 | the cost of two lists of ids is the sum of their costs |
| `Pricing.CostRemoveAt` | src/components/CostCalculator.tsx:83-86 | taking one id out of any position lowers the cost by that id's price |
| `Pricing.CostPermutation` | src/components/CostCalculator.tsx:83-92 | the cost depends only on which ids are ticked, not on the order of ticking |
| `Pricing.CostAppendSpec` | src/components/CostCalculator.tsx:84-85 | a ticked listed id adds its price, and an unlisted id adds 0 |
| `Pricing.ToggleCost` | src/components/CostCalculator.tsx:119-135 | toggling an id on adds its price, and toggling it off subtracts it |
| `Pricing.ToggleTwiceSameCost` | src/components/CostCalculator.tsx:119-135 | toggling the same id twice leaves the cost unchanged |
| `Pricing.PageCost` | src/components/CostCalculator.tsx:95 | the page cost is never negative, is 0 up to five pages (the initial 5 included), and is 200 per page beyond five |
| `Pricing.BaseCost` | src/components/CostCalculator.tsx:74-80 | the base cost is the chosen type's listed price, 0 for `''` or an unlisted id, and never negative |
| `Pricing.RawSum` | src/components/CostCalculator.tsx:104 | the flat sum of base, features, integrations and extra pages: the feature and integration costs are non-negative, and the sum is at least the base cost, which is at least 0 |
| `Pricing.Scale` | src/components/CostCalculator.tsx:104-109 | the product with both factors and the optional surcharge: with factors of at least 1 a non-negative flat sum is never scaled below itself, and 0 stays 0 |
| `Pricing.Subtotal` | src/components/CostCalculator.tsx:104-109 | the unrounded estimate of a form is never below its flat sum, which is never negative |
| `Pricing.Total` | src/components/CostCalculator.tsx:111 | the displayed figure `Math.round(subtotal)` is never negative |
| `Pricing.ShowResult` | src/components/CostCalculator.tsx:112 | the panel flag holds exactly when a project type is chosen and the flat sum is positive |
| `Pricing.ComputeCost` | src/components/CostCalculator.tsx:73-113 | the step-by-step computation yields `Total` and `ShowResult` of the form |
| `Pricing.ScaleMonotone` | src/components/CostCalculator.tsx:104-109 | with factors of at least 1, a larger flat sum is never scaled to a smaller value |
| `Pricing.MultipliersAtLeastOne` | src/components/CostCalculator.tsx:98-101 | both factors are at least 1 for any stored id, and 1 when unset or unlisted |
| `Pricing.ShowResultSpec` | src/components/CostCalculator.tsx:111-112 | testing the unrounded subtotal agrees with testing the rounded total: the flag holds exactly when a type is chosen and the total is positive |
| `Pricing.ChosenTypeShowsEstimate` | src/components/CostCalculator.tsx:77-80 | choosing a listed project type always shows a figure of at least its price |
| `Pricing.TotalMonotone` | src/components/CostCalculator.tsx:104-111 | with the same factors and maintenance choice, a larger flat sum never gives a smaller total |
| `Pricing.TickingNeverLowersTotal` | src/components/CostCalculator.tsx:83-111 | adding a feature or integration id never lowers the total |
| `Pricing.MaintenanceSurcharge` | src/components/CostCalculator.tsx:107-109 | maintenance multiplies the fully scaled sum by 1.2, once, and never lowers the total |
| `Pricing.EnterpriseDoubles` | src/components/CostCalculator.tsx:52 | enterprise complexity at the neutral timeline and without maintenance gives exactly twice the flat sum |
| `Pricing.InitialEstimate` | src/components/CostCalculator.tsx:15-26 | the form as mounted has a total of 0 and shows no figure |
| `Pricing.BusinessWebsiteWithAuthentication` | src/components/CostCalculator.tsx:30 | business website plus authentication, simple, no timeline, five pages costs 6200 (7440 with maintenance) and is shown |
| `Estimator.CostCalculator.Valid` | src/components/CostCalculator.tsx:69-71 | the invariant of the component: the form is consistent and the stored figure and flag are those of the form, so the figure is never negative and a shown figure is positive |
| `Estimator.CostCalculator.constructor` | src/components/CostCalculator.tsx:15-26 | mounting gives the initial form, a total of 0 and no figure |
| `Estimator.CostCalculator.CalculateCost` | src/components/CostCalculator.tsx:69-71 | recomputation stores `Total` and `ShowResult` of the current form |
| `Estimator.CostCalculator.HandleProjectTypeChange` | src/components/CostCalculator.tsx:115-117 | replaces the project type only, then recomputes |
| `Estimator.CostCalculator.HandleFeatureToggle` | src/components/CostCalculator.tsx:119-126 | toggles the feature only and recomputes; ticking never lowers the total; the feature cost moves by the feature's price |
| `Estimator.CostCalculator.HandleIntegrationToggle` | src/components/CostCalculator.tsx:128-135 | the same as the feature toggle, for integrations |
| `Estimator.CostCalculator.SetComplexity` | src/components/CostCalculator.tsx:236 | replaces the complexity id only, then recomputes |
| `Estimator.CostCalculator.SetTimeline` | src/components/CostCalculator.tsx:271 | replaces the timeline id only, then recomputes |
| `Estimator.CostCalculator.SetPages` | src/components/CostCalculator.tsx:303-308 | replaces the page count (within the slider's 1 to 50) only, then recomputes |
| `Estimator.CostCalculator.SetMaintenance` | src/components/CostCalculator.tsx:356 | sets the maintenance flag only and recomputes; switching it on never lowers the total |

## Left out

- All of src/App.tsx: the page layout, the scroll and mouse listeners, and the timer-driven animated counter. These are presentation only.
- JSX rendering, CSS, icons, and the `toLocaleString` currency formatting. The formatting depends on the host's locale.
- The breakdown lines of the summary panel (src/components/CostCalculator.tsx:398-426) are not modelled separately. They recompute the same base, feature, integration and page sums that `BaseCost`, `Cost` and `PageCost` define.
- IEEE-754 arithmetic: the model uses exact rationals, not doubles. In JavaScript, `1.3`, `1.4`, `1.8` and `0.2` are not exact. So a product that is exactly half an integer in the model could round differently in the browser.
- React mechanics: `useState`, `useEffect` and batched functional updates. They are modelled as "every update of the form record is immediately followed by a recomputation".
- `parseInt` of the slider value. The slider only produces whole numbers from 1 to 50, so `SetPages` takes such a number.
- The handlers store whatever id the rendered controls pass in. The controls only pass catalog ids, but the model does not add that as a precondition. The formula handles an unknown id anyway: it prices it at 0 and gives it a factor of 1.
