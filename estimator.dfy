/** The calculator component: its form record, the figure and panel flag it
    displays, and its change handlers. Every handler replaces the record and is
    followed at once by the recomputation, as the component's effect does. */
module Estimator {
  import opened Arrays
  import opened Catalog
  import opened Selection
  import opened Pricing

  class CostCalculator {
    var formData: CalculatorState
    var totalCost: int
    var showResult: bool

    /** The form is consistent and the displayed figure and flag are those of the form;
        so the figure is never negative, and a shown figure is positive. */
    ghost predicate Valid()
      reads this
      ensures Valid() ==> totalCost >= 0 && (showResult ==> totalCost > 0)
    {
      ShowResultSpec(formData);
      Consistent(formData) && totalCost == Total(formData) && showResult == ShowResult(formData)
    }

    /** Mounting: the empty form, then the first recomputation (a total of 0, no figure shown). */
    constructor ()
      ensures Valid() && formData == Initial()
      ensures totalCost == 0 && !showResult
    {
      formData := Initial();
      totalCost := 0;
      showResult := false;
      new;
      CalculateCost();
      InitialEstimate();
    }

    /** Recomputes the figure and the panel flag from the current form. */
    method CalculateCost()
      modifies this`totalCost, this`showResult
      ensures totalCost == Total(formData) && showResult == ShowResult(formData)
    {
      totalCost, showResult := ComputeCost(formData);
    }

    /** Choosing a project type replaces it and leaves every other field alone. */
    method HandleProjectTypeChange(projectId: string)
      requires Valid()
      modifies this
      ensures Valid()
      ensures formData == old(formData).(projectType := projectId)
    {
      formData := formData.(projectType := projectId);
      CalculateCost();
    }

    /** Ticking or unticking a feature flips its membership; ticking never lowers the
        figure, and the feature cost moves by exactly the feature's price. */
    method HandleFeatureToggle(featureId: string)
      requires Valid()
      modifies this
      ensures Valid()
      ensures formData == old(formData).(features := Toggle(old(formData.features), featureId))
      ensures featureId !in old(formData.features) ==>
        totalCost >= old(totalCost) &&
        FeatureCost(formData) == FeatureCost(old(formData)) + PriceOf(Features, featureId)
      ensures featureId in old(formData.features) ==>
        FeatureCost(formData) == FeatureCost(old(formData)) - PriceOf(Features, featureId)
    {
      ghost var before := formData;
      ToggleKeepsNoDup(formData.features, featureId);
      ToggleCost(Features, formData.features, featureId);
      formData := formData.(features := Toggle(formData.features, featureId));
      CalculateCost();
      if featureId !in before.features {
        TickingNeverLowersTotal(before, featureId);
      }
    }

    /** Ticking or unticking an integration, with the same guarantees as for features. */
    method HandleIntegrationToggle(integrationId: string)
      requires Valid()
      modifies this
      ensures Valid()
      ensures formData == old(formData).(integrations := Toggle(old(formData.integrations), integrationId))
      ensures integrationId !in old(formData.integrations) ==>
        totalCost >= old(totalCost) &&
        IntegrationCost(formData) == IntegrationCost(old(formData)) + PriceOf(Integrations, integrationId)
      ensures integrationId in old(formData.integrations) ==>
        IntegrationCost(formData) == IntegrationCost(old(formData)) - PriceOf(Integrations, integrationId)
    {
      ghost var before := formData;
      ToggleKeepsNoDup(formData.integrations, integrationId);
      ToggleCost(Integrations, formData.integrations, integrationId);
      formData := formData.(integrations := Toggle(formData.integrations, integrationId));
      CalculateCost();
      if integrationId !in before.integrations {
        TickingNeverLowersTotal(before, integrationId);
      }
    }

    /** The complexity radio group replaces the complexity id. */
    method SetComplexity(value: string)
      requires Valid()
      modifies this
      ensures Valid()
      ensures formData == old(formData).(complexity := value)
    {
      formData := formData.(complexity := value);
      CalculateCost();
    }

    /** The timeline radio group replaces the timeline id. */
    method SetTimeline(value: string)
      requires Valid()
      modifies this
      ensures Valid()
      ensures formData == old(formData).(timeline := value)
    {
      formData := formData.(timeline := value);
      CalculateCost();
    }

    /** The page slider, whose range is 1 to 50, replaces the page count. */
    method SetPages(value: int)
      requires Valid()
      requires 1 <= value <= 50
      modifies this
      ensures Valid()
      ensures formData == old(formData).(pages := value)
    {
      formData := formData.(pages := value);
      CalculateCost();
    }

    /** The maintenance checkbox sets the flag; switching it on never lowers the figure. */
    method SetMaintenance(checked: bool)
      requires Valid()
      modifies this
      ensures Valid()
      ensures formData == old(formData).(maintenance := checked)
      ensures checked ==> totalCost >= old(totalCost)
    {
      MaintenanceSurcharge(formData);
      assert formData == formData.(maintenance := formData.maintenance);
      formData := formData.(maintenance := checked);
      CalculateCost();
    }
  }

  /** A session: choose a business website, tick authentication, then untick it again. */
  method BusinessWebsiteSession()
  {
    var c := new CostCalculator();
    c.HandleProjectTypeChange("business");
    c.HandleFeatureToggle("auth");
    c.SetComplexity("simple");
    BusinessWebsiteWithAuthentication();
    assert c.formData == CalculatorState("business", ["auth"], "", "simple", 5, [], false);
    assert c.totalCost == 6200 && c.showResult;
    c.HandleFeatureToggle("auth");
    ToggleTwiceAbsent([], "auth");
    assert c.formData.features == [];
  }
}
