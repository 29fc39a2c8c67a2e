/** The destination-plan panel of the "change App Service plan" page: the
    dropdown option lists for plans and resource groups, and the two display
    strings for the chosen pricing tier and resource group. */
module PlanDetails {
  import opened Wrappers
  import opened Strings

  /** The `sku` block of an ARM object. */
  datatype ArmSku = ArmSku(name: string, tier: string)

  /** An ARM object (a server farm or a resource group) as fetched. */
  datatype ArmObj = ArmObj(id: string, name: string, sku: Option<ArmSku>)

  /** What a dropdown option carries as `data`: the ARM object it was built
      from, the `NEW_PLAN` marker, or the name of a new resource group. */
  datatype OptionData = Record(obj: ArmObj) | NewPlanMarker | GroupName(groupName: string)

  /** A Fluent UI `IDropdownOption` as built here. */
  datatype DropdownOption = DropdownOption(key: string, text: string, data: OptionData, selected: bool)

  /** The `newPlanInfo` part of the form values. */
  datatype NewPlanInfo = NewPlanInfo(
    name: string,
    tier: string,
    skuCode: string,
    isNewResourceGroup: bool,
    newResourceGroupName: string,
    existingResourceGroup: Option<ArmObj>)

  /** `formProps.values.serverFarmInfo`. */
  datatype ServerFarmInfo = ServerFarmInfo(isNewPlan: bool, newPlanInfo: NewPlanInfo, existingPlan: Option<ArmObj>)

  /** The TypeError the display strings throw when a cast object is absent. */
  datatype DisplayError = MissingExistingPlan | MissingSku | MissingResourceGroup

  /** `addNewPlanToOptions` / `addNewRgOption`: defined elsewhere, so any
      function of the proposed name and the current option list. */
  type AddOptionStep = (string, seq<DropdownOption>) -> seq<DropdownOption>

  // ---------------------------------------------------------------------
  // getDropdownOptions

  /** The option for one ARM object. */
  function OptionFor(obj: ArmObj, selected: bool): (o: DropdownOption)
    ensures |o.key| == |obj.id| && Lower(o.key) == o.key
    ensures o.text == obj.name && o.data == Record(obj) && o.selected == selected
  {
    LowerIdempotent(obj.id);
    DropdownOption(Lower(obj.id), obj.name, Record(obj), selected)
  }

  /** Reference definition: the options for `objs`, where only the head may be
      selected, and it is exactly when `first` holds. */
  function Project(objs: seq<ArmObj>, first: bool): (r: seq<DropdownOption>)
    ensures |r| == |objs|
    decreases |objs|
  {
    if objs == [] then [] else [OptionFor(objs[0], first)] + Project(objs[1..], false)
  }

  /** The option list `getDropdownOptions` returns; `None` is an absent list. */
  function DropdownOptions(objs: Option<seq<ArmObj>>): (r: seq<DropdownOption>)
    ensures |r| == if objs.Some? then |objs.value| else 0
  {
    match objs
    case None => []
    case Some(s) => Project(s, true)
  }

  /** Exactly the option at index 0 is selected. */
  predicate SelectsOnlyFirst(options: seq<DropdownOption>) {
    forall k :: 0 <= k < |options| ==> (options[k].selected <==> k == 0)
  }

  lemma {:induction false} ProjectAt(objs: seq<ArmObj>, first: bool, k: nat)
    requires k < |objs|
    ensures Project(objs, first)[k] == OptionFor(objs[k], first && k == 0)
  {
    if k > 0 {
      ProjectAt(objs[1..], false, k - 1);
    }
  }

  /** An absent list gives no options; a present one gives one option per
      object, in order, keyed by the lower-cased id, showing the name,
      carrying the object, and only the first one selected. */
  lemma DropdownOptionsSpec(objs: Option<seq<ArmObj>>)
    ensures objs.None? ==> DropdownOptions(objs) == []
    ensures objs.Some? ==> |DropdownOptions(objs)| == |objs.value|
    ensures objs.Some? ==> forall k :: 0 <= k < |objs.value| ==>
      var o := DropdownOptions(objs)[k];
      o.key == Lower(objs.value[k].id) && o.text == objs.value[k].name &&
      o.data == Record(objs.value[k]) && (o.selected <==> k == 0)
    ensures SelectsOnlyFirst(DropdownOptions(objs))
  {
    if objs.Some? {
      forall k | 0 <= k < |objs.value|
        ensures DropdownOptions(objs)[k] == OptionFor(objs.value[k], k == 0)
      {
        ProjectAt(objs.value, true, k);
      }
    }
  }

  /** Nothing removes options whose ids differ only in case: both stay, with
      the same key. */
  lemma KeysNotDeduplicated()
    ensures var options := DropdownOptions(Some([ArmObj("RG1", "Group One", None), ArmObj("rg1", "Group Two", None)]));
      |options| == 2 && options[0].key == "rg1" && options[1].key == "rg1"
  {
    var objs := [ArmObj("RG1", "Group One", None), ArmObj("rg1", "Group Two", None)];
    assert Lower("RG1") == "rg1";
    assert Lower("rg1") == "rg1";
    DropdownOptionsSpec(Some(objs));
  }

  /** `getDropdownOptions`: a loop that appends one option per object. */
  method GetDropdownOptions(objs: Option<seq<ArmObj>>) returns (options: seq<DropdownOption>)
    ensures objs.None? ==> options == []
    ensures objs.Some? ==> |options| == |objs.value|
    ensures objs.Some? ==> forall k :: 0 <= k < |options| ==> options[k] == OptionFor(objs.value[k], k == 0)
    ensures options == DropdownOptions(objs)
  {
    options := [];
    if objs.Some? {
      var s := objs.value;
      for i := 0 to |s|
        invariant |options| == i
        invariant forall k :: 0 <= k < i ==> options[k] == OptionFor(s[k], k == 0)
      {
        options := options + [OptionFor(s[i], i == 0)];
      }
      forall k | 0 <= k < |s|
        ensures options[k] == Project(s, true)[k]
      {
        ProjectAt(s, true, k);
      }
    }
  }

  // ---------------------------------------------------------------------
  // serverFarmOptions / rgOptions

  /** The placeholder for the plan about to be created. */
  function NewPlanOption(newPlanName: string, newFormat: string -> string): (o: DropdownOption)
    ensures o.selected && o.data == NewPlanMarker && o.key == newPlanName
    ensures SelectsOnlyFirst([o])
  {
    DropdownOption(newPlanName, newFormat(newPlanName), NewPlanMarker, true)
  }

  /** The placeholder for the resource group about to be created. */
  function NewResourceGroupOption(newResourceGroupName: string): (o: DropdownOption)
    ensures o.selected && o.key == newResourceGroupName && o.text == o.key && o.data == GroupName(o.key)
    ensures SelectsOnlyFirst([o])
  {
    DropdownOption(newResourceGroupName, newResourceGroupName, GroupName(newResourceGroupName), true)
  }

  /** `serverFarmOptions`: the plan options, then the external new-plan step,
      then, if the list is still empty, the new-plan placeholder in front. */
  method ServerFarmOptions(serverFarms: Option<seq<ArmObj>>, newPlanName: string,
                           addNewPlanToOptions: AddOptionStep, newFormat: string -> string)
    returns (options: seq<DropdownOption>)
    ensures addNewPlanToOptions(newPlanName, DropdownOptions(serverFarms)) == [] ==>
      options == [DropdownOption(newPlanName, newFormat(newPlanName), NewPlanMarker, true)]
    ensures addNewPlanToOptions(newPlanName, DropdownOptions(serverFarms)) != [] ==>
      options == addNewPlanToOptions(newPlanName, DropdownOptions(serverFarms))
    ensures |options| >= 1
    ensures SelectsOnlyFirst(addNewPlanToOptions(newPlanName, DropdownOptions(serverFarms))) ==>
      SelectsOnlyFirst(options)
  {
    options := GetDropdownOptions(serverFarms);
    options := addNewPlanToOptions(newPlanName, options);
    if |options| == 0 {
      options := [NewPlanOption(newPlanName, newFormat)] + options;
    }
  }

  /** `rgOptions`: the resource-group options, then the external new-group
      step, then, if the list is still empty, the new-group placeholder. */
  method ResourceGroupOptions(resourceGroups: Option<seq<ArmObj>>, newResourceGroupName: string,
                              addNewRgOption: AddOptionStep)
    returns (options: seq<DropdownOption>)
    ensures addNewRgOption(newResourceGroupName, DropdownOptions(resourceGroups)) == [] ==>
      options == [DropdownOption(newResourceGroupName, newResourceGroupName, GroupName(newResourceGroupName), true)]
    ensures addNewRgOption(newResourceGroupName, DropdownOptions(resourceGroups)) != [] ==>
      options == addNewRgOption(newResourceGroupName, DropdownOptions(resourceGroups))
    ensures |options| >= 1
    ensures SelectsOnlyFirst(addNewRgOption(newResourceGroupName, DropdownOptions(resourceGroups))) ==>
      SelectsOnlyFirst(options)
  {
    options := GetDropdownOptions(resourceGroups);
    options := addNewRgOption(newResourceGroupName, options);
    if |options| == 0 {
      options := [NewResourceGroupOption(newResourceGroupName)] + options;
    }
  }

  // ---------------------------------------------------------------------
  // getSelectedSkuString

  /** The pricing-tier text: the tier, then the SKU code in parentheses,
      then a trailing space. */
  function SkuLabel(tier: string, skuCode: string): (s: string)
    ensures |s| == |tier| + |skuCode| + 4
    ensures s[..|tier|] == tier && s[|tier|..|tier| + 2] == " ("
    ensures s[|tier| + 2..|s| - 2] == skuCode && s[|s| - 2..] == ") "
  {
    tier + " (" + skuCode + ") "
  }

  /** Reads a pricing-tier text back into its tier and SKU code. */
  function ParseSkuLabel(s: string): Option<(string, string)> {
    var k := IndexOf(s, '(');
    if 1 <= k && k + 3 <= |s| && s[k - 1] == ' ' && s[|s| - 2..] == ") "
    then Some((s[..k - 1], s[k + 1..|s| - 2]))
    else None
  }

  /** The pricing-tier text determines the tier and SKU code, provided the
      tier contains no '('. */
  lemma SkuLabelRoundTrip(tier: string, skuCode: string)
    requires '(' !in tier
    ensures ParseSkuLabel(SkuLabel(tier, skuCode)) == Some((tier, skuCode))
  {
    var s := SkuLabel(tier, skuCode);
    assert s == (tier + " ") + ("(" + skuCode + ") ");
    IndexOfAfterPrefix(tier + " ", "(" + skuCode + ") ", '(');
    var k := IndexOf(s, '(');
    assert k == |tier| + 1;
    assert s[..k - 1] == tier;
    assert s[k + 1..|s| - 2] == skuCode;
  }

  /** `getSelectedSkuString`: the new plan's tier and SKU code when a new plan
      is chosen, the existing plan's `sku.tier` and `sku.name` otherwise; an
      absent plan or SKU throws. */
  function SelectedSkuString(info: ServerFarmInfo): (r: Result<string, DisplayError>)
    ensures info.isNewPlan ==> r == Success(SkuLabel(info.newPlanInfo.tier, info.newPlanInfo.skuCode))
    ensures !info.isNewPlan ==>
      (r.Failure? <==> info.existingPlan.None? || info.existingPlan.value.sku.None?)
    ensures !info.isNewPlan && r.Success? ==>
      r.value == SkuLabel(info.existingPlan.value.sku.value.tier, info.existingPlan.value.sku.value.name)
  {
    if info.isNewPlan then
      Success(SkuLabel(info.newPlanInfo.tier, info.newPlanInfo.skuCode))
    else
      match info.existingPlan
      case None => Failure(MissingExistingPlan)
      case Some(plan) =>
        match plan.sku
        case None => Failure(MissingSku)
        case Some(sku) => Success(SkuLabel(sku.tier, sku.name))
  }

  // ---------------------------------------------------------------------
  // getSelectedResourceGroupString

  /** `getSelectedResourceGroupString`: for a new plan, the formatted name of a
      new resource group or the name of the chosen existing one; for an
      existing plan, the resource group parsed from its id by
      `resourceGroupOf` (the `ArmPlanDescriptor` parser). Absent cast objects
      throw. */
  function SelectedResourceGroupString(info: ServerFarmInfo, newFormat: string -> string,
                                       resourceGroupOf: string -> string): (r: Result<string, DisplayError>)
    ensures info.isNewPlan && info.newPlanInfo.isNewResourceGroup ==>
      r == Success(newFormat(info.newPlanInfo.newResourceGroupName))
    ensures info.isNewPlan && !info.newPlanInfo.isNewResourceGroup ==>
      (r.Success? <==> info.newPlanInfo.existingResourceGroup.Some?) &&
      (r.Success? ==> r.value == info.newPlanInfo.existingResourceGroup.value.name)
    ensures !info.isNewPlan ==>
      (r.Success? <==> info.existingPlan.Some?) &&
      (r.Success? ==> r.value == resourceGroupOf(info.existingPlan.value.id))
  {
    if info.isNewPlan then
      if info.newPlanInfo.isNewResourceGroup then
        Success(newFormat(info.newPlanInfo.newResourceGroupName))
      else
        match info.newPlanInfo.existingResourceGroup
        case None => Failure(MissingResourceGroup)
        case Some(group) => Success(group.name)
    else
      match info.existingPlan
      case None => Failure(MissingExistingPlan)
      case Some(plan) => Success(resourceGroupOf(plan.id))
  }

  /** Both display strings read only the branch the form has chosen: for a new
      plan the existing plan is ignored, for an existing plan `newPlanInfo`
      is ignored. */
  lemma DisplayIgnoresOtherBranch(info: ServerFarmInfo, otherPlan: Option<ArmObj>, otherInfo: NewPlanInfo,
                                  newFormat: string -> string, resourceGroupOf: string -> string)
    ensures info.isNewPlan ==>
      SelectedSkuString(info.(existingPlan := otherPlan)) == SelectedSkuString(info) &&
      SelectedResourceGroupString(info.(existingPlan := otherPlan), newFormat, resourceGroupOf) ==
        SelectedResourceGroupString(info, newFormat, resourceGroupOf)
    ensures !info.isNewPlan ==>
      SelectedSkuString(info.(newPlanInfo := otherInfo)) == SelectedSkuString(info) &&
      SelectedResourceGroupString(info.(newPlanInfo := otherInfo), newFormat, resourceGroupOf) ==
        SelectedResourceGroupString(info, newFormat, resourceGroupOf)
  {
  }
}
