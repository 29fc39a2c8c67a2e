# Change-plan dropdowns and Key Vault reference details

A Dafny model of two pieces of the Azure Functions portal front-end:

- **Destination plan details** (`ChangeAppPlanDestinationPlanDetails.tsx`,
  module `PlanDetails`). This builds the dropdown options for App Service
  plans and resource groups from the fetched ARM objects. Each option's key
  is the lower-cased ARM id, its text is the name, its data is the object,
  and only the first option is selected. When a list is still empty after the
  external "add new" step, a selected placeholder for the new plan or new
  resource group goes in front. The module also models the two display
  strings for the chosen pricing tier and resource group.
- **Key Vault reference details** (`KeyVaultReferenceComponent.tsx`, module
  `KeyVaultReferenceDetails`). This derives the vault, secret and
  secret-version URIs from the reference's names. It maps the identity type
  to "User" or "System" and decides which detail labels the panel shows.

Modules `Wrappers` (Option, Result) and `Strings` (ASCII lower-casing, a
first-occurrence search) hold the helpers both use.

`getDropdownOptions` is a loop, so it is modelled as the method
`GetDropdownOptions`. The method is proved against the recursive reference
definition `DropdownOptions`. The two `useMemo` blocks are the methods
`ServerFarmOptions` and `ResourceGroupOptions`. The display derivations are
functions.

Some things come from code outside this model. They are parameters:

- `addNewPlanToOptions` and `addNewRgOption` are an arbitrary `AddOptionStep`.
- the translated `newFormat` format is `newFormat`.
- `ArmPlanDescriptor(...).resourceGroup` is `resourceGroupOf`, a total function. So the model assumes that parsing a plan id never throws. The parser is not part of this model.
- `isKeyVaultReferenceUnResolved` is a boolean.

A cast of an absent object throws a TypeError in the source. In the model it
is a `Failure`. This covers the existing plan, its `sku` and the existing
resource group.

`getDropdownOptions` does not de-duplicate option keys, does not append a
virtual entry, and does not reject malformed records. `KeysNotDeduplicated`
shows two ids that differ only in case giving two options with the same key.

## Model

| member | source | states |
|---|---|---|
| PlanDetails.GetDropdownOptions | client-react/src/pages/app/change-app-plan/ChangeAppPlanDestinationPlanDetails.tsx:208-224 | An absent list gives no options. A present list gives exactly one option per object, in the same order. Option k is built from object k and is selected iff k is 0. The loop's result equals the reference definition `DropdownOptions`. |
| PlanDetails.OptionFor | client-react/src/pages/app/change-app-plan/ChangeAppPlanDestinationPlanDetails.tsx:214-219 | Definition of one option. Its key has the id's length and is already lower-case. Its text is the name, its data is the object, and it is selected as asked. Its use per index is proved in `ProjectAt` and `DropdownOptionsSpec`. |
| PlanDetails.DropdownOptions | client-react/src/pages/app/change-app-plan/ChangeAppPlanDestinationPlanDetails.tsx:208-224 | Reference definition of `getDropdownOptions`. It has no options for an absent list and one per object otherwise. Its properties are proved in `DropdownOptionsSpec`, and the loop is proved equal to it in `GetDropdownOptions`. |
| PlanDetails.Project | client-react/src/pages/app/change-app-plan/ChangeAppPlanDestinationPlanDetails.tsx:211-221 | The reference projection has as many options as there are objects. |
| PlanDetails.ProjectAt | client-react/src/pages/app/change-app-plan/ChangeAppPlanDestinationPlanDetails.tsx:214-219 | Option k of the projection is built from object k. It is selected iff it is the head of a projection started with `first`. |
| PlanDetails.DropdownOptionsSpec | client-react/src/pages/app/change-app-plan/ChangeAppPlanDestinationPlanDetails.tsx:208-224 | An absent input gives the empty list. For a present input, the length is preserved. Each option's key is the lower-cased id, its text is the name and its data is the object. Exactly index 0 is selected. |
| PlanDetails.KeysNotDeduplicated | client-react/src/pages/app/change-app-plan/ChangeAppPlanDestinationPlanDetails.tsx:211-221 | Ids "RG1" and "rg1" yield two options that both have key "rg1". Nothing removes duplicate keys. |
| PlanDetails.NewPlanOption | client-react/src/pages/app/change-app-plan/ChangeAppPlanDestinationPlanDetails.tsx:126-131 | Definition of the new-plan placeholder. It is selected, keyed by the new plan name and carries the NEW_PLAN marker. On its own, it selects only its first option. Its use is proved in `ServerFarmOptions`. |
| PlanDetails.NewResourceGroupOption | client-react/src/pages/app/change-app-plan/ChangeAppPlanDestinationPlanDetails.tsx:142-147 | Definition of the new-group placeholder. It is selected, and its key, text and data are all the new group name. On its own, it selects only its first option. Its use is proved in `ResourceGroupOptions`. |
| PlanDetails.ServerFarmOptions | client-react/src/pages/app/change-app-plan/ChangeAppPlanDestinationPlanDetails.tsx:122-135 | If the new-plan step leaves the list empty, the result is exactly one selected option: key = the new plan name, text = its formatted name, data = the NEW_PLAN marker. A non-empty list is returned unchanged. The result is never empty. If only the first option was selected before the fallback, the same holds after it. |
| PlanDetails.ResourceGroupOptions | client-react/src/pages/app/change-app-plan/ChangeAppPlanDestinationPlanDetails.tsx:137-150 | If the new-group step leaves the list empty, the result is exactly one selected option whose key, text and data are all the new resource-group name. A non-empty list is returned unchanged. The result is never empty. If only the first option was selected before the fallback, the same holds after it. |
| PlanDetails.SkuLabel | client-react/src/pages/app/change-app-plan/ChangeAppPlanDestinationPlanDetails.tsx:82 | Definition of the pricing-tier text. It is the tier, then " (", then the SKU code, then ") ", and its length is the sum of the parts. The inverse is proved in `SkuLabelRoundTrip`. |
| PlanDetails.SelectedSkuString | client-react/src/pages/app/change-app-plan/ChangeAppPlanDestinationPlanDetails.tsx:69-83 | A new plan gives `tier (skuCode) ` from `newPlanInfo`. An existing plan gives the same text from `sku.tier` and `sku.name`. It fails iff the existing plan or its SKU is absent. |
| PlanDetails.SkuLabelRoundTrip | client-react/src/pages/app/change-app-plan/ChangeAppPlanDestinationPlanDetails.tsx:82 | When the tier contains no '(', the pricing-tier text can be read back into exactly its tier and SKU code. |
| PlanDetails.SelectedResourceGroupString | client-react/src/pages/app/change-app-plan/ChangeAppPlanDestinationPlanDetails.tsx:34-46 | For a new plan with a new group, the result is the formatted new group name. For a new plan with an existing group, the result is that group's name, and it fails iff that group is absent. For an existing plan, the result is the group parsed from the plan's id, and it fails iff the plan is absent. |
| PlanDetails.DisplayIgnoresOtherBranch | client-react/src/pages/app/change-app-plan/ChangeAppPlanDestinationPlanDetails.tsx:34-83 | For a new plan, both display strings ignore the existing plan. For an existing plan, both ignore `newPlanInfo`. |
| Strings.Lower | client-react/src/pages/app/change-app-plan/ChangeAppPlanDestinationPlanDetails.tsx:215 | Lower-casing keeps the length and lower-cases each character. |
| Strings.LowerIdempotent | client-react/src/pages/app/app-settings/KeyVaultReferenceComponent.tsx:45 | Lower-casing twice is the same as lower-casing once. |
| KeyVaultReferenceDetails.OrEmpty | client-react/src/pages/app/app-settings/KeyVaultReferenceComponent.tsx:34 | Definition of the destructuring default. An undefined field reads as "" and a defined one as its value. |
| KeyVaultReferenceDetails.IsValidValue | client-react/src/pages/app/app-settings/KeyVaultReferenceComponent.tsx:40-42 | A value is valid iff it is non-empty. |
| KeyVaultReferenceDetails.VaultNameUri | client-react/src/pages/app/app-settings/KeyVaultReferenceComponent.tsx:52 | The result is empty iff the vault name is empty. Otherwise it is `https://<vault>.vault.azure.net/`. |
| KeyVaultReferenceDetails.VaultNameUriInjective | client-react/src/pages/app/app-settings/KeyVaultReferenceComponent.tsx:52 | Distinct vault names give distinct vault URIs. |
| KeyVaultReferenceDetails.SecretNameUri | client-react/src/pages/app/app-settings/KeyVaultReferenceComponent.tsx:53 | The result is empty iff the secret name is empty. Otherwise it is the vault URI followed by `secrets/<secret>/`. |
| KeyVaultReferenceDetails.SecretNameUriExtendsVaultUri | client-react/src/pages/app/app-settings/KeyVaultReferenceComponent.tsx:52-53 | When both names are non-empty, the secret URI has the vault URI as a prefix. Its full form is `https://<vault>.vault.azure.net/secrets/<secret>/`. |
| KeyVaultReferenceDetails.SecretNameUriWithoutVault | client-react/src/pages/app/app-settings/KeyVaultReferenceComponent.tsx:52-53 | With an empty vault name and a non-empty secret name, the secret URI is the relative `secrets/<secret>/`. |
| KeyVaultReferenceDetails.SecretVersionUriAsWritten | client-react/src/pages/app/app-settings/KeyVaultReferenceComponent.tsx:54 | The result is empty iff the version is empty. Otherwise it is the secret URI, then '/', then the version. |
| KeyVaultReferenceDetails.AsWrittenVersionUriHasDoubleSlash | client-react/src/pages/app/app-settings/KeyVaultReferenceComponent.tsx:53-54 | For a non-empty secret name and version, with any vault name, the version URI has '/' at both the last position of the secret URI and the next one. It differs from the secret's Key Vault identifier. |
| KeyVaultReferenceDetails.AsWrittenVersionUriExample | client-react/src/pages/app/app-settings/KeyVaultReferenceComponent.tsx:52-54 | Vault "v", secret "s" and version "1" give `https://v.vault.azure.net/secrets/s//1`. |
| KeyVaultReferenceDetails.SecretVersionUri | client-react/src/pages/app/app-settings/KeyVaultReferenceComponent.tsx:54 | Corrected form: the result is empty iff the version is empty. Otherwise it is the secret URI directly followed by the version. |
| KeyVaultReferenceDetails.NoDoubleSlashConcat | client-react/src/pages/app/app-settings/KeyVaultReferenceComponent.tsx:52-54 | Joining two strings without "//" gives a string without "//", unless the join itself creates one. |
| KeyVaultReferenceDetails.VersionUriIsSecretIdentifier | client-react/src/pages/app/app-settings/KeyVaultReferenceComponent.tsx:52-54 | For a full reference whose names contain no '/', the corrected version URI is `https://<vault>.vault.azure.net/secrets/<secret>/<version>`. After the scheme it contains no "//". |
| KeyVaultReferenceDetails.IdentityValue | client-react/src/pages/app/app-settings/KeyVaultReferenceComponent.tsx:44-46 | The result is "User" or "System". It is "User" iff the lower-cased identity type is "userassigned". |
| KeyVaultReferenceDetails.IdentityValueIgnoresCase | client-react/src/pages/app/app-settings/KeyVaultReferenceComponent.tsx:45 | Lower-casing the identity type first does not change the wording. |
| KeyVaultReferenceDetails.IdentityText | client-react/src/pages/app/app-settings/KeyVaultReferenceComponent.tsx:182 | Definition of the identity label's text. It is "User assigned managed identity" iff the lower-cased identity type is "userassigned", and "System assigned managed identity" otherwise. Its use is proved in `IdentityLabelShown`. |
| KeyVaultReferenceDetails.DetailLabels | client-react/src/pages/app/app-settings/KeyVaultReferenceComponent.tsx:141-187 | Definition of the rendered label list. It has at most six labels, and the status label is last or just before the error details. Its properties are proved in `VaultNameLabelShown`, `SecretNameLabelShown`, `SecretVersionLabelShown`, `IdentityLabelShown` and `StatusAndErrorLabelsShown`. |
| KeyVaultReferenceDetails.VaultNameLabelShown | client-react/src/pages/app/app-settings/KeyVaultReferenceComponent.tsx:142-154 | A vault-name label is shown iff the vault name is valid. Any such label shows that name. |
| KeyVaultReferenceDetails.SecretNameLabelShown | client-react/src/pages/app/app-settings/KeyVaultReferenceComponent.tsx:155-167 | A secret-name label is shown iff the secret name is valid. Any such label shows that name. |
| KeyVaultReferenceDetails.SecretVersionLabelShown | client-react/src/pages/app/app-settings/KeyVaultReferenceComponent.tsx:168-180 | A secret-version label is shown iff the version is valid. Any such label shows that version. |
| KeyVaultReferenceDetails.IdentityLabelShown | client-react/src/pages/app/app-settings/KeyVaultReferenceComponent.tsx:181-183 | An identity label is shown iff the identity type is valid. It reads `<User or System> assigned managed identity`. |
| KeyVaultReferenceDetails.StatusAndErrorLabelsShown | client-react/src/pages/app/app-settings/KeyVaultReferenceComponent.tsx:184-187 | The status label is always shown. An error-details label is shown iff the reference is unresolved, and then it is the last label. |

## Findings

| source | as written | input that shows it | evidently intended | confidence | as-written member | corrected member |
|---|---|---|---|---|---|---|
| client-react/src/pages/app/app-settings/KeyVaultReferenceComponent.tsx:53-54 | `secretVersionUri` adds '/' after `secretNameUri`, which already ends in '/'. | vault "v", secret "s", version "1" give `https://v.vault.azure.net/secrets/s//1` | the secret version's Key Vault identifier `https://v.vault.azure.net/secrets/s/1` | medium, not executed | KeyVaultReferenceDetails.AsWrittenVersionUriHasDoubleSlash | KeyVaultReferenceDetails.VersionUriIsSecretIdentifier |

## Left out

- `addNewPlanToOptions`, `addNewRgOption`, `ArmPlanDescriptor`, `ArmSubcriptionDescriptor`, `getKeyVaultReferenceStatus`, `isKeyVaultReferenceUnResolved`, `getKeyVaultReferenceStatusIconProps` and `Url.getScmUrl` are defined in files that are not part of this model. They are parameters, or are left out.
- The add step mutates the option array in place. Here it returns the new list. The array is local to the memo, so no aliasing is lost.
- Strings.Lower: `toLowerCase` (the option keys) maps the full Unicode range, independent of the locale. The model maps only ASCII 'A'..'Z'.
- KeyVaultReferenceDetails.IdentityValue: `toLocaleLowerCase` also depends on the host locale, and the model ignores this. In a Turkish locale "USERASSIGNED" lower-cases to "userassıgned" (dotless i), so the source shows "System" where the model gives "User".
- The translated texts (`t(...)`, `.format`) are a parameter or left out. So are the JSX rendering, styles, the theme and the `enableFunctionsDynamicToPremium` feature flag.
- The status label's content is not modelled. It depends on `getKeyVaultReferenceStatus` and the site's SCM URL. The model keeps only its presence and position.
- The async work is not modelled: `openSpecPicker`, `openBlade`, `fetchKeyVaultData` / `KeyVaultService.fetchKeyVaultReference`, the click handlers and `setFieldValue`. The `useEffect` / `useState` loading flow is left out too, including the empty render while loading.
- `null` fields (as opposed to `undefined`) are not modelled. The destructuring defaults apply only to `undefined`.
- `getPricingTierValue` only wraps `getSelectedSkuString` in a link or a span. It is left out with the rendering.
- `DropDown.tsx` (form-library binding) and `telemetry.service.ts` (a call into a global analytics library) are not part of this model.
