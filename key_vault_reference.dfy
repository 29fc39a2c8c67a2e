/** The Key Vault reference panel of an app setting: the three vault URIs
    derived from the reference's names, the identity wording, and which
    detail labels the panel shows. */
module KeyVaultReferenceDetails {
  import opened Wrappers
  import opened Strings

  /** The fields of a `KeyVaultReference` the panel reads; `None` is an
      `undefined` field. */
  datatype KeyVaultReference = KeyVaultReference(
    status: string,
    vaultName: Option<string>,
    secretName: Option<string>,
    secretVersion: Option<string>,
    details: Option<string>,
    identityType: Option<string>)

  /** The labels of the details panel, in the order they are rendered. The
      status label's content comes from helpers defined elsewhere. */
  datatype DetailLabel =
    | VaultNameLabel(vaultName: string)
    | SecretNameLabel(secretName: string)
    | SecretVersionLabel(secretVersion: string)
    | IdentityLabel(identity: string)
    | StatusLabel
    | ErrorDetailsLabel(details: Option<string>)

  /** A destructured field with its `''` default. */
  function OrEmpty(field: Option<string>): (value: string)
    ensures field.None? ==> value == ""
    ensures field.Some? ==> value == field.value
  {
    field.GetOr("")
  }

  /** `isValidValue`: a non-empty string. */
  function IsValidValue(value: string): (valid: bool)
    ensures valid <==> value != ""
  {
    |value| > 0
  }

  // ---------------------------------------------------------------------
  // vaultNameUri / secretNameUri / secretVersionUri

  /** `vaultNameUri`. */
  function VaultNameUri(vaultName: string): (uri: string)
    ensures uri == "" <==> vaultName == ""
    ensures vaultName != "" ==> uri == "https://" + vaultName + ".vault.azure.net/"
  {
    if vaultName != "" then "https://" + vaultName + ".vault.azure.net/" else ""
  }

  /** `secretNameUri`, built on whatever `vaultNameUri` is, even when empty. */
  function SecretNameUri(vaultNameUri: string, secretName: string): (uri: string)
    ensures uri == "" <==> secretName == ""
    ensures secretName != "" ==> uri == vaultNameUri + "secrets/" + secretName + "/"
  {
    if secretName != "" then vaultNameUri + "secrets/" + secretName + "/" else ""
  }

  /** `secretVersionUri` as the source writes it: a '/' is added after
      `secretNameUri`, which already ends in '/'. */
  function SecretVersionUriAsWritten(secretNameUri: string, secretVersion: string): (uri: string)
    ensures uri == "" <==> secretVersion == ""
    ensures secretVersion != "" ==> uri == secretNameUri + "/" + secretVersion
  {
    if secretVersion != "" then secretNameUri + "/" + secretVersion else ""
  }

  /** `secretVersionUri` as evidently intended: the version directly after
      `secretNameUri`. */
  function SecretVersionUri(secretNameUri: string, secretVersion: string): (uri: string)
    ensures uri == "" <==> secretVersion == ""
    ensures secretVersion != "" ==> uri == secretNameUri + secretVersion
  {
    if secretVersion != "" then secretNameUri + secretVersion else ""
  }

  /** The Key Vault identifier of one version of a secret. */
  function SecretIdentifier(vaultName: string, secretName: string, secretVersion: string): string {
    "https://" + vaultName + ".vault.azure.net/secrets/" + secretName + "/" + secretVersion
  }

  /** Distinct vault names give distinct vault URIs. */
  lemma VaultNameUriInjective(a: string, b: string)
    requires VaultNameUri(a) == VaultNameUri(b)
    ensures a == b
  {
    if a != "" {
      var uri := VaultNameUri(a);
      assert |a| == |b|;
      assert a == uri[8..8 + |a|];
      assert b == uri[8..8 + |b|];
    }
  }

  /** With both names present, the secret URI extends the vault URI. */
  lemma SecretNameUriExtendsVaultUri(vaultName: string, secretName: string)
    requires vaultName != "" && secretName != ""
    ensures var vaultUri := VaultNameUri(vaultName);
      var secretUri := SecretNameUri(vaultUri, secretName);
      vaultUri <= secretUri &&
      secretUri == "https://" + vaultName + ".vault.azure.net/secrets/" + secretName + "/"
  {
    var vaultUri := VaultNameUri(vaultName);
    var secretUri := SecretNameUri(vaultUri, secretName);
    assert secretUri == vaultUri + ("secrets/" + secretName + "/");
  }

  /** Without a vault name, the secret URI is the relative path alone. */
  lemma SecretNameUriWithoutVault(secretName: string)
    requires secretName != ""
    ensures SecretNameUri(VaultNameUri(""), secretName) == "secrets/" + secretName + "/"
  {
  }

  /** As written, a non-empty secret name and version give a version URI
      with "//" between the secret name and the version, whatever the vault
      name, and it is not the secret's identifier. */
  lemma AsWrittenVersionUriHasDoubleSlash(vaultName: string, secretName: string, secretVersion: string)
    requires secretName != "" && secretVersion != ""
    ensures var secretUri := SecretNameUri(VaultNameUri(vaultName), secretName);
      var uri := SecretVersionUriAsWritten(secretUri, secretVersion);
      uri[|secretUri| - 1] == '/' && uri[|secretUri|] == '/' &&
      uri != SecretIdentifier(vaultName, secretName, secretVersion)
  {
    var secretUri := SecretNameUri(VaultNameUri(vaultName), secretName);
    var uri := SecretVersionUriAsWritten(secretUri, secretVersion);
    if vaultName != "" {
      assert |uri| == |SecretIdentifier(vaultName, secretName, secretVersion)| + 1;
    } else {
      assert |uri| + 24 == |SecretIdentifier(vaultName, secretName, secretVersion)|;
    }
  }

  /** A concrete reference exhibiting the doubled slash. */
  lemma AsWrittenVersionUriExample()
    ensures SecretVersionUriAsWritten(SecretNameUri(VaultNameUri("v"), "s"), "1") ==
      "https://v.vault.azure.net/secrets/s//1"
  {
    var vaultUri := VaultNameUri("v");
    assert vaultUri == "https://v.vault.azure.net/";
    var secretUri := SecretNameUri(vaultUri, "s");
    assert secretUri == "https://v.vault.azure.net/secrets/s/";
    assert SecretVersionUriAsWritten(secretUri, "1") == secretUri + "/" + "1";
  }

  /** No two '/' in a row. */
  predicate NoDoubleSlash(s: string) {
    forall i :: 0 <= i < |s| - 1 ==> !(s[i] == '/' && s[i + 1] == '/')
  }

  lemma NoDoubleSlashConcat(a: string, b: string)
    requires NoDoubleSlash(a) && NoDoubleSlash(b)
    requires a == [] || b == [] || !(a[|a| - 1] == '/' && b[0] == '/')
    ensures NoDoubleSlash(a + b)
  {
    var s := a + b;
    forall i | 0 <= i < |s| - 1
      ensures !(s[i] == '/' && s[i + 1] == '/')
    {
      if i + 1 < |a| {
        assert s[i] == a[i] && s[i + 1] == a[i + 1];
      } else if i >= |a| {
        assert s[i] == b[i - |a|] && s[i + 1] == b[i + 1 - |a|];
      }
    }
  }

  /** The corrected version URI of a full reference is the secret's
      identifier, and past the scheme it has no doubled slash. */
  lemma VersionUriIsSecretIdentifier(vaultName: string, secretName: string, secretVersion: string)
    requires vaultName != "" && secretName != "" && secretVersion != ""
    requires '/' !in vaultName && '/' !in secretName && '/' !in secretVersion
    ensures var uri := SecretVersionUri(SecretNameUri(VaultNameUri(vaultName), secretName), secretVersion);
      uri == SecretIdentifier(vaultName, secretName, secretVersion) &&
      NoDoubleSlash(uri[8..])
  {
    var uri := SecretVersionUri(SecretNameUri(VaultNameUri(vaultName), secretName), secretVersion);
    var host := ".vault.azure.net/secrets/";
    var tail := uri[8..];
    assert tail == vaultName + host + secretName + "/" + secretVersion;
    assert NoDoubleSlash(host);
    NoDoubleSlashConcat(vaultName, host);
    NoDoubleSlashConcat(vaultName + host, secretName);
    NoDoubleSlashConcat(vaultName + host + secretName, "/");
    NoDoubleSlashConcat(vaultName + host + secretName + "/", secretVersion);
  }

  // ---------------------------------------------------------------------
  // getIdentityValue and the detail labels

  /** `getIdentityValue`: "User" for a user-assigned identity, in any letter
      case, and "System" for every other value. */
  function IdentityValue(identityType: string): (who: string)
    ensures who == "User" || who == "System"
    ensures who == "User" <==> Lower(identityType) == "userassigned"
  {
    if Lower(identityType) == "userassigned" then "User" else "System"
  }

  /** The identity wording ignores letter case. */
  lemma IdentityValueIgnoresCase(identityType: string)
    ensures IdentityValue(Lower(identityType)) == IdentityValue(identityType)
  {
    LowerIdempotent(identityType);
  }

  /** The identity label's text. */
  function IdentityText(identityType: string): (text: string)
    ensures text == "User assigned managed identity" || text == "System assigned managed identity"
    ensures text == "User assigned managed identity" <==> Lower(identityType) == "userassigned"
  {
    IdentityValue(identityType) + " assigned managed identity"
  }

  /** One conditionally rendered label: `show && <label />`. */
  function Shown(show: bool, item: DetailLabel): seq<DetailLabel> {
    if show then [item] else []
  }

  /** The labels of the details panel once loading is over; `unresolved` is
      what `isKeyVaultReferenceUnResolved` (defined elsewhere) answers. */
  function DetailLabels(reference: KeyVaultReference, unresolved: bool): (labels: seq<DetailLabel>)
    ensures (if unresolved then 2 else 1) <= |labels| <= 6
    ensures labels[|labels| - (if unresolved then 2 else 1)] == StatusLabel
  {
    var vaultName := OrEmpty(reference.vaultName);
    var secretName := OrEmpty(reference.secretName);
    var secretVersion := OrEmpty(reference.secretVersion);
    var identityType := OrEmpty(reference.identityType);
    Shown(IsValidValue(vaultName), VaultNameLabel(vaultName)) +
    Shown(IsValidValue(secretName), SecretNameLabel(secretName)) +
    Shown(IsValidValue(secretVersion), SecretVersionLabel(secretVersion)) +
    Shown(IsValidValue(identityType), IdentityLabel(IdentityText(identityType))) +
    [StatusLabel] +
    Shown(unresolved, ErrorDetailsLabel(reference.details))
  }

  /** The segments of the label list, one per conditionally rendered label. */
  function VaultSegment(reference: KeyVaultReference): seq<DetailLabel> {
    Shown(IsValidValue(OrEmpty(reference.vaultName)), VaultNameLabel(OrEmpty(reference.vaultName)))
  }

  function SecretSegment(reference: KeyVaultReference): seq<DetailLabel> {
    Shown(IsValidValue(OrEmpty(reference.secretName)), SecretNameLabel(OrEmpty(reference.secretName)))
  }

  function VersionSegment(reference: KeyVaultReference): seq<DetailLabel> {
    Shown(IsValidValue(OrEmpty(reference.secretVersion)), SecretVersionLabel(OrEmpty(reference.secretVersion)))
  }

  function IdentitySegment(reference: KeyVaultReference): seq<DetailLabel> {
    Shown(IsValidValue(OrEmpty(reference.identityType)), IdentityLabel(IdentityText(OrEmpty(reference.identityType))))
  }

  function ErrorSegment(reference: KeyVaultReference, unresolved: bool): seq<DetailLabel> {
    Shown(unresolved, ErrorDetailsLabel(reference.details))
  }

  /** The label list, cut into its segments. */
  lemma DetailLabelsSegments(reference: KeyVaultReference, unresolved: bool)
    ensures DetailLabels(reference, unresolved) ==
      VaultSegment(reference) + SecretSegment(reference) + VersionSegment(reference) +
      IdentitySegment(reference) + [StatusLabel] + ErrorSegment(reference, unresolved)
  {
  }

  /** The vault-name label is shown exactly when the vault name is a valid
      value, and then shows that name. */
  lemma VaultNameLabelShown(reference: KeyVaultReference, unresolved: bool)
    ensures var labels := DetailLabels(reference, unresolved);
      (exists l :: l in labels && l.VaultNameLabel?) <==> IsValidValue(OrEmpty(reference.vaultName))
    ensures forall l :: l in DetailLabels(reference, unresolved) && l.VaultNameLabel? ==>
      l == VaultNameLabel(OrEmpty(reference.vaultName))
  {
    DetailLabelsSegments(reference, unresolved);
    var labels := DetailLabels(reference, unresolved);
    forall l | l in labels && l.VaultNameLabel?
      ensures l in VaultSegment(reference) && l == VaultNameLabel(OrEmpty(reference.vaultName))
    {
    }
    if IsValidValue(OrEmpty(reference.vaultName)) {
      assert VaultNameLabel(OrEmpty(reference.vaultName)) in VaultSegment(reference);
      assert VaultNameLabel(OrEmpty(reference.vaultName)) in labels;
    }
  }

  /** The secret-name label is shown exactly when the secret name is a valid
      value, and then shows that name. */
  lemma SecretNameLabelShown(reference: KeyVaultReference, unresolved: bool)
    ensures var labels := DetailLabels(reference, unresolved);
      (exists l :: l in labels && l.SecretNameLabel?) <==> IsValidValue(OrEmpty(reference.secretName))
    ensures forall l :: l in DetailLabels(reference, unresolved) && l.SecretNameLabel? ==>
      l == SecretNameLabel(OrEmpty(reference.secretName))
  {
    DetailLabelsSegments(reference, unresolved);
    var labels := DetailLabels(reference, unresolved);
    forall l | l in labels && l.SecretNameLabel?
      ensures l in SecretSegment(reference) && l == SecretNameLabel(OrEmpty(reference.secretName))
    {
    }
    if IsValidValue(OrEmpty(reference.secretName)) {
      assert SecretNameLabel(OrEmpty(reference.secretName)) in SecretSegment(reference);
      assert SecretNameLabel(OrEmpty(reference.secretName)) in labels;
    }
  }

  /** The secret-version label is shown exactly when the secret version is a
      valid value, and then shows that version. */
  lemma SecretVersionLabelShown(reference: KeyVaultReference, unresolved: bool)
    ensures var labels := DetailLabels(reference, unresolved);
      (exists l :: l in labels && l.SecretVersionLabel?) <==> IsValidValue(OrEmpty(reference.secretVersion))
    ensures forall l :: l in DetailLabels(reference, unresolved) && l.SecretVersionLabel? ==>
      l == SecretVersionLabel(OrEmpty(reference.secretVersion))
  {
    DetailLabelsSegments(reference, unresolved);
    var labels := DetailLabels(reference, unresolved);
    forall l | l in labels && l.SecretVersionLabel?
      ensures l in VersionSegment(reference) && l == SecretVersionLabel(OrEmpty(reference.secretVersion))
    {
    }
    if IsValidValue(OrEmpty(reference.secretVersion)) {
      assert SecretVersionLabel(OrEmpty(reference.secretVersion)) in VersionSegment(reference);
      assert SecretVersionLabel(OrEmpty(reference.secretVersion)) in labels;
    }
  }

  /** The identity label is shown exactly when the identity type is a valid
      value, and then shows the identity wording. */
  lemma IdentityLabelShown(reference: KeyVaultReference, unresolved: bool)
    ensures var labels := DetailLabels(reference, unresolved);
      (exists l :: l in labels && l.IdentityLabel?) <==> IsValidValue(OrEmpty(reference.identityType))
    ensures forall l :: l in DetailLabels(reference, unresolved) && l.IdentityLabel? ==>
      l == IdentityLabel(IdentityText(OrEmpty(reference.identityType)))
  {
    DetailLabelsSegments(reference, unresolved);
    var labels := DetailLabels(reference, unresolved);
    forall l | l in labels && l.IdentityLabel?
      ensures l in IdentitySegment(reference) && l == IdentityLabel(IdentityText(OrEmpty(reference.identityType)))
    {
    }
    if IsValidValue(OrEmpty(reference.identityType)) {
      assert IdentityLabel(IdentityText(OrEmpty(reference.identityType))) in IdentitySegment(reference);
      assert IdentityLabel(IdentityText(OrEmpty(reference.identityType))) in labels;
    }
  }

  /** The status label is always shown; the error details exactly when the
      reference is unresolved, as the last label. */
  lemma StatusAndErrorLabelsShown(reference: KeyVaultReference, unresolved: bool)
    ensures StatusLabel in DetailLabels(reference, unresolved)
    ensures var labels := DetailLabels(reference, unresolved);
      (exists l :: l in labels && l.ErrorDetailsLabel?) <==> unresolved
    ensures unresolved ==>
      var labels := DetailLabels(reference, unresolved);
      labels[|labels| - 1] == ErrorDetailsLabel(reference.details)
  {
    var labels := DetailLabels(reference, unresolved);
    if unresolved {
      assert labels[|labels| - 1] == ErrorDetailsLabel(reference.details);
    }
  }
}
