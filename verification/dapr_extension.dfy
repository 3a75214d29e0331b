/**
 * The `Microsoft.Dapr` handler of the Kubernetes-extension CLI: the rules it
 * applies to the configuration settings when an extension is created or
 * updated, and the extension records it builds.
 *
 * The source mutates the caller's settings dictionary in place and puts that
 * same dictionary into the record it returns. Here settings are values: each
 * method returns the record, whose settings map is the dictionary's new
 * content.
 */
module DaprExtension {
  import opened Wrappers
  import opened PyStrings

  /** Where the extension is installed, passed through unchanged. */
  datatype Scope = ClusterScope(releaseNamespace: Option<string>) | NamespaceScope(targetNamespace: Option<string>)

  /** A managed identity for the extension. */
  datatype Identity = Identity(kind: string)

  /** The SDK's `Extension` model, as a record of the fields this handler sets. */
  datatype Extension = Extension(
    extensionType: string,
    autoUpgradeMinorVersion: Option<bool>,
    releaseTrain: Option<string>,
    version: Option<string>,
    scope: Scope,
    configurationSettings: map<string, string>,
    configurationProtectedSettings: Option<map<string, string>>,
    identity: Option<Identity>,
    location: string)

  /** The SDK's `PatchExtension` model. */
  datatype PatchExtension = PatchExtension(
    autoUpgradeMinorVersion: Option<bool>,
    releaseTrain: Option<string>,
    version: Option<string>,
    configurationSettings: Option<map<string, string>>,
    configurationProtectedSettings: Option<map<string, string>>)

  /** The handler's `CLUSTER_TYPE` constant. */
  const ClusterTypeKey: string := "global.clusterType"
  const ManagedClusters: string := "managedclusters"
  const ApplyCrdsKey: string := "hooks.applyCrds"

  /** A cluster type that `Create` treats as a managed cluster: empty, or `managedclusters` in any letter case. */
  predicate NamesManagedClusters(clusterType: string)
  {
    clusterType == "" || IsCaseVariantOf(clusterType, ManagedClusters)
  }

  /**
   * `Dapr.Create`: normalise the cluster-type setting for managed clusters and
   * build the extension record. Returns the record, the extension name and
   * whether an identity is to be created.
   */
  method Create(name: string, clusterType: string, extensionType: string, scope: Scope,
                autoUpgradeMinorVersion: Option<bool>, releaseTrain: Option<string>, version: Option<string>,
                configurationSettings: map<string, string>,
                configurationProtectedSettings: Option<map<string, string>>)
    returns (extension: Extension, extensionName: string, createIdentity: bool)
    ensures extensionName == name && !createIdentity
    ensures extension == Extension(extensionType, autoUpgradeMinorVersion, releaseTrain, version, scope,
                                   extension.configurationSettings, configurationProtectedSettings, None, "")
    ensures NamesManagedClusters(clusterType) ==>
      extension.configurationSettings == configurationSettings[ClusterTypeKey := ManagedClusters]
    ensures !NamesManagedClusters(clusterType) ==>
      extension.configurationSettings == configurationSettings
  {
    LowerEqualsWordIffCaseVariant(clusterType, ManagedClusters);
    var settings := configurationSettings;
    if Lower(clusterType) == "" || Lower(clusterType) == ManagedClusters {
      settings := settings[ClusterTypeKey := ManagedClusters];
    }
    createIdentity := false;
    extension := Extension(extensionType, autoUpgradeMinorVersion, releaseTrain, version, scope,
                           settings, configurationProtectedSettings, None, "");
    extensionName := name;
  }

  /**
   * The downgrade test of `Update`: both versions present and non-empty, and
   * the new one below the original in Python's string order.
   */
  predicate IsDowngrade(version: Option<string>, originalVersion: Option<string>)
  {
    && originalVersion.Some? && originalVersion.value != ""
    && version.Some? && version.value != ""
    && PyStrLess(version.value, originalVersion.value)
  }

  /**
   * `Dapr.Update`: force `hooks.applyCrds` to `false` on a downgrade and to
   * `true` otherwise, leave every other setting as it was, and pass the other
   * fields through into the patch.
   */
  method Update(autoUpgradeMinorVersion: Option<bool>, releaseTrain: Option<string>, version: Option<string>,
                configurationSettings: Option<map<string, string>>,
                configurationProtectedSettings: Option<map<string, string>>, originalExtension: Extension)
    returns (patch: PatchExtension)
    ensures patch.autoUpgradeMinorVersion == autoUpgradeMinorVersion
    ensures patch.releaseTrain == releaseTrain && patch.version == version
    ensures patch.configurationProtectedSettings == configurationProtectedSettings
    ensures patch.configurationSettings.Some?
    ensures var before := if configurationSettings.None? then map[] else configurationSettings.value;
      var after := patch.configurationSettings.value;
      && after.Keys == before.Keys + {ApplyCrdsKey}
      && (forall k :: k in before && k != ApplyCrdsKey ==> after[k] == before[k])
      && (after[ApplyCrdsKey] == "false" <==> IsDowngrade(version, originalExtension.version))
      && (after[ApplyCrdsKey] == "true" <==> !IsDowngrade(version, originalExtension.version))
  {
    var inputConfigurationSettings := configurationSettings;

    var settings := configurationSettings;
    if settings.None? {
      settings := Some(map[]);
    }

    var originalVersion := originalExtension.version;
    if IsDowngrade(version, originalVersion) {
      settings := Some(settings.value[ApplyCrdsKey := "false"]);
    } else {
      settings := Some(settings.value[ApplyCrdsKey := "true"]);
    }

    // Restoring the input when the map is empty cannot happen: the hook key was just set.
    if |settings.value| == 0 {
      assert false;
      settings := inputConfigurationSettings;
    }

    patch := PatchExtension(autoUpgradeMinorVersion, releaseTrain, version, settings, configurationProtectedSettings);
  }

  // ---------------------------------------------------------------------------
  // Properties of the downgrade test

  /** The test is lexicographic, not by version number: `1.9.0` to `1.10.0` counts as a downgrade. */
  lemma LexicographicNotSemantic()
    ensures IsDowngrade(Some("1.10.0"), Some("1.9.0"))
    ensures !IsDowngrade(Some("1.9.0"), Some("1.10.0"))
  {
  }

  /** Updating to the version already installed is never a downgrade. */
  lemma SameVersionIsNotDowngrade(version: Option<string>)
    ensures !IsDowngrade(version, version)
  {
    if version.Some? {
      PyStrLessIrreflexive(version.value);
    }
  }

  /**
   * Between two distinct non-empty versions exactly one direction is a
   * downgrade, so undoing a downgrade is never itself a downgrade.
   */
  lemma ExactlyOneDirectionIsDowngrade(a: string, b: string)
    requires a != "" && b != "" && a != b
    ensures IsDowngrade(Some(a), Some(b)) != IsDowngrade(Some(b), Some(a))
  {
    PyStrLessTrichotomy(a, b);
  }

  /** A downgrade followed by a downgrade is a downgrade from the first version. */
  lemma DowngradesCompose(a: Option<string>, b: Option<string>, c: Option<string>)
    requires IsDowngrade(b, a) && IsDowngrade(c, b)
    ensures IsDowngrade(c, a)
  {
    PyStrLessTransitive(c.value, b.value, a.value);
  }
}
