/** The manifest as the program builds it, step by step, and the one query that consults
    the graphing policy again when it runs. */
module Registry {
  import opened Wrappers
  import opened NavTypes
  import opened CategoryManifest
  import opened NavCategory
  import opened GraphingPolicy
  import ManifestProperties
  import NavCategoryGroups

  /** Builds the manifest as the static initializer does: Standard and Scientific, then
      Graphing when the platform has it (asking the policy for its enabled flag), then the
      rest, numbering the access keys of Programmer and Date from `currentIndex`. The
      result is the reference manifest for the policy answer the build obtained. */
  method BuildManifest(policy: GraphingModePolicy, registryRead: Option<uint32>) returns (res: seq<Descriptor>)
    modifies policy
    ensures res == Manifest(policy.available, Evaluate(policy.available, old(policy.cached), registryRead).enabled)
    ensures policy.cached == Evaluate(policy.available, old(policy.cached), registryRead).cache
  {
    var calculators := [StandardEntry, ScientificEntry];
    var currentIndex: nat := 3;
    var supportGraphingCalculator := policy.available;
    ghost var enabled := false;
    if supportGraphingCalculator {
      var isEnabled := policy.IsGraphingModeEnabled(registryRead);
      enabled := isEnabled;
      calculators := calculators + [GraphingEntry(isEnabled)];
      currentIndex := currentIndex + 1;
    }
    var programmerAccessKey := DecimalString(currentIndex);
    currentIndex := currentIndex + 1;
    var dateAccessKey := DecimalString(currentIndex);
    currentIndex := currentIndex + 1;
    DecimalDigits();
    calculators := calculators
      + [ProgrammerEntry(if supportGraphingCalculator then Number4 else Number3, programmerAccessKey),
         DateEntry(if supportGraphingCalculator then Number5 else Number4, dateAccessKey)];
    assert calculators == CalculatorEntries(policy.available, enabled);
    res := calculators + ConverterEntries;
  }

  /** The category registry of one process: the policy cache and the manifest built once. */
  class NavCategoryRegistry {
    const policy: GraphingModePolicy
    const manifest: seq<Descriptor>

    /** The manifest is the reference one for the platform probe and the cached policy
        answer, which the build has filled in whenever graphing is available. */
    ghost predicate Valid()
      reads this, policy
      ensures Valid() ==> (policy.available ==> policy.cached.Some?)
      ensures Valid() ==> |manifest| == CalculatorCount(policy.available) + 13 && manifest[0] == StandardEntry
    {
      && (policy.available ==> policy.cached.Some?)
      && manifest == Manifest(policy.available, GraphingEnabled())
    }

    /** What IsGraphingModeEnabled answers once the cache is filled. */
    ghost function GraphingEnabled(): (enabled: bool)
      reads this, policy
      ensures enabled ==> policy.available
    {
      policy.available && policy.cached == Some(true)
    }

    constructor (policy: GraphingModePolicy, registryRead: Option<uint32>)
      modifies policy
      ensures this.policy == policy && Valid()
      ensures policy.cached == Evaluate(policy.available, old(policy.cached), registryRead).cache
    {
      var built := BuildManifest(policy, registryRead);
      this.policy := policy;
      manifest := built;
    }

    /** Deserialize as the program runs it: the id lookup, and for Graphing a fresh call of
        the policy check, which the filled cache answers. */
    method Deserialize(obj: Option<int>, registryRead: Option<uint32>) returns (mode: ViewMode)
      requires Valid()
      modifies policy
      ensures policy.cached == old(policy.cached) && Valid()
      ensures mode == NavCategory.Deserialize(manifest, obj, GraphingEnabled())
      ensures mode == match obj
                      case None => ViewMode.None
                      case Some(id) =>
                        var found := ModeOfId(id);
                        if InManifest(policy.available, found) && (found != Graphing || GraphingEnabled())
                        then found else ViewMode.None
    {
      ManifestProperties.DeserializeManifest(policy.available, GraphingEnabled(), obj, GraphingEnabled());
      mode := ViewMode.None;
      if obj.Some? {
        var serializationId := obj.value;
        var found := FindId(manifest, serializationId);
        if found.Some? {
          var entry := manifest[found.value];
          if entry.viewMode == Graphing {
            var enabled := policy.IsGraphingModeEnabled(registryRead);
            if !enabled {
              return ViewMode.None;
            }
          }
          mode := entry.viewMode;
        }
      }
    }

    /** The navigation menu built from this registry's manifest, as the static list is read
        by the group constructor. */
    method CreateMenuOptions(loc: NavCategoryGroups.Localizer) returns (menuOptions: seq<NavCategoryGroups.NavCategoryGroup>)
      requires Valid()
      ensures |menuOptions| == 2 && fresh(menuOptions[0]) && fresh(menuOptions[1])
      ensures menuOptions[0].groupType == Calculator && menuOptions[1].groupType == Converter
      ensures menuOptions[0].categories == NavCategoryGroups.GroupItems(loc, manifest, NavCategoryGroups.CalculatorGroupInitializer)
      ensures menuOptions[1].categories == NavCategoryGroups.GroupItems(loc, manifest, NavCategoryGroups.ConverterGroupInitializer)
      ensures |menuOptions[0].categories| == CalculatorCount(policy.available) && |menuOptions[1].categories| == 13
    {
      menuOptions := NavCategoryGroups.CreateMenuOptions(loc, manifest);
      NavCategoryGroups.MenuItemsOfManifest(loc, policy.available, GraphingEnabled());
    }
  }
}
