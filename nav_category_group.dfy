/** The two menu groups: each one holds the manifest entries of its type, in manifest
    order, turned into menu items with localized names. */
module NavCategoryGroups {
  import opened Wrappers
  import opened NavTypes
  import opened CategoryManifest
  import opened NavCategory

  /** What a group is built from: its type and the resource keys of its header, of the mode
      label its items carry and of its automation name. */
  datatype GroupInitializer = GroupInitializer(
    groupType: CategoryGroupType,
    headerResourceKey: string,
    modeResourceKey: string,
    automationResourceKey: string)

  const CalculatorGroupInitializer: GroupInitializer :=
    GroupInitializer(Calculator, "CalculatorModeTextCaps", "CalculatorModeText", "CalculatorModePluralText")
  const ConverterGroupInitializer: GroupInitializer :=
    GroupInitializer(Converter, "ConverterModeTextCaps", "ConverterModeText", "ConverterModePluralText")

  const HeaderAutomationNameFormatKey: string := "NavCategoryHeader_AutomationNameFormat"
  const ItemAutomationNameFormatKey: string := "NavCategoryItem_AutomationNameFormat"

  /** The localization services, opaque here: the string of a resource key, and a format
      string with its arguments substituted in. */
  datatype Localizer = Localizer(resource: string -> string, format: (string, seq<string>) -> string)

  /** One menu item. */
  datatype NavCategoryItem = NavCategoryItem(
    name: string,
    automationName: string,
    glyph: string,
    accessKey: string,
    mode: string,
    viewMode: ViewMode,
    supportsNegative: bool,
    isEnabled: bool,
    isPreview: bool)

  /** The item a group of `init` makes of one manifest entry. The access key is the
      entry's literal when it has one and the localized `<key>AccessKey` resource otherwise. */
  function ItemOf(loc: Localizer, init: GroupInitializer, entry: Descriptor): (item: NavCategoryItem)
    ensures item.viewMode == entry.viewMode && item.glyph == entry.glyph
    ensures item.supportsNegative == entry.supportsNegative && item.isEnabled == entry.isEnabled
      && item.isPreview == entry.isPreview
    ensures entry.accessKey.Some? ==> item.accessKey == entry.accessKey.value
    ensures entry.accessKey.None? ==> item.accessKey == loc.resource(entry.nameResourceKey + "AccessKey")
  {
    var groupName := loc.resource(init.headerResourceKey);
    var categoryName := loc.resource(entry.nameResourceKey + "Text");
    NavCategoryItem(
      categoryName,
      loc.format(loc.resource(ItemAutomationNameFormatKey), [categoryName, groupName]),
      entry.glyph,
      match entry.accessKey
      case Some(accessKey) => accessKey
      case None => loc.resource(entry.nameResourceKey + "AccessKey"),
      loc.resource(init.modeResourceKey),
      entry.viewMode,
      entry.supportsNegative,
      entry.isEnabled,
      entry.isPreview)
  }

  /** The items of the group of `init`: one per manifest entry of its type, in order. */
  function GroupItems(loc: Localizer, cats: seq<Descriptor>, init: GroupInitializer): (items: seq<NavCategoryItem>)
    ensures |items| == |GroupFilter(cats, init.groupType)|
  {
    var members := GroupFilter(cats, init.groupType);
    seq(|members|, k requires 0 <= k < |members| => ItemOf(loc, init, members[k]))
  }

  /** Appending an entry extends the items by that entry's item, if it is of the type. */
  lemma GroupItemsStep(loc: Localizer, cats: seq<Descriptor>, init: GroupInitializer, i: nat)
    requires i < |cats|
    ensures GroupItems(loc, cats[..i + 1], init)
      == GroupItems(loc, cats[..i], init)
         + (if cats[i].groupType == init.groupType then [ItemOf(loc, init, cats[i])] else [])
  {
    assert cats[..i + 1][..i] == cats[..i];
  }

  class NavCategoryGroup {
    const groupType: CategoryGroupType
    const name: string
    const automationName: string
    var categories: seq<NavCategoryItem>

    /** Looks the header strings up and appends one item per manifest entry of the type. */
    constructor (loc: Localizer, cats: seq<Descriptor>, init: GroupInitializer)
      ensures groupType == init.groupType
      ensures name == loc.resource(init.headerResourceKey)
      ensures automationName
        == loc.format(loc.resource(HeaderAutomationNameFormatKey), [loc.resource(init.automationResourceKey)])
      ensures categories == GroupItems(loc, cats, init)
    {
      groupType := init.groupType;
      var groupName := loc.resource(init.headerResourceKey);
      name := groupName;
      var groupMode := loc.resource(init.modeResourceKey);
      var groupAutomationName := loc.resource(init.automationResourceKey);
      automationName := loc.format(loc.resource(HeaderAutomationNameFormatKey), [groupAutomationName]);
      var itemAutomationNameFormat := loc.resource(ItemAutomationNameFormatKey);
      var items: seq<NavCategoryItem> := [];
      var i := 0;
      while i < |cats|
        invariant 0 <= i <= |cats|
        invariant items == GroupItems(loc, cats[..i], init)
      {
        var entry := cats[i];
        if entry.groupType == init.groupType {
          var categoryName := loc.resource(entry.nameResourceKey + "Text");
          var categoryAutomationName := loc.format(itemAutomationNameFormat, [categoryName, groupName]);
          var accessKey := if entry.accessKey.Some? then entry.accessKey.value
                           else loc.resource(entry.nameResourceKey + "AccessKey");
          items := items + [NavCategoryItem(categoryName, categoryAutomationName, entry.glyph, accessKey, groupMode,
                                            entry.viewMode, entry.supportsNegative, entry.isEnabled, entry.isPreview)];
        }
        GroupItemsStep(loc, cats, init, i);
        i := i + 1;
      }
      assert cats[..|cats|] == cats;
      categories := items;
    }
  }

  method CreateCalculatorCategory(loc: Localizer, cats: seq<Descriptor>) returns (group: NavCategoryGroup)
    ensures fresh(group) && group.groupType == Calculator
    ensures group.categories == GroupItems(loc, cats, CalculatorGroupInitializer)
  {
    group := new NavCategoryGroup(loc, cats, CalculatorGroupInitializer);
  }

  method CreateConverterCategory(loc: Localizer, cats: seq<Descriptor>) returns (group: NavCategoryGroup)
    ensures fresh(group) && group.groupType == Converter
    ensures group.categories == GroupItems(loc, cats, ConverterGroupInitializer)
  {
    group := new NavCategoryGroup(loc, cats, ConverterGroupInitializer);
  }

  /** The menu: the calculator group, then the converter group. */
  method CreateMenuOptions(loc: Localizer, cats: seq<Descriptor>) returns (menuOptions: seq<NavCategoryGroup>)
    ensures |menuOptions| == 2 && fresh(menuOptions[0]) && fresh(menuOptions[1])
    ensures menuOptions[0].groupType == Calculator && menuOptions[1].groupType == Converter
    ensures menuOptions[0].categories == GroupItems(loc, cats, CalculatorGroupInitializer)
    ensures menuOptions[1].categories == GroupItems(loc, cats, ConverterGroupInitializer)
  {
    var calculators := CreateCalculatorCategory(loc, cats);
    var converters := CreateConverterCategory(loc, cats);
    menuOptions := [calculators, converters];
  }

  /** An entry is in the filter exactly when it is in the manifest with that group. */
  lemma {:induction false} GroupFilterMembers(cats: seq<Descriptor>, groupType: CategoryGroupType, d: Descriptor)
    ensures d in GroupFilter(cats, groupType) <==> d in cats && d.groupType == groupType
  {
    if cats != [] {
      var prefix := cats[..|cats| - 1];
      GroupFilterMembers(prefix, groupType, d);
      assert cats == prefix + [cats[|cats| - 1]];
    }
  }

  /** A group's items are exactly the modes the source classifies into that group. */
  lemma ItemsCoverGroup(loc: Localizer, cats: seq<Descriptor>, init: GroupInitializer, mode: ViewMode)
    ensures IsModeInCategoryGroup(cats, mode, init.groupType)
      <==> exists k :: 0 <= k < |GroupItems(loc, cats, init)| && GroupItems(loc, cats, init)[k].viewMode == mode
  {
    var members := GroupFilter(cats, init.groupType);
    var items := GroupItems(loc, cats, init);
    if IsModeInCategoryGroup(cats, mode, init.groupType) {
      var i :| 0 <= i < |cats| && cats[i].viewMode == mode && cats[i].groupType == init.groupType;
      GroupFilterMembers(cats, init.groupType, cats[i]);
      var k :| 0 <= k < |members| && members[k] == cats[i];
      assert items[k].viewMode == mode;
    }
    if exists k :: 0 <= k < |items| && items[k].viewMode == mode {
      var k :| 0 <= k < |items| && items[k].viewMode == mode;
      GroupFilterMembers(cats, init.groupType, members[k]);
      var i :| 0 <= i < |cats| && cats[i] == members[k];
      assert cats[i].viewMode == mode && cats[i].groupType == init.groupType;
    }
  }

  /** The position of an item in its group is the mode's index in the group, and its name is
      the localized string of the mode's name resource key. */
  lemma ItemsAgreeWithQueries(loc: Localizer, cats: seq<Descriptor>, init: GroupInitializer, k: nat)
    requires ModesDistinct(cats)
    requires k < |GroupItems(loc, cats, init)|
    ensures IndexInGroupOf(cats, GroupItems(loc, cats, init)[k].viewMode, init.groupType) == k
    ensures GetNameResourceKey(cats, GroupItems(loc, cats, init)[k].viewMode).Some?
    ensures GroupItems(loc, cats, init)[k].name
      == loc.resource(GetNameResourceKey(cats, GroupItems(loc, cats, init)[k].viewMode).value)
    ensures GroupItems(loc, cats, init)[k].mode == loc.resource(init.modeResourceKey)
  {
    IndicesInGroup(cats, init.groupType, k);
    var i := GroupFilterAt(cats, init.groupType, k);
    assert cats[i].viewMode == GroupItems(loc, cats, init)[k].viewMode;
  }

  /** On a manifest of the reference shape the calculator group is its first entries and the
      converter group the rest. */
  lemma ShapedGroupSplit(graphingAvailable: bool, cats: seq<Descriptor>)
    requires GroupsShaped(graphingAvailable, cats) && |cats| == CalculatorCount(graphingAvailable) + 13
    ensures GroupFilter(cats, Calculator) == cats[..CalculatorCount(graphingAvailable)]
    ensures GroupFilter(cats, Converter) == cats[CalculatorCount(graphingAvailable)..]
  {
    GroupSplit(cats, CalculatorCount(graphingAvailable));
  }

  lemma GroupSplit(cats: seq<Descriptor>, c: nat)
    requires c <= |cats|
    requires forall i :: 0 <= i < |cats| ==> cats[i].groupType == (if i < c then Calculator else Converter)
    ensures GroupFilter(cats, Calculator) == cats[..c]
    ensures GroupFilter(cats, Converter) == cats[c..]
  {
    SliceRuns(cats, c);
    SplitFilters(cats[..c], cats[c..]);
    SliceConcat(cats, c);
  }

  /** The two slices of a calculator run followed by a converter run. */
  lemma SliceRuns(cats: seq<Descriptor>, c: nat)
    requires c <= |cats|
    requires forall i :: 0 <= i < |cats| ==> cats[i].groupType == (if i < c then Calculator else Converter)
    ensures forall j :: 0 <= j < c ==> cats[..c][j].groupType == Calculator
    ensures forall j :: 0 <= j < |cats| - c ==> cats[c..][j].groupType == Converter
  {
    forall j | 0 <= j < c ensures cats[..c][j].groupType == Calculator {
      assert cats[..c][j] == cats[j];
    }
    forall j | 0 <= j < |cats| - c ensures cats[c..][j].groupType == Converter {
      assert cats[c..][j] == cats[c + j];
    }
  }

  lemma SliceConcat(cats: seq<Descriptor>, c: nat)
    requires c <= |cats|
    ensures cats[..c] + cats[c..] == cats
  {
  }

  /** A calculator run followed by a converter run filters into those two runs. */
  lemma SplitFilters(front: seq<Descriptor>, back: seq<Descriptor>)
    requires forall j :: 0 <= j < |front| ==> front[j].groupType == Calculator
    requires forall j :: 0 <= j < |back| ==> back[j].groupType == Converter
    ensures GroupFilter(front + back, Calculator) == front
    ensures GroupFilter(front + back, Converter) == back
  {
    OneGroup(front, Calculator, Converter);
    OneGroup(back, Converter, Calculator);
    GroupFilterConcat(front, back, Calculator);
    GroupFilterConcat(front, back, Converter);
    assert front + [] == front;
    assert [] + back == back;
  }

  /** A run of entries of one group filters to itself for that group and to nothing for another. */
  lemma OneGroup(s: seq<Descriptor>, groupType: CategoryGroupType, other: CategoryGroupType)
    requires groupType != other
    requires forall j :: 0 <= j < |s| ==> s[j].groupType == groupType
    ensures GroupFilter(s, groupType) == s && GroupFilter(s, other) == []
  {
    GroupFilterAll(s, groupType);
    GroupFilterNone(s, other);
  }

  /** The menu of the manifest: the calculator items carry the access keys "1", "2", ... in
      order, the converter items their localized access keys, and together the two groups
      hold every entry once. */
  lemma ShapedMenuItems(loc: Localizer, graphingAvailable: bool, cats: seq<Descriptor>)
    requires GroupsShaped(graphingAvailable, cats) && AccessKeysShaped(graphingAvailable, cats)
    requires |cats| == CalculatorCount(graphingAvailable) + 13
    ensures |GroupItems(loc, cats, CalculatorGroupInitializer)| == CalculatorCount(graphingAvailable)
    ensures |GroupItems(loc, cats, ConverterGroupInitializer)| == 13
    ensures forall k :: 0 <= k < CalculatorCount(graphingAvailable) ==>
      GroupItems(loc, cats, CalculatorGroupInitializer)[k].viewMode == cats[k].viewMode
      && GroupItems(loc, cats, CalculatorGroupInitializer)[k].accessKey == DecimalString(k + 1)
    ensures forall k :: 0 <= k < 13 ==>
      var entry := cats[CalculatorCount(graphingAvailable) + k];
      GroupItems(loc, cats, ConverterGroupInitializer)[k].viewMode == entry.viewMode
      && GroupItems(loc, cats, ConverterGroupInitializer)[k].accessKey
         == loc.resource(entry.nameResourceKey + "AccessKey")
  {
    ShapedGroupSplit(graphingAvailable, cats);
  }

  lemma MenuItemsOfManifest(loc: Localizer, graphingAvailable: bool, graphingEnabled: bool)
    ensures |GroupItems(loc, Manifest(graphingAvailable, graphingEnabled), CalculatorGroupInitializer)|
      == CalculatorCount(graphingAvailable)
    ensures |GroupItems(loc, Manifest(graphingAvailable, graphingEnabled), ConverterGroupInitializer)| == 13
    ensures forall k :: 0 <= k < CalculatorCount(graphingAvailable) ==>
      GroupItems(loc, Manifest(graphingAvailable, graphingEnabled), CalculatorGroupInitializer)[k].viewMode
        == Manifest(graphingAvailable, graphingEnabled)[k].viewMode
      && GroupItems(loc, Manifest(graphingAvailable, graphingEnabled), CalculatorGroupInitializer)[k].accessKey
        == DecimalString(k + 1)
    ensures forall k :: 0 <= k < 13 ==>
      var entry := Manifest(graphingAvailable, graphingEnabled)[CalculatorCount(graphingAvailable) + k];
      GroupItems(loc, Manifest(graphingAvailable, graphingEnabled), ConverterGroupInitializer)[k].viewMode
        == entry.viewMode
      && GroupItems(loc, Manifest(graphingAvailable, graphingEnabled), ConverterGroupInitializer)[k].accessKey
        == loc.resource(entry.nameResourceKey + "AccessKey")
  {
    ManifestShaped(graphingAvailable, graphingEnabled);
    ShapedMenuItems(loc, graphingAvailable, Manifest(graphingAvailable, graphingEnabled));
  }
}
