/** What the NavCategory queries answer on the manifest the app builds. Each property is
    proved once for any list of the reference shape (the `Shaped...` lemmas, which ask only
    for the facts they use) and then stated for the manifest itself. */
module ManifestProperties {
  import opened Wrappers
  import opened NavTypes
  import opened CategoryManifest
  import opened NavCategory

  /** Modes, serialization ids and friendly names are pairwise distinct in the manifest. */
  lemma ManifestDistinct(graphingAvailable: bool, graphingEnabled: bool)
    ensures ModesDistinct(Manifest(graphingAvailable, graphingEnabled))
    ensures IdsDistinct(Manifest(graphingAvailable, graphingEnabled))
    ensures NamesDistinct(Manifest(graphingAvailable, graphingEnabled))
  {
    ManifestShaped(graphingAvailable, graphingEnabled);
    ShapedDistinct(graphingAvailable, Manifest(graphingAvailable, graphingEnabled));
  }

  lemma ShapedDistinct(graphingAvailable: bool, cats: seq<Descriptor>)
    requires OrderShaped(graphingAvailable, cats) && IdsShaped(cats) && NamesShaped(cats)
    ensures ModesDistinct(cats) && IdsDistinct(cats) && NamesDistinct(cats)
  {
    ShapedIdsDistinct(graphingAvailable, cats);
    ShapedNamesDistinct(graphingAvailable, cats);
  }

  lemma ShapedIdsDistinct(graphingAvailable: bool, cats: seq<Descriptor>)
    requires OrderShaped(graphingAvailable, cats) && IdsShaped(cats)
    ensures ModesDistinct(cats) && IdsDistinct(cats)
  {
    forall i, j | 0 <= i < j < |cats| ensures cats[i].serializationId != cats[j].serializationId {
      IdTableInjective(cats[i].viewMode);
      IdTableInjective(cats[j].viewMode);
    }
  }

  lemma ShapedNamesDistinct(graphingAvailable: bool, cats: seq<Descriptor>)
    requires OrderShaped(graphingAvailable, cats) && NamesShaped(cats)
    ensures NamesDistinct(cats)
  {
    assert ModesDistinct(cats);
  }

  /** A mode lookup in the manifest finds exactly the reference index. */
  lemma ManifestFind(graphingAvailable: bool, graphingEnabled: bool, mode: ViewMode)
    ensures FindMode(Manifest(graphingAvailable, graphingEnabled), mode)
      == if InManifest(graphingAvailable, mode) then Some(ManifestIndex(graphingAvailable, mode) as nat) else Option.None
  {
    ManifestShaped(graphingAvailable, graphingEnabled);
    ShapedFind(graphingAvailable, Manifest(graphingAvailable, graphingEnabled), mode);
  }

  lemma ShapedFind(graphingAvailable: bool, cats: seq<Descriptor>, mode: ViewMode)
    requires OrderShaped(graphingAvailable, cats) && CompleteShaped(graphingAvailable, cats)
    ensures FindMode(cats, mode)
      == if InManifest(graphingAvailable, mode) then Some(ManifestIndex(graphingAvailable, mode) as nat) else Option.None
  {
    if InManifest(graphingAvailable, mode) {
      assert cats[ManifestIndex(graphingAvailable, mode)].viewMode == mode;
    } else {
      assert !HasMode(cats, mode);
    }
  }

  /** IsValidViewMode holds exactly for the modes the manifest holds; in particular
      Graphing is valid iff graphing is available. */
  lemma ValidViewModes(graphingAvailable: bool, graphingEnabled: bool, mode: ViewMode)
    ensures IsValidViewMode(Manifest(graphingAvailable, graphingEnabled), mode) <==> InManifest(graphingAvailable, mode)
    ensures IsValidViewMode(Manifest(graphingAvailable, graphingEnabled), Graphing) <==> graphingAvailable
    ensures !IsValidViewMode(Manifest(graphingAvailable, graphingEnabled), ViewMode.None)
  {
    ManifestFind(graphingAvailable, graphingEnabled, mode);
    ManifestFind(graphingAvailable, graphingEnabled, Graphing);
    ManifestFind(graphingAvailable, graphingEnabled, ViewMode.None);
  }

  /** Serialize answers the fixed id of every mode in the manifest and -1 for any other. */
  lemma SerializeManifest(graphingAvailable: bool, graphingEnabled: bool, mode: ViewMode)
    ensures Serialize(Manifest(graphingAvailable, graphingEnabled), mode)
      == if InManifest(graphingAvailable, mode) then IdOf(mode) else -1
  {
    ManifestShaped(graphingAvailable, graphingEnabled);
    ShapedSerialize(graphingAvailable, Manifest(graphingAvailable, graphingEnabled), mode);
  }

  lemma ShapedSerialize(graphingAvailable: bool, cats: seq<Descriptor>, mode: ViewMode)
    requires OrderShaped(graphingAvailable, cats) && IdsShaped(cats) && CompleteShaped(graphingAvailable, cats)
    ensures Serialize(cats, mode) == if InManifest(graphingAvailable, mode) then IdOf(mode) else -1
  {
    ShapedFind(graphingAvailable, cats, mode);
    if InManifest(graphingAvailable, mode) {
      assert cats[ManifestIndex(graphingAvailable, mode)].viewMode == mode;
    }
  }

  /** Deserialize answers the mode an id denotes when the manifest holds it, except Graphing
      while the policy disables it; `None` for a non-int, an unknown id or a disabled Graphing. */
  lemma DeserializeManifest(graphingAvailable: bool, graphingEnabled: bool, obj: Option<int>, enabledNow: bool)
    ensures Deserialize(Manifest(graphingAvailable, graphingEnabled), obj, enabledNow)
      == match obj
         case None => ViewMode.None
         case Some(id) =>
           var mode := ModeOfId(id);
           if InManifest(graphingAvailable, mode) && (mode != Graphing || enabledNow) then mode else ViewMode.None
  {
    ManifestShaped(graphingAvailable, graphingEnabled);
    ShapedDeserialize(graphingAvailable, Manifest(graphingAvailable, graphingEnabled), obj, enabledNow);
  }

  lemma ShapedDeserialize(graphingAvailable: bool, cats: seq<Descriptor>, obj: Option<int>, enabledNow: bool)
    requires OrderShaped(graphingAvailable, cats) && IdsShaped(cats) && CompleteShaped(graphingAvailable, cats)
    ensures Deserialize(cats, obj, enabledNow)
      == match obj
         case None => ViewMode.None
         case Some(id) =>
           var mode := ModeOfId(id);
           if InManifest(graphingAvailable, mode) && (mode != Graphing || enabledNow) then mode else ViewMode.None
  {
    ShapedIdsDistinct(graphingAvailable, cats);
    if obj.Some? {
      var mode := ModeOfId(obj.value);
      if InManifest(graphingAvailable, mode) {
        assert cats[ManifestIndex(graphingAvailable, mode)].viewMode == mode;
      } else {
        forall i | 0 <= i < |cats| ensures cats[i].serializationId != obj.value {
          IdTableInjective(cats[i].viewMode);
        }
      }
    }
  }

  /** Round trip: every manifest mode comes back from its id, except Graphing while the
      policy disables it (the policy value at call time is the one the manifest was built with). */
  lemma SerializeRoundTrip(graphingAvailable: bool, graphingEnabled: bool, i: nat)
    requires i < |Manifest(graphingAvailable, graphingEnabled)|
    ensures var mode := Manifest(graphingAvailable, graphingEnabled)[i].viewMode;
      var back := Deserialize(Manifest(graphingAvailable, graphingEnabled),
                              Some(Serialize(Manifest(graphingAvailable, graphingEnabled), mode)), graphingEnabled);
      back == if mode == Graphing && !graphingEnabled then ViewMode.None else mode
  {
    ManifestShaped(graphingAvailable, graphingEnabled);
    ShapedRoundTrip(graphingAvailable, graphingEnabled, Manifest(graphingAvailable, graphingEnabled), i);
  }

  lemma ShapedRoundTrip(graphingAvailable: bool, graphingEnabled: bool, cats: seq<Descriptor>, i: nat)
    requires OrderShaped(graphingAvailable, cats) && IdsShaped(cats)
    requires i < |cats|
    ensures var mode := cats[i].viewMode;
      Deserialize(cats, Some(Serialize(cats, mode)), graphingEnabled)
        == if mode == Graphing && !graphingEnabled then ViewMode.None else mode
  {
    ShapedIdsDistinct(graphingAvailable, cats);
  }

  /** Graphing keeps id 17 whatever the policy; a stored 17 comes back as Graphing exactly when
      graphing is available and enabled at the time of the call. */
  lemma GraphingIdAndPolicy(graphingAvailable: bool, graphingEnabled: bool, enabledNow: bool)
    ensures graphingAvailable ==> Serialize(Manifest(graphingAvailable, graphingEnabled), Graphing) == 17
    ensures !graphingAvailable ==> Serialize(Manifest(graphingAvailable, graphingEnabled), Graphing) == -1
    ensures Deserialize(Manifest(graphingAvailable, graphingEnabled), Some(GRAPHING_ID), enabledNow)
      == if graphingAvailable && enabledNow then Graphing else ViewMode.None
  {
    SerializeManifest(graphingAvailable, graphingEnabled, Graphing);
    DeserializeManifest(graphingAvailable, graphingEnabled, Some(GRAPHING_ID), enabledNow);
    GraphingIdTable();
  }

  /** Positions are the 1-based manifest order; index is position - 1. */
  lemma PositionsInOrder(graphingAvailable: bool, graphingEnabled: bool, mode: ViewMode)
    ensures PositionOf(Manifest(graphingAvailable, graphingEnabled), mode)
      == if InManifest(graphingAvailable, mode) then ManifestIndex(graphingAvailable, mode) + 1 else -1
    ensures GetIndex(Manifest(graphingAvailable, graphingEnabled), mode) == ManifestIndex(graphingAvailable, mode)
  {
    ManifestShaped(graphingAvailable, graphingEnabled);
    ShapedPositions(graphingAvailable, Manifest(graphingAvailable, graphingEnabled), mode);
  }

  lemma ShapedPositions(graphingAvailable: bool, cats: seq<Descriptor>, mode: ViewMode)
    requires OrderShaped(graphingAvailable, cats) && CompleteShaped(graphingAvailable, cats)
    ensures PositionOf(cats, mode) == if InManifest(graphingAvailable, mode) then ManifestIndex(graphingAvailable, mode) + 1 else -1
    ensures GetIndex(cats, mode) == ManifestIndex(graphingAvailable, mode)
  {
    ShapedFind(graphingAvailable, cats, mode);
  }

  /** In any list without repeated modes, the i-th entry has position i + 1. */
  lemma PositionAt(cats: seq<Descriptor>, i: nat)
    requires ModesDistinct(cats) && i < |cats|
    ensures PositionOf(cats, cats[i].viewMode) == i + 1
    ensures GetIndex(cats, cats[i].viewMode) == i
  {
  }

  /** Positions strictly increase along the manifest. */
  lemma PositionsIncrease(graphingAvailable: bool, graphingEnabled: bool, i: nat, j: nat)
    requires i < j < |Manifest(graphingAvailable, graphingEnabled)|
    ensures 1 <= PositionOf(Manifest(graphingAvailable, graphingEnabled), Manifest(graphingAvailable, graphingEnabled)[i].viewMode)
             < PositionOf(Manifest(graphingAvailable, graphingEnabled), Manifest(graphingAvailable, graphingEnabled)[j].viewMode)
  {
    ManifestDistinct(graphingAvailable, graphingEnabled);
    PositionAt(Manifest(graphingAvailable, graphingEnabled), i);
    PositionAt(Manifest(graphingAvailable, graphingEnabled), j);
  }
}

/** Groups, flat indices, accelerator keys and classification on the app's manifest. */
module ManifestGroups {
  import opened Wrappers
  import opened NavTypes
  import opened CategoryManifest
  import opened NavCategory
  import opened ManifestProperties

  /** Each group holds exactly the manifest entries of its type, in manifest order. */
  lemma GroupsOfManifest(graphingAvailable: bool, graphingEnabled: bool)
    ensures GroupFilter(Manifest(graphingAvailable, graphingEnabled), Calculator)
      == CalculatorEntries(graphingAvailable, graphingEnabled)
    ensures GroupFilter(Manifest(graphingAvailable, graphingEnabled), Converter) == ConverterEntries
    ensures GroupFilter(Manifest(graphingAvailable, graphingEnabled), CategoryGroupType.None) == []
  {
    CalculatorGroupSplit(graphingAvailable, graphingEnabled, Calculator);
    CalculatorGroupSplit(graphingAvailable, graphingEnabled, Converter);
    CalculatorGroupSplit(graphingAvailable, graphingEnabled, CategoryGroupType.None);
    ConverterGroupOnly(graphingAvailable, graphingEnabled);
  }

  lemma CalculatorGroupSplit(graphingAvailable: bool, graphingEnabled: bool, groupType: CategoryGroupType)
    ensures GroupFilter(Manifest(graphingAvailable, graphingEnabled), groupType)
      == (if groupType == Calculator then CalculatorEntries(graphingAvailable, graphingEnabled) else [])
         + GroupFilter(ConverterEntries, groupType)
  {
    var calcs := CalculatorEntries(graphingAvailable, graphingEnabled);
    GroupFilterConcat(calcs, ConverterEntries, groupType);
    if groupType == Calculator {
      GroupFilterAll(calcs, groupType);
    } else {
      GroupFilterNone(calcs, groupType);
    }
  }

  lemma ConverterGroupOnly(graphingAvailable: bool, graphingEnabled: bool)
    ensures GroupFilter(ConverterEntries, Converter) == ConverterEntries
    ensures GroupFilter(ConverterEntries, Calculator) == []
    ensures GroupFilter(ConverterEntries, CategoryGroupType.None) == []
  {
    GroupFilterAll(ConverterEntries, Converter);
    GroupFilterNone(ConverterEntries, Calculator);
    GroupFilterNone(ConverterEntries, CategoryGroupType.None);
  }

  /** A mode is in a group exactly when the manifest holds it and the group table says so. */
  lemma GroupMembership(graphingAvailable: bool, graphingEnabled: bool, mode: ViewMode, groupType: CategoryGroupType)
    ensures IsModeInCategoryGroup(Manifest(graphingAvailable, graphingEnabled), mode, groupType)
      <==> InManifest(graphingAvailable, mode) && GroupOf(mode) == groupType
    ensures GetGroupType(Manifest(graphingAvailable, graphingEnabled), mode)
      == if InManifest(graphingAvailable, mode) then GroupOf(mode) else CategoryGroupType.None
  {
    ManifestShaped(graphingAvailable, graphingEnabled);
    ShapedGroupMembership(graphingAvailable, Manifest(graphingAvailable, graphingEnabled), mode, groupType);
  }

  lemma ShapedGroupMembership(graphingAvailable: bool, cats: seq<Descriptor>, mode: ViewMode, groupType: CategoryGroupType)
    requires OrderShaped(graphingAvailable, cats) && GroupTableShaped(cats) && CompleteShaped(graphingAvailable, cats)
    ensures IsModeInCategoryGroup(cats, mode, groupType) <==> InManifest(graphingAvailable, mode) && GroupOf(mode) == groupType
    ensures GetGroupType(cats, mode) == if InManifest(graphingAvailable, mode) then GroupOf(mode) else CategoryGroupType.None
  {
    ShapedFind(graphingAvailable, cats, mode);
    if InManifest(graphingAvailable, mode) {
      var k := ManifestIndex(graphingAvailable, mode) as nat;
      assert cats[k].viewMode == mode && cats[k].groupType == GroupOf(mode);
      GroupTypeAt(cats, mode, k);
      if GroupOf(mode) == groupType {
        InGroupAt(cats, mode, groupType, k);
      } else {
        ShapedNotInGroup(graphingAvailable, cats, mode, groupType);
      }
    } else {
      ShapedNotInGroup(graphingAvailable, cats, mode, groupType);
    }
  }

  /** No entry is of a mode and a group the tables do not pair. */
  lemma ShapedNotInGroup(graphingAvailable: bool, cats: seq<Descriptor>, mode: ViewMode, groupType: CategoryGroupType)
    requires OrderShaped(graphingAvailable, cats) && GroupTableShaped(cats)
    requires !(InManifest(graphingAvailable, mode) && GroupOf(mode) == groupType)
    ensures forall j :: 0 <= j < |cats| ==> !(cats[j].viewMode == mode && cats[j].groupType == groupType)
    ensures !IsModeInCategoryGroup(cats, mode, groupType)
  {
    assert forall j :: 0 <= j < |cats| ==> !(cats[j].viewMode == mode && cats[j].groupType == groupType);
    InGroupAbsent(cats, mode, groupType);
  }

  /** The calculator modes are exactly Standard, Scientific and Programmer; the converter modes
      exactly the converter-group entries; Date and Graphing are neither. */
  lemma Classification(graphingAvailable: bool, graphingEnabled: bool, mode: ViewMode)
    ensures IsCalculatorViewMode(Manifest(graphingAvailable, graphingEnabled), mode)
      <==> mode == Standard || mode == Scientific || mode == Programmer
    ensures IsConverterViewMode(Manifest(graphingAvailable, graphingEnabled), mode) <==> GroupOf(mode) == Converter
    ensures InManifest(graphingAvailable, mode) ==> KindCount(Manifest(graphingAvailable, graphingEnabled), mode) == 1
  {
    ManifestShaped(graphingAvailable, graphingEnabled);
    ShapedClassification(graphingAvailable, Manifest(graphingAvailable, graphingEnabled), mode);
  }

  lemma ShapedClassification(graphingAvailable: bool, cats: seq<Descriptor>, mode: ViewMode)
    requires OrderShaped(graphingAvailable, cats) && GroupTableShaped(cats) && CompleteShaped(graphingAvailable, cats)
    ensures IsCalculatorViewMode(cats, mode) <==> mode == Standard || mode == Scientific || mode == Programmer
    ensures IsConverterViewMode(cats, mode) <==> GroupOf(mode) == Converter
    ensures InManifest(graphingAvailable, mode) ==> KindCount(cats, mode) == 1
  {
    ShapedGroupMembership(graphingAvailable, cats, mode, Calculator);
    ShapedGroupMembership(graphingAvailable, cats, mode, Converter);
    CalculatorModesTable(graphingAvailable, mode);
  }

  /** How many of the four kind tests (calculator, graphing, date, converter) accept a mode. */
  function KindCount(cats: seq<Descriptor>, mode: ViewMode): nat {
    (if IsCalculatorViewMode(cats, mode) then 1 else 0) + (if IsGraphingCalculatorViewMode(mode) then 1 else 0)
    + (if IsDateCalculatorViewMode(mode) then 1 else 0) + (if IsConverterViewMode(cats, mode) then 1 else 0)
  }

  lemma CalculatorModesTable(graphingAvailable: bool, mode: ViewMode)
    ensures (mode != Date && mode != Graphing && InManifest(graphingAvailable, mode) && GroupOf(mode) == Calculator)
      <==> mode == Standard || mode == Scientific || mode == Programmer
    ensures (InManifest(graphingAvailable, mode) && GroupOf(mode) == Converter) <==> GroupOf(mode) == Converter
  {
  }

  /** The index of a mode within a group: its manifest index less the entries of earlier groups;
      -1 when the mode is absent or in another group. */
  lemma IndexInGroupManifest(graphingAvailable: bool, graphingEnabled: bool, mode: ViewMode, groupType: CategoryGroupType)
    ensures IndexInGroupOf(Manifest(graphingAvailable, graphingEnabled), mode, groupType)
      == if InManifest(graphingAvailable, mode) && GroupOf(mode) == groupType
         then ManifestIndex(graphingAvailable, mode) - (if groupType == Converter then CalculatorCount(graphingAvailable) else 0)
         else -1
  {
    ManifestShaped(graphingAvailable, graphingEnabled);
    ShapedIndexInGroup(graphingAvailable, Manifest(graphingAvailable, graphingEnabled), mode, groupType);
  }

  lemma ShapedIndexInGroup(graphingAvailable: bool, cats: seq<Descriptor>, mode: ViewMode, groupType: CategoryGroupType)
    requires OrderShaped(graphingAvailable, cats) && GroupTableShaped(cats) && CompleteShaped(graphingAvailable, cats)
    requires GroupsShaped(graphingAvailable, cats)
    ensures IndexInGroupOf(cats, mode, groupType)
      == if InManifest(graphingAvailable, mode) && GroupOf(mode) == groupType
         then ManifestIndex(graphingAvailable, mode) - (if groupType == Converter then CalculatorCount(graphingAvailable) else 0)
         else -1
  {
    if InManifest(graphingAvailable, mode) && GroupOf(mode) == groupType {
      var k := ManifestIndex(graphingAvailable, mode) as nat;
      ShapedGroupAt(graphingAvailable, cats, mode);
      assert forall j :: 0 <= j < k ==> cats[j].viewMode != mode;
      IndexInGroupAt(cats, mode, groupType, k);
      ShapedGroupCount(graphingAvailable, cats, k);
    } else {
      ShapedNotInGroup(graphingAvailable, cats, mode, groupType);
      IndexInGroupAbsent(cats, mode, groupType);
    }
  }

  /** How many entries of each group precede index k. */
  lemma {:induction false} ShapedGroupCount(graphingAvailable: bool, cats: seq<Descriptor>, k: nat)
    requires GroupsShaped(graphingAvailable, cats) && k <= |cats|
    ensures var c := CalculatorCount(graphingAvailable);
      && |GroupFilter(cats[..k], Calculator)| == (if k < c then k else c)
      && |GroupFilter(cats[..k], Converter)| == (if k < c then 0 else k - c)
  {
    if k > 0 {
      ShapedGroupCount(graphingAvailable, cats, k - 1);
      GroupFilterStep(cats, Calculator, k - 1);
      GroupFilterStep(cats, Converter, k - 1);
    }
  }

  /** Along the manifest the group changes once before the first calculator entry and once
      more before the first converter entry. */
  lemma ManifestGroupChanges(graphingAvailable: bool, graphingEnabled: bool, k: nat)
    requires k <= |Manifest(graphingAvailable, graphingEnabled)|
    ensures GroupChanges(Manifest(graphingAvailable, graphingEnabled)[..k])
      == if k == 0 then 0 else if k <= CalculatorCount(graphingAvailable) then 1 else 2
  {
    ManifestShaped(graphingAvailable, graphingEnabled);
    ShapedGroupChanges(graphingAvailable, Manifest(graphingAvailable, graphingEnabled), k);
  }

  lemma {:induction false} ShapedGroupChanges(graphingAvailable: bool, cats: seq<Descriptor>, k: nat)
    requires GroupsShaped(graphingAvailable, cats) && k <= |cats|
    ensures GroupChanges(cats[..k]) == if k == 0 then 0 else if k <= CalculatorCount(graphingAvailable) then 1 else 2
  {
    if k > 0 {
      ShapedGroupChanges(graphingAvailable, cats, k - 1);
      GroupChangesAcross(cats, k, CalculatorCount(graphingAvailable));
    }
  }

  /** One more entry of a calculator run followed by a converter run adds a group change
      only at the first entry and at the first converter. */
  lemma GroupChangesAcross(cats: seq<Descriptor>, k: nat, c: nat)
    requires 0 < k <= |cats| && 0 < c
    requires GroupChanges(cats[..k - 1]) == if k - 1 == 0 then 0 else if k - 1 <= c then 1 else 2
    requires cats[k - 1].groupType == if k - 1 < c then Calculator else Converter
    requires k > 1 ==> cats[k - 2].groupType == if k - 2 < c then Calculator else Converter
    ensures GroupChanges(cats[..k]) == if k <= c then 1 else 2
  {
    GroupChangesStep(cats, k - 1);
    if k > 1 {
      GroupChangesStep(cats, k - 2);
    } else {
      assert cats[..0] == [];
    }
  }

  /** The flat index: manifest index plus one header slot for the calculator group, two for
      the converter group; -1 when absent. */
  lemma FlatIndexManifest(graphingAvailable: bool, graphingEnabled: bool, mode: ViewMode)
    ensures FlatIndexOf(Manifest(graphingAvailable, graphingEnabled), mode)
      == if InManifest(graphingAvailable, mode)
         then ManifestIndex(graphingAvailable, mode) + (if GroupOf(mode) == Calculator then 1 else 2)
         else -1
  {
    ManifestShaped(graphingAvailable, graphingEnabled);
    ShapedFlatIndex(graphingAvailable, Manifest(graphingAvailable, graphingEnabled), mode);
  }

  lemma ShapedFlatIndex(graphingAvailable: bool, cats: seq<Descriptor>, mode: ViewMode)
    requires OrderShaped(graphingAvailable, cats) && GroupTableShaped(cats) && CompleteShaped(graphingAvailable, cats)
    requires GroupsShaped(graphingAvailable, cats)
    ensures FlatIndexOf(cats, mode)
      == if InManifest(graphingAvailable, mode)
         then ManifestIndex(graphingAvailable, mode) + (if GroupOf(mode) == Calculator then 1 else 2)
         else -1
  {
    ShapedFind(graphingAvailable, cats, mode);
    if InManifest(graphingAvailable, mode) {
      var k := ManifestIndex(graphingAvailable, mode) as nat;
      ShapedGroupAt(graphingAvailable, cats, mode);
      ShapedGroupChanges(graphingAvailable, cats, k + 1);
      FlatIndexOfFound(cats, mode, k, CalculatorCount(graphingAvailable));
    } else {
      FlatIndexOfMissing(cats, mode);
    }
  }

  /** The flat index of a mode found at k, when the first c entries form the calculator
      group and the rest the converter group. */
  lemma FlatIndexOfFound(cats: seq<Descriptor>, mode: ViewMode, k: nat, c: nat)
    requires FindMode(cats, mode) == Some(k)
    requires GroupOf(mode) == if k < c then Calculator else Converter
    requires GroupChanges(cats[..k + 1]) == if k + 1 <= c then 1 else 2
    ensures FlatIndexOf(cats, mode) == k + (if GroupOf(mode) == Calculator then 1 else 2)
  {
    FlatIndexAt(cats, mode, k);
  }

  /** A mode the lookup does not find has flat index -1. */
  lemma FlatIndexOfMissing(cats: seq<Descriptor>, mode: ViewMode)
    requires FindMode(cats, mode) == Option.None
    ensures FlatIndexOf(cats, mode) == -1
  {
  }

  /** A mode's group decides on which side of the group boundary its reference index lies. */
  lemma ShapedGroupAt(graphingAvailable: bool, cats: seq<Descriptor>, mode: ViewMode)
    requires GroupTableShaped(cats) && GroupsShaped(graphingAvailable, cats) && CompleteShaped(graphingAvailable, cats)
    requires InManifest(graphingAvailable, mode)
    ensures 0 <= ManifestIndex(graphingAvailable, mode) < |cats|
    ensures cats[ManifestIndex(graphingAvailable, mode)].viewMode == mode
    ensures GroupOf(mode) == if ManifestIndex(graphingAvailable, mode) < CalculatorCount(graphingAvailable) then Calculator else Converter
  {
    assert cats[ManifestIndex(graphingAvailable, mode)].viewMode == mode;
  }

  /** Standard has flat index 1; Currency, the first converter, 7 with graphing and 6 without. */
  lemma FlatIndexScenarios(graphingAvailable: bool, graphingEnabled: bool)
    ensures FlatIndexOf(Manifest(graphingAvailable, graphingEnabled), Standard) == 1
    ensures FlatIndexOf(Manifest(graphingAvailable, graphingEnabled), Currency) == if graphingAvailable then 7 else 6
  {
    ManifestShaped(graphingAvailable, graphingEnabled);
    ShapedFlatIndexScenarios(graphingAvailable, Manifest(graphingAvailable, graphingEnabled));
  }

  lemma ShapedFlatIndexScenarios(graphingAvailable: bool, cats: seq<Descriptor>)
    requires OrderShaped(graphingAvailable, cats) && GroupTableShaped(cats) && CompleteShaped(graphingAvailable, cats)
    requires GroupsShaped(graphingAvailable, cats)
    ensures FlatIndexOf(cats, Standard) == 1
    ensures FlatIndexOf(cats, Currency) == if graphingAvailable then 7 else 6
  {
    ShapedFlatIndex(graphingAvailable, cats, Standard);
    ShapedFlatIndex(graphingAvailable, cats, Currency);
  }

  /** The number keys 1..n. */
  function NumberKeys(n: nat): seq<VirtualKey> {
    if n == 0 then [] else NumberKeys(n - 1) + [NumberKey(n)]
  }

  /** The keys of the first k entries are the number keys up to k, or up to the size of the
      calculator group once k passes it. */
  lemma {:induction false} ShapedAcceleratorKeys(graphingAvailable: bool, cats: seq<Descriptor>, k: nat)
    requires KeysShaped(graphingAvailable, cats) && k <= |cats|
    ensures AcceleratorKeysOf(cats[..k])
      == NumberKeys(if k < CalculatorCount(graphingAvailable) then k else CalculatorCount(graphingAvailable))
  {
    if k > 0 {
      ShapedAcceleratorKeys(graphingAvailable, cats, k - 1);
      AcceleratorKeysStep(cats, k - 1);
      if k <= CalculatorCount(graphingAvailable) {
        assert cats[k - 1].virtualKey == NumberKey(k) != VirtualKey.None;
      } else {
        assert cats[k - 1].virtualKey == VirtualKey.None;
      }
    } else {
      assert cats[..0] == [];
    }
  }

  /** The accelerator keys are Number1..Number5 with graphing and Number1..Number4 without. */
  lemma AcceleratorKeysOfManifest(graphingAvailable: bool, graphingEnabled: bool)
    ensures AcceleratorKeysOf(Manifest(graphingAvailable, graphingEnabled))
      == if graphingAvailable then [Number1, Number2, Number3, Number4, Number5]
         else [Number1, Number2, Number3, Number4]
  {
    ManifestShaped(graphingAvailable, graphingEnabled);
    ShapedAcceleratorKeysAll(graphingAvailable, Manifest(graphingAvailable, graphingEnabled));
  }

  lemma ShapedAcceleratorKeysAll(graphingAvailable: bool, cats: seq<Descriptor>)
    requires KeysShaped(graphingAvailable, cats) && |cats| == CalculatorCount(graphingAvailable) + 13
    ensures AcceleratorKeysOf(cats)
      == if graphingAvailable then [Number1, Number2, Number3, Number4, Number5]
         else [Number1, Number2, Number3, Number4]
  {
    ShapedAcceleratorKeys(graphingAvailable, cats, |cats|);
    assert cats[..|cats|] == cats;
    NumberKeysTable();
  }

  lemma NumberKeysTable()
    ensures NumberKeys(4) == [Number1, Number2, Number3, Number4]
    ensures NumberKeys(5) == [Number1, Number2, Number3, Number4, Number5]
  {
  }

  /** Key lookup, as written: the numbers map to the calculator group in order, and `None`
      finds Currency, the first entry without a key. */
  lemma VirtualKeyLookup(graphingAvailable: bool, graphingEnabled: bool, key: VirtualKey)
    ensures GetViewModeForVirtualKey(Manifest(graphingAvailable, graphingEnabled), key)
      == match key
         case None => Currency
         case Number1 => Standard
         case Number2 => Scientific
         case Number3 => if graphingAvailable then Graphing else Programmer
         case Number4 => if graphingAvailable then Programmer else Date
         case Number5 => if graphingAvailable then Date else ViewMode.None
         case _ => ViewMode.None
  {
    ManifestShaped(graphingAvailable, graphingEnabled);
    ShapedVirtualKeyLookup(graphingAvailable, Manifest(graphingAvailable, graphingEnabled), key);
  }

  lemma ShapedVirtualKeyLookup(graphingAvailable: bool, cats: seq<Descriptor>, key: VirtualKey)
    requires KeysShaped(graphingAvailable, cats) && CompleteShaped(graphingAvailable, cats)
    requires |cats| == CalculatorCount(graphingAvailable) + 13
    ensures GetViewModeForVirtualKey(cats, key)
      == match key
         case None => Currency
         case Number1 => Standard
         case Number2 => Scientific
         case Number3 => if graphingAvailable then Graphing else Programmer
         case Number4 => if graphingAvailable then Programmer else Date
         case Number5 => if graphingAvailable then Date else ViewMode.None
         case _ => ViewMode.None
  {
    var c := CalculatorCount(graphingAvailable);
    var n := KeyNumber(key);
    KeyTable(graphingAvailable, key);
    if key == VirtualKey.None {
      assert cats[ManifestIndex(graphingAvailable, Currency)].viewMode == Currency;
      ShapedKeyAt(graphingAvailable, cats, c);
    } else if 1 <= n <= c {
      ModeAtIndexInverse(graphingAvailable, n - 1);
      ShapedModeAtKey(graphingAvailable, cats, ModeAtIndex(graphingAvailable, n - 1));
      KeyNumberInverse(key);
    } else {
      ShapedKeyAbsent(graphingAvailable, cats, key);
    }
  }

  /** The expected answers of the key lookup, stated through the reference order. */
  lemma KeyTable(graphingAvailable: bool, key: VirtualKey)
    ensures (match key
             case None => Currency
             case Number1 => Standard
             case Number2 => Scientific
             case Number3 => if graphingAvailable then Graphing else Programmer
             case Number4 => if graphingAvailable then Programmer else Date
             case Number5 => if graphingAvailable then Date else ViewMode.None
             case _ => ViewMode.None)
      == if key == VirtualKey.None then Currency
         else if 1 <= KeyNumber(key) <= CalculatorCount(graphingAvailable) then ModeAtIndex(graphingAvailable, KeyNumber(key) - 1)
         else ViewMode.None
  {
  }

  /** The number a number key stands for, 0 for every other key. */
  function KeyNumber(key: VirtualKey): (n: nat)
    ensures n <= 9
    ensures n == 0 <==> key.None? || key.Number0? || key.Other?
  {
    match key
    case Number1 => 1
    case Number2 => 2
    case Number3 => 3
    case Number4 => 4
    case Number5 => 5
    case Number6 => 6
    case Number7 => 7
    case Number8 => 8
    case Number9 => 9
    case _ => 0
  }

  /** NumberKey and KeyNumber are inverse on the keys Number1 to Number9. */
  lemma KeyNumberInverse(key: VirtualKey)
    ensures 1 <= KeyNumber(key) ==> NumberKey(KeyNumber(key)) == key
    ensures forall n :: 1 <= n <= 9 ==> KeyNumber(NumberKey(n)) == n
  {
  }

  /** A calculator-group mode is found by the number key of its position. */
  lemma ShapedModeAtKey(graphingAvailable: bool, cats: seq<Descriptor>, mode: ViewMode)
    requires KeysShaped(graphingAvailable, cats) && CompleteShaped(graphingAvailable, cats)
    requires InManifest(graphingAvailable, mode)
    requires ManifestIndex(graphingAvailable, mode) < CalculatorCount(graphingAvailable)
    ensures GetViewModeForVirtualKey(cats, NumberKey(ManifestIndex(graphingAvailable, mode) + 1)) == mode
  {
    var i := ManifestIndex(graphingAvailable, mode) as nat;
    assert cats[i].viewMode == mode;
    ShapedKeyAt(graphingAvailable, cats, i);
  }

  /** The entry at index i is the first one carrying its key. */
  lemma ShapedKeyAt(graphingAvailable: bool, cats: seq<Descriptor>, i: nat)
    requires KeysShaped(graphingAvailable, cats) && i < |cats| && i <= CalculatorCount(graphingAvailable)
    ensures GetViewModeForVirtualKey(cats, cats[i].virtualKey) == cats[i].viewMode
  {
    assert forall j :: 0 <= j < i ==> cats[j].virtualKey != cats[i].virtualKey;
    VirtualKeyAt(cats, cats[i].virtualKey, i);
  }

  /** A key other than Number1 up to the calculator count is carried by no entry. */
  lemma ShapedKeyAbsent(graphingAvailable: bool, cats: seq<Descriptor>, key: VirtualKey)
    requires KeysShaped(graphingAvailable, cats)
    requires key != VirtualKey.None
    requires !(1 <= KeyNumber(key) <= CalculatorCount(graphingAvailable))
    ensures GetViewModeForVirtualKey(cats, key) == ViewMode.None
  {
    KeyNumberInverse(key);
    assert forall j :: 0 <= j < |cats| ==> cats[j].virtualKey != key;
    VirtualKeyAbsent(cats, key);
  }

  /** The lookup inverts the key table: every entry with a key is found by it. */
  lemma VirtualKeyInverse(graphingAvailable: bool, graphingEnabled: bool, i: nat)
    requires i < |Manifest(graphingAvailable, graphingEnabled)|
    requires Manifest(graphingAvailable, graphingEnabled)[i].virtualKey != VirtualKey.None
    ensures GetViewModeForVirtualKey(Manifest(graphingAvailable, graphingEnabled),
                                     Manifest(graphingAvailable, graphingEnabled)[i].virtualKey)
      == Manifest(graphingAvailable, graphingEnabled)[i].viewMode
  {
    ManifestShaped(graphingAvailable, graphingEnabled);
    ShapedVirtualKeyInverse(graphingAvailable, Manifest(graphingAvailable, graphingEnabled), i);
  }

  lemma ShapedVirtualKeyInverse(graphingAvailable: bool, cats: seq<Descriptor>, i: nat)
    requires KeysShaped(graphingAvailable, cats)
    requires i < |cats| && cats[i].virtualKey != VirtualKey.None
    ensures GetViewModeForVirtualKey(cats, cats[i].virtualKey) == cats[i].viewMode
  {
    ShapedKeyAt(graphingAvailable, cats, i);
  }

  /** Friendly-name lookups both ways, and their round trip. */
  lemma FriendlyNames(graphingAvailable: bool, graphingEnabled: bool, mode: ViewMode, name: string)
    ensures GetFriendlyName(Manifest(graphingAvailable, graphingEnabled), mode)
      == if InManifest(graphingAvailable, mode) then FriendlyNameOf(mode) else "None"
    ensures GetViewModeForFriendlyName(Manifest(graphingAvailable, graphingEnabled), name)
      == if InManifest(graphingAvailable, ModeOfFriendlyName(CString(name))) then ModeOfFriendlyName(CString(name))
         else ViewMode.None
    ensures GetViewModeForFriendlyName(Manifest(graphingAvailable, graphingEnabled),
                                       GetFriendlyName(Manifest(graphingAvailable, graphingEnabled), mode))
      == if InManifest(graphingAvailable, mode) then mode else ViewMode.None
  {
    ManifestShaped(graphingAvailable, graphingEnabled);
    ShapedFriendlyNames(graphingAvailable, Manifest(graphingAvailable, graphingEnabled), mode, name);
  }

  lemma ShapedFriendlyNames(graphingAvailable: bool, cats: seq<Descriptor>, mode: ViewMode, name: string)
    requires OrderShaped(graphingAvailable, cats) && NamesShaped(cats) && CompleteShaped(graphingAvailable, cats)
    ensures GetFriendlyName(cats, mode) == if InManifest(graphingAvailable, mode) then FriendlyNameOf(mode) else "None"
    ensures GetViewModeForFriendlyName(cats, name)
      == if InManifest(graphingAvailable, ModeOfFriendlyName(CString(name))) then ModeOfFriendlyName(CString(name))
         else ViewMode.None
    ensures GetViewModeForFriendlyName(cats, GetFriendlyName(cats, mode))
      == if InManifest(graphingAvailable, mode) then mode else ViewMode.None
  {
    ShapedFriendlyName(graphingAvailable, cats, mode);
    ShapedNameLookup(graphingAvailable, cats, name);
    var back := GetFriendlyName(cats, mode);
    ShapedNameLookup(graphingAvailable, cats, back);
    CStringOfNulFree(back);
    if InManifest(graphingAvailable, mode) {
      FriendlyNamesInjective(mode);
    } else {
      assert back == FriendlyNameOf(ViewMode.None);
      FriendlyNamesInjective(ViewMode.None);
    }
  }

  lemma ShapedFriendlyName(graphingAvailable: bool, cats: seq<Descriptor>, mode: ViewMode)
    requires OrderShaped(graphingAvailable, cats) && NamesShaped(cats) && CompleteShaped(graphingAvailable, cats)
    ensures GetFriendlyName(cats, mode) == if InManifest(graphingAvailable, mode) then FriendlyNameOf(mode) else "None"
  {
    ShapedFind(graphingAvailable, cats, mode);
    if InManifest(graphingAvailable, mode) {
      assert cats[ManifestIndex(graphingAvailable, mode)].viewMode == mode;
    }
  }

  lemma ShapedNameLookup(graphingAvailable: bool, cats: seq<Descriptor>, name: string)
    requires OrderShaped(graphingAvailable, cats) && NamesShaped(cats) && CompleteShaped(graphingAvailable, cats)
    ensures GetViewModeForFriendlyName(cats, name)
      == if InManifest(graphingAvailable, ModeOfFriendlyName(CString(name))) then ModeOfFriendlyName(CString(name))
         else ViewMode.None
  {
    var key := CString(name);
    var mode := ModeOfFriendlyName(key);
    ShapedNamesDistinct(graphingAvailable, cats);
    if InManifest(graphingAvailable, mode) {
      ModeOfFriendlyNameSound(key, mode);
      assert cats[ManifestIndex(graphingAvailable, mode)].friendlyName == key;
    } else {
      assert forall i :: 0 <= i < |cats| ==> cats[i].friendlyName != key;
    }
  }

  /** The name lookup finds exactly the modes of the manifest, by their table name. */
  lemma NameLookup(graphingAvailable: bool, graphingEnabled: bool, name: string)
    ensures GetViewModeForFriendlyName(Manifest(graphingAvailable, graphingEnabled), name)
      == if InManifest(graphingAvailable, ModeOfFriendlyName(CString(name))) then ModeOfFriendlyName(CString(name))
         else ViewMode.None
  {
    ManifestShaped(graphingAvailable, graphingEnabled);
    ShapedNameLookup(graphingAvailable, Manifest(graphingAvailable, graphingEnabled), name);
  }

  /** The name lookup reads the name only up to its first NUL: "Date\0x" finds Date. */
  lemma NameLookupStopsAtNul(graphingAvailable: bool, graphingEnabled: bool)
    ensures GetViewModeForFriendlyName(Manifest(graphingAvailable, graphingEnabled), "Date\0x") == Date
  {
    var name := "Date\0x";
    assert CString(name[4..]) == [];
    assert CString(name[3..]) == "e";
    assert CString(name[2..]) == "te";
    assert CString(name[1..]) == "ate";
    assert CString(name) == "Date";
    NameLookup(graphingAvailable, graphingEnabled, name);
  }

  /** Every calculator entry takes negative input; of the converters only Temperature, Power
      and Angle do. */
  lemma NegativeInput(graphingAvailable: bool, graphingEnabled: bool, i: nat)
    requires i < |Manifest(graphingAvailable, graphingEnabled)|
    ensures var entry := Manifest(graphingAvailable, graphingEnabled)[i];
      entry.supportsNegative <==> (i < CalculatorCount(graphingAvailable)
        || entry.viewMode == Temperature || entry.viewMode == Power || entry.viewMode == Angle)
  {
    ManifestEntry(graphingAvailable, graphingEnabled, i);
  }

  /** Only Graphing is a preview mode, and only when the manifest holds it. */
  lemma PreviewModes(graphingAvailable: bool, graphingEnabled: bool, mode: ViewMode)
    ensures IsViewModePreview(Manifest(graphingAvailable, graphingEnabled), mode) <==> graphingAvailable && mode == Graphing
  {
    ManifestShaped(graphingAvailable, graphingEnabled);
    ShapedPreview(graphingAvailable, graphingEnabled, Manifest(graphingAvailable, graphingEnabled), mode);
  }

  lemma ShapedPreview(graphingAvailable: bool, graphingEnabled: bool, cats: seq<Descriptor>, mode: ViewMode)
    requires OrderShaped(graphingAvailable, cats) && FlagsShaped(graphingEnabled, cats) && CompleteShaped(graphingAvailable, cats)
    ensures IsViewModePreview(cats, mode) <==> graphingAvailable && mode == Graphing
  {
    ShapedFind(graphingAvailable, cats, mode);
    if InManifest(graphingAvailable, mode) {
      assert cats[ManifestIndex(graphingAvailable, mode)].viewMode == mode;
    }
  }
}
