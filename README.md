# Navigation-category registry of the Windows Calculator, in Dafny

This project models the navigation-category registry of the Calculator view model
(`src/CalcViewModel/Common/NavCategory.cpp`). At startup the registry builds one ordered
manifest of mode descriptors: Standard, Scientific, Graphing (when the platform offers it),
Programmer, Date, then thirteen unit converters. Every descriptor carries a view mode, a
serialization id that must never change, a friendly name, a name resource key, a glyph, a
group (Calculator or Converter), an accelerator key, an access key and three flags: negative input (every calculator, and of the converters
only Temperature, Power and Angle), enabled, and preview.

On top of the manifest sit the queries of `NavCategory`:

- storing and restoring a mode as an integer id;
- validity and group classification;
- friendly-name lookup in both directions;
- position, index, index within a group, and the "flat index" that counts one header
  slot per group;
- accelerator-key lookup and listing;
- the preview flag.

`NavCategoryGroup` filters the manifest into the two menu groups of the navigation menu.
The Graphing entry depends on two inputs. The first is a platform probe (is graphing
available at all). The second is a group-policy registry value. The policy answer is
cached process-wide the first time it is asked.

Modules:

- `NavTypes` (`nav_types.dfy`): the mode, group and key enumerations, the descriptor
  record, the stable id table and its inverse, decimal rendering of the access-key
  counter, and the part of a wide string that `wcscmp` compares (up to its first NUL).
- `CategoryManifest` (`manifest.dfy`): the manifest as a function
  `Manifest(graphingAvailable, graphingEnabled)`, with reference tables (index, group and
  friendly name of each mode) and entry-by-entry facts gathered in the predicate `Shaped`.
- `NavCategory` (`nav_category.dfy`): every query as a function over any descriptor
  sequence. The four scans that the source runs with a counter captured by a `find_if`
  predicate or a loop are loop methods, each proved equal to its specification function.
- `ManifestProperties`, `ManifestGroups` (`manifest_properties.dfy`): what the queries
  answer on the manifest. This covers the round trip, distinct ids, positions, group
  indices, flat indices, accelerator keys, names, classification and preview.
- `GraphingPolicy` (`graphing_policy.dfy`): the policy check and its cache, as a class
  whose method updates the cache, together with a pure reference transition.
- `Registry` (`registry.dfy`): the manifest built step by step as the static initializer
  does it (`push_back`, `insert`, the `currentIndex` counter), and the registry object
  whose `Deserialize` asks the policy again.
- `NavCategoryGroups` (`nav_category_group.dfy`): the group constructor's filtering loop,
  the menu items it builds, and `CreateMenuOptions`.

The source's external inputs are parameters:

- the `ApiInformation::IsMethodPresent` probe is the boolean `available`;
- the `RegGetValueW` read is an `Option<uint32>`: `Some(v)` for a successful DWORD read,
  `None` for any failure;
- the boxed object given to `Deserialize` is an `Option<int>`: `None` when it is not a
  boxed int;
- the resource provider and the string formatter are two opaque functions in a
  `Localizer`.

## Model

| member | source | states |
|---|---|---|
| NavTypes.IdOf | src/CalcViewModel/Common/NavCategory.cpp:26-45 | the stored id is -1 exactly for the None sentinel |
| NavTypes.ModeOfId | src/CalcViewModel/Common/NavCategory.cpp:26-45 | the mode an id denotes has exactly that id, and exactly the ids 0..17 denote a mode |
| NavTypes.IdTableInjective | src/CalcViewModel/Common/NavCategory.cpp:26-45 | every real mode is recovered from its stored id, so no two modes share one |
| NavTypes.GraphingIdTable | src/CalcViewModel/Common/NavCategory.cpp:44 | Graphing is stored as 17 and 17 denotes Graphing |
| NavTypes.DecimalString | src/CalcViewModel/Common/NavCategory.cpp:47-51 | the rendering of the counter is a non-empty string of decimal digits |
| NavTypes.DecimalRoundTrip | src/CalcViewModel/Common/NavCategory.cpp:47-51 | the decimal string `towchar_t` renders denotes the number it was given |
| NavTypes.DecimalDigits | src/CalcViewModel/Common/NavCategory.cpp:159-171 | the counter values 3, 4, 5 render as "3", "4", "5" |
| NavTypes.CString | src/CalcViewModel/Common/NavCategory.cpp:412 | what `wcscmp` compares of a wide string: the longest NUL-free prefix, ending where the first NUL stands |
| NavTypes.CStringOfNulFree | src/CalcViewModel/Common/NavCategory.cpp:412 | a string without NUL is compared whole |
| CategoryManifest.FriendlyNamesInjective | src/CalcViewModel/Common/NavCategory.cpp:111-321 | each mode's friendly name identifies that mode, so no two friendly names coincide |
| CategoryManifest.CalculatorNamesInjective | src/CalcViewModel/Common/NavCategory.cpp:111-173 | the same for the calculator modes and the "None" sentinel |
| CategoryManifest.ConverterNamesInjective | src/CalcViewModel/Common/NavCategory.cpp:177-319 | the same for the converter modes |
| CategoryManifest.LaterConverterNamesInjective | src/CalcViewModel/Common/NavCategory.cpp:254-319 | the same for Speed through Angle |
| CategoryManifest.LastConverterNamesInjective | src/CalcViewModel/Common/NavCategory.cpp:287-319 | the same for Data, Pressure and Angle |
| CategoryManifest.ModeOfFriendlyNameSound | src/CalcViewModel/Common/NavCategory.cpp:111-321 | a name that the name table maps to a mode is that mode's friendly name |
| CategoryManifest.CalculatorEntries | src/CalcViewModel/Common/NavCategory.cpp:111-173 | the calculator part has 5 entries with graphing and 4 without |
| CategoryManifest.Manifest | src/CalcViewModel/Common/NavCategory.cpp:110-321 | the manifest has the calculator entries plus 13 converters |
| CategoryManifest.CalculatorEntryShaped | src/CalcViewModel/Common/NavCategory.cpp:111-173 | calculator entry i sits at reference index i with its fixed id, name, group and flags (negative input supported, only Graphing a preview), accelerator key Number(i+1) and access key "i+1"; the calculator part has 5 or 4 entries |
| CategoryManifest.CalculatorEntryPlaced | src/CalcViewModel/Common/NavCategory.cpp:111-173 | calculator entry i holds the mode at reference index i, with that mode's fixed id, friendly name and group; only Graphing is a preview |
| CategoryManifest.CalculatorEntryAttributes | src/CalcViewModel/Common/NavCategory.cpp:135-173 | calculator entry i has accelerator key Number(i+1) and access key "i+1", rendered from the counter, and only Graphing's enabled flag follows the policy |
| CategoryManifest.ConverterEntryShaped | src/CalcViewModel/Common/NavCategory.cpp:177-319 | converter j sits at reference index (calculator count)+j, of the reference shape; there are 13 converters |
| CategoryManifest.ConverterEntryPlaced | src/CalcViewModel/Common/NavCategory.cpp:177-319 | converter j holds the mode at reference index (calculator count)+j, with that mode's fixed id, friendly name ("Weight and Mass" for Weight) and the converter group |
| CategoryManifest.EarlyConverterEntryPlaced | src/CalcViewModel/Common/NavCategory.cpp:177-253 | the same for Currency through Area |
| CategoryManifest.LateConverterEntryPlaced | src/CalcViewModel/Common/NavCategory.cpp:254-319 | the same for Speed through Angle |
| CategoryManifest.ConverterEntryAttributes | src/CalcViewModel/Common/NavCategory.cpp:177-319 | converters have no accelerator key and no access key, are enabled and are not previews |
| CategoryManifest.ManifestEntry | src/CalcViewModel/Common/NavCategory.cpp:110-321 | the manifest has 5 or 4 calculator entries plus 13 converters, and every entry has the reference shape for its index |
| CategoryManifest.ManifestEntries | src/CalcViewModel/Common/NavCategory.cpp:110-321 | every entry of the manifest has the reference shape for its index |
| CategoryManifest.EntriesShaped | src/CalcViewModel/Common/NavCategory.cpp:110-321 | entry-by-entry shape yields the order, id, name, group, key, access-key and flag facts, with every friendly name mapping back to its mode |
| CategoryManifest.ManifestIndexInverse | src/CalcViewModel/Common/NavCategory.cpp:110-321 | no two manifest modes share a reference index: the index maps back to the mode |
| CategoryManifest.ModeAtIndexInverse | src/CalcViewModel/Common/NavCategory.cpp:110-321 | every reference index names a manifest mode placed at that index |
| CategoryManifest.ManifestShaped | src/CalcViewModel/Common/NavCategory.cpp:111-321 | the built manifest has the reference shape in every respect at once |
| CategoryManifest.ManifestHas | src/CalcViewModel/Common/NavCategory.cpp:135-152 | every mode except None is in the manifest at its reference index, and Graphing is there only when available |
| NavCategory.FindFirst | src/CalcViewModel/Common/NavCategory.cpp:326-327 | `find_if`: the result is the first index that satisfies the predicate, or none when no element does |
| NavCategory.FindFirstAt | src/CalcViewModel/Common/NavCategory.cpp:326-327 | a satisfying index with no satisfying index before it is the one the search returns |
| NavCategory.FindMode | src/CalcViewModel/Common/NavCategory.cpp:326-327 | the mode lookup finds the first entry of the mode, and finds none exactly when the mode is absent |
| NavCategory.FindModeAt | src/CalcViewModel/Common/NavCategory.cpp:326-327 | the first entry holding a mode is the one the lookup finds |
| NavCategory.Serialize | src/CalcViewModel/Common/NavCategory.cpp:324-330 | a present mode serializes to its entry's id; an absent mode gives -1 |
| NavCategory.FindId | src/CalcViewModel/Common/NavCategory.cpp:341-344 | the id lookup finds an entry with that id, and finds none exactly when no entry has it |
| NavCategory.Deserialize | src/CalcViewModel/Common/NavCategory.cpp:333-361 | a non-int or unknown id gives None; a known id gives its mode, except Graphing gives None while the policy disables it |
| NavCategory.IsValidViewMode | src/CalcViewModel/Common/NavCategory.cpp:363-369 | a mode is valid exactly when some entry holds it |
| NavCategory.IsCalculatorViewMode | src/CalcViewModel/Common/NavCategory.cpp:371-375 | holds exactly for a mode other than Date and Graphing held by a calculator-group entry |
| NavCategory.IsGraphingCalculatorViewMode | src/CalcViewModel/Common/NavCategory.cpp:377-380 | holds exactly for the mode stored under the graphing id |
| NavCategory.IsDateCalculatorViewMode | src/CalcViewModel/Common/NavCategory.cpp:382-385 | holds exactly for the mode stored under the date id |
| NavCategory.IsConverterViewMode | src/CalcViewModel/Common/NavCategory.cpp:387-390 | holds exactly for a mode held by a converter-group entry |
| NavCategory.IsModeInCategoryGroup | src/CalcViewModel/Common/NavCategory.cpp:392-399 | holds exactly when some entry has both the mode and the group |
| NavCategory.InGroupAt | src/CalcViewModel/Common/NavCategory.cpp:392-399 | an entry with the mode and the group makes the membership hold |
| NavCategory.InGroupAbsent | src/CalcViewModel/Common/NavCategory.cpp:392-399 | with no such entry the membership fails |
| NavCategory.GetFriendlyName | src/CalcViewModel/Common/NavCategory.cpp:401-407 | the entry's friendly name, or "None" for an absent mode |
| NavCategory.GetViewModeForFriendlyName | src/CalcViewModel/Common/NavCategory.cpp:409-416 | the mode of the first entry whose name equals the given name up to its first NUL, as `wcscmp` compares; None when no entry does |
| NavCategory.GetNameResourceKey | src/CalcViewModel/Common/NavCategory.cpp:418-424 | the entry's resource key followed by "Text"; the null string exactly when the mode is absent |
| NavCategory.GetGroupType | src/CalcViewModel/Common/NavCategory.cpp:426-432 | the entry's group, or the None group for an absent mode |
| NavCategory.GroupTypeAt | src/CalcViewModel/Common/NavCategory.cpp:426-432 | the group answered is that of the entry the lookup found |
| NavCategory.GetIndex | src/CalcViewModel/Common/NavCategory.cpp:435-439 | -1 exactly when the mode is absent; otherwise the 0-based index of its first entry |
| NavCategory.PositionOf | src/CalcViewModel/Common/NavCategory.cpp:477-486 | -1 exactly when the mode is absent; otherwise the 1-based position of its first entry |
| NavCategory.IndexInGroupOf | src/CalcViewModel/Common/NavCategory.cpp:460-474 | -1 exactly when the mode is not in that group; otherwise less than the group's size |
| NavCategory.GroupChanges | src/CalcViewModel/Common/NavCategory.cpp:441-457 | there are no more group changes than entries |
| NavCategory.FlatIndexOf | src/CalcViewModel/Common/NavCategory.cpp:441-457 | -1 exactly when the mode is absent; otherwise between the entry's index i and 2i+1, at least one header slot per entry before it |
| NavCategory.AcceleratorKeysOf | src/CalcViewModel/Common/NavCategory.cpp:497-509 | no more keys than entries, and never the None key |
| NavCategory.GroupFilter | src/CalcViewModel/Common/NavCategory.cpp:460-474 | the entries of one group: never longer than the manifest, and all of the group |
| NavCategory.GroupChangesStep | src/CalcViewModel/Common/NavCategory.cpp:441-457 | one more entry adds one group change exactly when its group differs from the one before (None at the start) |
| NavCategory.FlatIndexAt | src/CalcViewModel/Common/NavCategory.cpp:441-457 | the flat index of a found mode is its index plus the group changes up to and including its entry |
| NavCategory.GetViewModeForVirtualKey | src/CalcViewModel/Common/NavCategory.cpp:488-495 | the mode of the first entry with the key, or None when no entry has it |
| NavCategory.VirtualKeyAt | src/CalcViewModel/Common/NavCategory.cpp:488-495 | the first entry with a key gives the mode answered for it |
| NavCategory.VirtualKeyAbsent | src/CalcViewModel/Common/NavCategory.cpp:488-495 | a key no entry has gives None |
| NavCategory.IsViewModePreview | src/CalcViewModel/Common/NavCategory.cpp:569-579 | the entry's preview flag; false for an absent mode |
| NavCategory.GroupFilterConcat | src/CalcViewModel/Common/NavCategory.cpp:460-474 | filtering by group distributes over concatenation |
| NavCategory.GroupFilterAll | src/CalcViewModel/Common/NavCategory.cpp:460-474 | a run of entries all in the group filters to itself |
| NavCategory.GroupFilterNone | src/CalcViewModel/Common/NavCategory.cpp:460-474 | a run of entries with no entry in the group filters to nothing |
| NavCategory.GroupFilterAt | src/CalcViewModel/Common/NavCategory.cpp:460-474 | the k-th member of a group is an entry of the manifest with exactly k group members before it |
| NavCategory.IndicesInGroup | src/CalcViewModel/Common/NavCategory.cpp:460-474 | with distinct modes, the k-th member of a group has index k within the group, so the indices are exactly 0..n-1 in manifest order |
| NavCategory.GetPosition | src/CalcViewModel/Common/NavCategory.cpp:477-486 | the counting scan returns the 1-based position of the first entry of the mode, or -1 |
| NavCategory.GetIndexInGroup | src/CalcViewModel/Common/NavCategory.cpp:460-474 | the counting scan returns the number of group members before the mode's entry, or -1 when the mode is not in that group |
| NavCategory.GroupFilterStep | src/CalcViewModel/Common/NavCategory.cpp:460-474 | one more entry adds one member to a group exactly when it belongs to the group |
| NavCategory.IndexInGroupAt | src/CalcViewModel/Common/NavCategory.cpp:460-474 | the index within the group of the first entry with the mode and group is the number of group members before it |
| NavCategory.IndexInGroupAbsent | src/CalcViewModel/Common/NavCategory.cpp:460-474 | without an entry having both the mode and the group the index is -1 |
| NavCategory.GetFlatIndex | src/CalcViewModel/Common/NavCategory.cpp:441-457 | the counting scan returns the manifest index plus the group changes up to and including the entry, or -1 when absent |
| NavCategory.GetCategoryAcceleratorKeys | src/CalcViewModel/Common/NavCategory.cpp:497-509 | the loop collects the keys other than None, in manifest order |
| NavCategory.AcceleratorKeysStep | src/CalcViewModel/Common/NavCategory.cpp:497-509 | one more entry appends its key to the list, unless the key is None |
| ManifestProperties.ManifestDistinct | src/CalcViewModel/Common/NavCategory.cpp:26-45 | in the manifest, modes, serialization ids and friendly names are pairwise distinct |
| ManifestProperties.ShapedDistinct | src/CalcViewModel/Common/NavCategory.cpp:26-45 | in any sequence of the manifest's order, id and name shape, modes, ids and names are pairwise distinct |
| ManifestProperties.ShapedIdsDistinct | src/CalcViewModel/Common/NavCategory.cpp:26-45 | with entries at their reference indices and with their table ids, modes and ids are pairwise distinct |
| ManifestProperties.ShapedNamesDistinct | src/CalcViewModel/Common/NavCategory.cpp:111-321 | with entries at their reference indices and with their table names, names are pairwise distinct |
| ManifestProperties.ManifestFind | src/CalcViewModel/Common/NavCategory.cpp:326-327 | the mode lookup finds the mode's reference index, and finds nothing for None or for Graphing without the platform feature |
| ManifestProperties.ShapedFind | src/CalcViewModel/Common/NavCategory.cpp:326-327 | the same for any sequence of the manifest's order and completeness |
| ManifestProperties.ValidViewModes | src/CalcViewModel/Common/NavCategory.cpp:363-369 | the valid modes are all modes but None; Graphing is valid exactly when available |
| ManifestProperties.SerializeManifest | src/CalcViewModel/Common/NavCategory.cpp:324-330 | every manifest mode serializes to its fixed id, and every other mode to -1 |
| ManifestProperties.ShapedSerialize | src/CalcViewModel/Common/NavCategory.cpp:324-330 | the same for any sequence of the manifest's shape |
| ManifestProperties.DeserializeManifest | src/CalcViewModel/Common/NavCategory.cpp:333-361 | restoring gives the mode the id table names, if the manifest holds it and (for Graphing) the policy allows it; otherwise None |
| ManifestProperties.ShapedDeserialize | src/CalcViewModel/Common/NavCategory.cpp:333-361 | the same for any sequence of the manifest's shape |
| ManifestProperties.SerializeRoundTrip | src/CalcViewModel/Common/NavCategory.cpp:324-361 | restoring a stored manifest mode gives it back, with Graphing the sole exception, while it is disabled |
| ManifestProperties.ShapedRoundTrip | src/CalcViewModel/Common/NavCategory.cpp:324-361 | the same for any sequence of the manifest's order and id shape |
| ManifestProperties.GraphingIdAndPolicy | src/CalcViewModel/Common/NavCategory.cpp:44 | Graphing is stored as 17 whatever the policy (and -1 without the platform feature); restoring 17 gives Graphing exactly when it is available and enabled at that moment |
| ManifestProperties.PositionsInOrder | src/CalcViewModel/Common/NavCategory.cpp:435-439 | the position is the reference index plus one, and the index equals the reference index (-1 when absent) |
| ManifestProperties.ShapedPositions | src/CalcViewModel/Common/NavCategory.cpp:435-439 | the same for any sequence of the manifest's order and completeness |
| ManifestProperties.PositionAt | src/CalcViewModel/Common/NavCategory.cpp:477-486 | with distinct modes, entry i has position i+1 and index i |
| ManifestProperties.PositionsIncrease | src/CalcViewModel/Common/NavCategory.cpp:477-486 | positions are at least 1 and strictly increase along the manifest |
| ManifestGroups.GroupsOfManifest | src/CalcViewModel/Common/NavCategory.cpp:526-528 | the calculator group is the calculator entries in order, the converter group the converter entries in order, and the None group is empty |
| ManifestGroups.CalculatorGroupSplit | src/CalcViewModel/Common/NavCategory.cpp:526-528 | filtering the manifest is filtering the calculator part followed by filtering the converter part |
| ManifestGroups.ConverterGroupOnly | src/CalcViewModel/Common/NavCategory.cpp:526-528 | the converter entries all belong to the converter group |
| ManifestGroups.GroupMembership | src/CalcViewModel/Common/NavCategory.cpp:392-432 | a mode is in a group exactly when the manifest holds it and the group table puts it there; GetGroupType agrees |
| ManifestGroups.ShapedGroupMembership | src/CalcViewModel/Common/NavCategory.cpp:392-432 | the same for any sequence of the manifest's shape |
| ManifestGroups.ShapedNotInGroup | src/CalcViewModel/Common/NavCategory.cpp:392-399 | a mode outside the manifest or outside the group's table entry has no entry with both, so it is not in the group |
| ManifestGroups.Classification | src/CalcViewModel/Common/NavCategory.cpp:371-390 | the calculator modes are exactly Standard, Scientific and Programmer; the converter modes are exactly the converter-group entries; every manifest mode passes exactly one of the calculator, graphing, date and converter tests |
| ManifestGroups.ShapedClassification | src/CalcViewModel/Common/NavCategory.cpp:371-390 | the same for any sequence of the manifest's shape |
| ManifestGroups.CalculatorModesTable | src/CalcViewModel/Common/NavCategory.cpp:371-375 | in the mode table the calculator group minus Date and Graphing is Standard, Scientific and Programmer |
| ManifestGroups.IndexInGroupManifest | src/CalcViewModel/Common/NavCategory.cpp:460-474 | the index within its own group is the reference index (minus the calculator count for converters); -1 for the wrong group or an absent mode |
| ManifestGroups.ShapedIndexInGroup | src/CalcViewModel/Common/NavCategory.cpp:460-474 | the same for any sequence of the manifest's shape |
| ManifestGroups.ShapedGroupCount | src/CalcViewModel/Common/NavCategory.cpp:460-474 | among the first k entries, min(k, calculator count) are calculators and the rest converters |
| ManifestGroups.ManifestGroupChanges | src/CalcViewModel/Common/NavCategory.cpp:441-457 | within the first k entries there are 0 group changes before any entry, 1 through the calculator group and 2 once a converter is reached |
| ManifestGroups.ShapedGroupChanges | src/CalcViewModel/Common/NavCategory.cpp:441-457 | the same for any sequence of the manifest's group layout |
| ManifestGroups.GroupChangesAcross | src/CalcViewModel/Common/NavCategory.cpp:441-457 | along a calculator run followed by a converter run, the group changes are 1 up to the first c entries and 2 after |
| ManifestGroups.FlatIndexManifest | src/CalcViewModel/Common/NavCategory.cpp:441-457 | the flat index is the reference index plus 1 for calculator modes and plus 2 for converters; -1 when absent |
| ManifestGroups.ShapedFlatIndex | src/CalcViewModel/Common/NavCategory.cpp:441-457 | the same for any sequence of the manifest's shape |
| ManifestGroups.FlatIndexOfFound | src/CalcViewModel/Common/NavCategory.cpp:441-457 | a mode found at index k, with one group change up to the first c entries and two after, has flat index k+1 in the calculator group and k+2 in the converter group |
| ManifestGroups.ShapedGroupAt | src/CalcViewModel/Common/NavCategory.cpp:110-321 | a manifest mode is at its reference index, and that index is in the calculator part exactly when the mode's group is Calculator |
| ManifestGroups.FlatIndexScenarios | src/CalcViewModel/Common/NavCategory.cpp:441-457 | Standard has flat index 1; Currency has 7 with graphing and 6 without |
| ManifestGroups.ShapedFlatIndexScenarios | src/CalcViewModel/Common/NavCategory.cpp:441-457 | the same for any sequence of the manifest's shape |
| ManifestGroups.ShapedAcceleratorKeys | src/CalcViewModel/Common/NavCategory.cpp:497-509 | the keys of the first k entries are Number1..Number(min(k, calculator count)) |
| ManifestGroups.AcceleratorKeysOfManifest | src/CalcViewModel/Common/NavCategory.cpp:497-509 | the accelerator keys are [Number1..Number5] with graphing and [Number1..Number4] without |
| ManifestGroups.ShapedAcceleratorKeysAll | src/CalcViewModel/Common/NavCategory.cpp:497-509 | the same for any sequence of the manifest's shape |
| ManifestGroups.NumberKeysTable | src/CalcViewModel/Common/NavCategory.cpp:118-173 | the contiguous key runs of length 4 and 5 |
| ManifestGroups.VirtualKeyLookup | src/CalcViewModel/Common/NavCategory.cpp:488-495 | the number keys select the calculator modes in order (Number3 is Graphing or Programmer), the None key selects Currency (the first entry without a key), and other keys select None |
| ManifestGroups.ShapedVirtualKeyLookup | src/CalcViewModel/Common/NavCategory.cpp:488-495 | the same for any sequence of the manifest's shape |
| ManifestGroups.KeyTable | src/CalcViewModel/Common/NavCategory.cpp:135-173 | the key table is the None key to Currency, key Number(n) to the mode at reference index n-1 for n up to the calculator count, and None otherwise |
| ManifestGroups.KeyNumber | src/CalcViewModel/Common/NavCategory.cpp:135-173 | exactly the keys Number1..Number9 have a number (None, Number0 and other keys have 0), and it is at most 9 |
| ManifestGroups.KeyNumberInverse | src/CalcViewModel/Common/NavCategory.cpp:135-173 | a key with a number n is Number(n), and Number(n) has number n |
| ManifestGroups.ShapedModeAtKey | src/CalcViewModel/Common/NavCategory.cpp:488-495 | a calculator mode is found by the number key one past its reference index |
| ManifestGroups.ShapedKeyAt | src/CalcViewModel/Common/NavCategory.cpp:488-495 | an entry up to one past the calculator part is found by its own key |
| ManifestGroups.ShapedKeyAbsent | src/CalcViewModel/Common/NavCategory.cpp:488-495 | a key other than None that numbers no calculator entry selects None |
| ManifestGroups.VirtualKeyInverse | src/CalcViewModel/Common/NavCategory.cpp:488-509 | looking up an entry's key, other than None, gives back that entry's mode |
| ManifestGroups.ShapedVirtualKeyInverse | src/CalcViewModel/Common/NavCategory.cpp:488-509 | the same for any sequence of the manifest's shape |
| ManifestGroups.FriendlyNames | src/CalcViewModel/Common/NavCategory.cpp:401-416 | a manifest mode's name is its table name ("None" otherwise); a name, read up to its first NUL, maps back to its mode when the manifest holds it; name then mode is the identity on manifest modes |
| ManifestGroups.ShapedFriendlyNames | src/CalcViewModel/Common/NavCategory.cpp:401-416 | the same for any sequence of the manifest's shape |
| ManifestGroups.ShapedFriendlyName | src/CalcViewModel/Common/NavCategory.cpp:401-407 | the friendly name of a mode in a manifest-shaped sequence |
| ManifestGroups.ShapedNameLookup | src/CalcViewModel/Common/NavCategory.cpp:409-416 | the mode of a name, read up to its first NUL, in a manifest-shaped sequence |
| ManifestGroups.NameLookup | src/CalcViewModel/Common/NavCategory.cpp:409-416 | a name gives the mode whose table name equals it up to its first NUL if the manifest holds that mode, else None |
| ManifestGroups.NameLookupStopsAtNul | src/CalcViewModel/Common/NavCategory.cpp:409-416 | "Date" followed by a NUL and more characters still finds Date |
| ManifestGroups.NegativeInput | src/CalcViewModel/Common/NavCategory.cpp:116-320 | an entry supports negative input exactly when it is a calculator or one of Temperature, Power and Angle |
| ManifestGroups.PreviewModes | src/CalcViewModel/Common/NavCategory.cpp:569-579 | a mode is a preview exactly when it is Graphing and graphing is available |
| ManifestGroups.ShapedPreview | src/CalcViewModel/Common/NavCategory.cpp:569-579 | the same for any sequence of the manifest's order, flags and completeness |
| GraphingPolicy.PolicyAllows | src/CalcViewModel/Common/NavCategory.cpp:91-104 | the policy denies graphing only when the registry value is read and is zero |
| GraphingPolicy.Evaluate | src/CalcViewModel/Common/NavCategory.cpp:75-108 | without the platform feature the answer is false and the cache untouched; otherwise the answer is what the cache holds, or the registry answer, and the cache then holds the answer |
| GraphingPolicy.Answers | src/CalcViewModel/Common/NavCategory.cpp:75-108 | one answer per call, each equal to the first call's answer |
| GraphingPolicy.AnswersStable | src/CalcViewModel/Common/NavCategory.cpp:75-108 | over any sequence of calls, every answer equals the first, whatever the registry says later; all are false without the platform feature |
| GraphingPolicy.GraphingModePolicy.IsGraphingModeEnabled | src/CalcViewModel/Common/NavCategory.cpp:75-108 | the method's answer and new cache are those of the reference transition; a filled cache never changes |
| GraphingPolicy.GraphingModePolicy.constructor | src/CalcViewModel/Common/NavCategory.cpp:69-75 | the probe result is fixed and the cache starts empty |
| Registry.BuildManifest | src/CalcViewModel/Common/NavCategory.cpp:111-321 | the step-by-step build gives the reference manifest for the policy answer it obtained, and leaves the cache as the policy check does |
| Registry.NavCategoryRegistry.Valid | src/CalcViewModel/Common/NavCategory.cpp:111-321 | a valid registry has a filled cache when graphing is available, and a manifest of 5 or 4 calculators plus 13 converters starting with Standard |
| Registry.NavCategoryRegistry.GraphingEnabled | src/CalcViewModel/Common/NavCategory.cpp:75-108 | graphing is enabled only when the platform offers it |
| Registry.NavCategoryRegistry.CreateMenuOptions | src/CalcViewModel/Common/NavCategory.cpp:526-555 | the menu built from the registry's own manifest: a calculator group of 5 or 4 items and a converter group of 13 |
| Registry.NavCategoryRegistry.constructor | src/CalcViewModel/Common/NavCategory.cpp:111-321 | the registry's manifest is the reference manifest for the platform probe and the filled policy cache |
| Registry.NavCategoryRegistry.Deserialize | src/CalcViewModel/Common/NavCategory.cpp:333-361 | restoring with the live policy check equals the pure Deserialize at the cached answer and keeps the cache; the result is the mode of the id if present and allowed, else None |
| NavCategoryGroups.ItemOf | src/CalcViewModel/Common/NavCategory.cpp:530-544 | an item carries its entry's mode, glyph and flags; its access key is the entry's literal key, or the localized `<key>AccessKey` resource when the entry has none |
| NavCategoryGroups.GroupItems | src/CalcViewModel/Common/NavCategory.cpp:526-546 | a group has one item per manifest entry of its type |
| NavCategoryGroups.GroupItemsStep | src/CalcViewModel/Common/NavCategory.cpp:526-546 | one more manifest entry adds its item exactly when it is of the group's type |
| NavCategoryGroups.NavCategoryGroup.constructor | src/CalcViewModel/Common/NavCategory.cpp:511-547 | the group gets its type, localized header and automation name, and its loop appends exactly the items of its type's entries in manifest order |
| NavCategoryGroups.CreateCalculatorCategory | src/CalcViewModel/Common/NavCategory.cpp:557-561 | a new group of the calculator entries |
| NavCategoryGroups.CreateConverterCategory | src/CalcViewModel/Common/NavCategory.cpp:563-567 | a new group of the converter entries |
| NavCategoryGroups.CreateMenuOptions | src/CalcViewModel/Common/NavCategory.cpp:549-555 | the menu is two new groups: Calculator, then Converter, each with its group's items |
| NavCategoryGroups.GroupFilterMembers | src/CalcViewModel/Common/NavCategory.cpp:526-528 | an entry is in a group's filter exactly when it is in the manifest with that group |
| NavCategoryGroups.ItemsCoverGroup | src/CalcViewModel/Common/NavCategory.cpp:526-528 | a group's items hold a mode exactly when IsModeInCategoryGroup says the mode is in that group |
| NavCategoryGroups.ItemsAgreeWithQueries | src/CalcViewModel/Common/NavCategory.cpp:526-546 | item k of a group has index k within the group, a name equal to the localized GetNameResourceKey of its mode, and the group's mode label |
| NavCategoryGroups.ShapedGroupSplit | src/CalcViewModel/Common/NavCategory.cpp:526-528 | in a manifest-shaped sequence the calculator group is its first entries and the converter group the rest |
| NavCategoryGroups.GroupSplit | src/CalcViewModel/Common/NavCategory.cpp:526-528 | a sequence made of a calculator run followed by a converter run splits into those two groups |
| NavCategoryGroups.SliceRuns | src/CalcViewModel/Common/NavCategory.cpp:526-528 | the first c entries are all calculators and the rest all converters |
| NavCategoryGroups.SplitFilters | src/CalcViewModel/Common/NavCategory.cpp:526-528 | a calculator run followed by a converter run filters into those two runs |
| NavCategoryGroups.OneGroup | src/CalcViewModel/Common/NavCategory.cpp:526-528 | a run of entries of one group filters to itself for that group and to nothing for another |
| NavCategoryGroups.ShapedMenuItems | src/CalcViewModel/Common/NavCategory.cpp:526-546 | the calculator group has 5 or 4 items with access keys "1", "2", ... in order; the converter group has 13 items, whose access keys are the localized "AccessKey" resources |
| NavCategoryGroups.MenuItemsOfManifest | src/CalcViewModel/Common/NavCategory.cpp:526-546 | on the manifest itself: 5 or 4 calculator items, item k holding manifest entry k's mode and access key "k+1"; 13 converter items, item k holding converter k's mode and its localized "AccessKey" resource |

## Left out

- `src/Calculator/Views/GraphingCalculator/GraphingCalculator.xaml.cpp` and `EquationInputArea.xaml.h` are not part of this model. They are XAML code-behind and declarations, with no registry logic.
- `RegGetValueW` and `ApiInformation::IsMethodPresent` are Windows calls. Their results are parameters: the read outcome as `Option<uint32>`, the probe as `available`. Registry type checks and buffer sizes are folded into `None`.
- The probe result is a function-local static. It is modelled as the constant field `GraphingModePolicy.available` fixed at construction.
- Localization is not modelled. `AppResourceProvider::GetResourceString` and `LocalizationStringUtil::GetLocalizedString` are the opaque functions of a `Localizer`. Only the choice between the literal access key and the `AccessKey` resource is modelled.
- `towchar_t` allocates a wide string with `_wcsdup`. The model keeps only its decimal rendering (`DecimalString`), and the allocation is not modelled.
- The `dynamic_cast<Box<int>^>` in `Deserialize` becomes an `Option<int>` argument.
- Concurrency is out of scope. This covers the thread-safe initialization of the static manifest and the unsynchronized global cache; calls are taken one at a time.
- Glyphs are code-point strings carried as opaque data; nothing is proved about them.
- `NavCategory` items are built only through the group constructor, modelled as the value `NavCategoryItem`. Their other properties, and the observable-vector notifications of `m_Categories`, are not modelled.
- The pure queries in `NavCategory` take the manifest as an argument rather than reading the static list. In the same way, the pure `NavCategory.Deserialize` takes the current policy answer as a boolean. `Registry.NavCategoryRegistry.Deserialize` ties both to the built manifest and the live cache.
- `NavCategoryGroups.NavCategoryGroup.constructor`, `CreateCalculatorCategory`, `CreateConverterCategory` and `CreateMenuOptions` likewise take the manifest as an argument, where the source reads the static list. `Registry.NavCategoryRegistry.CreateMenuOptions` passes them the registry's own manifest, and `MenuItemsOfManifest` states what the groups then hold.
