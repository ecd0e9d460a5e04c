/** The NavCategory query facade: linear scans over a manifest that answer a sentinel
    (-1, ViewMode.None, "None", false) when nothing matches. Every query takes the
    manifest as its first argument; CategoryManifest.Manifest is the one the app builds. */
module NavCategory {
  import opened Wrappers
  import opened NavTypes

  /** find_if: the index of the first element satisfying `p`, if any. */
  function FindFirst<T>(s: seq<T>, p: T -> bool): (r: Option<nat>)
    ensures r.Some? ==> r.value < |s| && p(s[r.value]) && forall j :: 0 <= j < r.value ==> !p(s[j])
    ensures r.None? ==> forall j :: 0 <= j < |s| ==> !p(s[j])
  {
    if s == [] then Option.None
    else if p(s[0]) then Some(0)
    else match FindFirst(s[1..], p)
      case Some(i) => Some(i + 1)
      case None => Option.None
  }

  /** The first match is unique: find_if stops at it. */
  lemma FindFirstAt<T>(s: seq<T>, p: T -> bool, k: nat)
    requires k < |s| && p(s[k])
    requires forall j :: 0 <= j < k ==> !p(s[j])
    ensures FindFirst(s, p) == Some(k)
  {
  }

  predicate HasMode(cats: seq<Descriptor>, mode: ViewMode) {
    exists i :: 0 <= i < |cats| && cats[i].viewMode == mode
  }

  /** No view mode occurs twice. */
  predicate ModesDistinct(cats: seq<Descriptor>) {
    forall i, j :: 0 <= i < j < |cats| ==> cats[i].viewMode != cats[j].viewMode
  }

  /** No serialization id occurs twice. */
  predicate IdsDistinct(cats: seq<Descriptor>) {
    forall i, j :: 0 <= i < j < |cats| ==> cats[i].serializationId != cats[j].serializationId
  }

  /** No friendly name occurs twice. */
  predicate NamesDistinct(cats: seq<Descriptor>) {
    forall i, j :: 0 <= i < j < |cats| ==> cats[i].friendlyName != cats[j].friendlyName
  }

  /** The entry a mode lookup finds. */
  function FindMode(cats: seq<Descriptor>, mode: ViewMode): (r: Option<nat>)
    ensures r.None? <==> !HasMode(cats, mode)
    ensures r.Some? ==> r.value < |cats| && cats[r.value].viewMode == mode
    ensures r.Some? ==> forall j :: 0 <= j < r.value ==> cats[j].viewMode != mode
    ensures ModesDistinct(cats) ==> forall i :: 0 <= i < |cats| && cats[i].viewMode == mode ==> r == Some(i)
  {
    FindFirst(cats, (d: Descriptor) => d.viewMode == mode)
  }

  /** The first entry of a mode is the one FindMode finds. */
  lemma FindModeAt(cats: seq<Descriptor>, mode: ViewMode, k: nat)
    requires k < |cats| && cats[k].viewMode == mode
    requires forall j :: 0 <= j < k ==> cats[j].viewMode != mode
    ensures FindMode(cats, mode) == Some(k)
  {
    FindFirstAt(cats, (d: Descriptor) => d.viewMode == mode, k);
  }

  /** The id a mode is stored under, -1 if the mode is not in the manifest. */
  function Serialize(cats: seq<Descriptor>, mode: ViewMode): (id: int)
    ensures !HasMode(cats, mode) ==> id == -1
    ensures ModesDistinct(cats) ==>
      forall i :: 0 <= i < |cats| && cats[i].viewMode == mode ==> id == cats[i].serializationId
  {
    match FindMode(cats, mode)
    case Some(i) => cats[i].serializationId
    case None => -1
  }

  /** The entry a serialization-id lookup finds. */
  function FindId(cats: seq<Descriptor>, serializationId: int): (r: Option<nat>)
    ensures r.None? <==> forall i :: 0 <= i < |cats| ==> cats[i].serializationId != serializationId
    ensures r.Some? ==> r.value < |cats| && cats[r.value].serializationId == serializationId
    ensures IdsDistinct(cats) ==>
      forall i :: 0 <= i < |cats| && cats[i].serializationId == serializationId ==> r == Some(i)
  {
    FindFirst(cats, (d: Descriptor) => d.serializationId == serializationId)
  }

  /** The mode a stored value denotes. `obj` is `None` when the stored object is not a boxed int;
      `graphingEnabled` is what IsGraphingModeEnabled answers at the time of the call. */
  function Deserialize(cats: seq<Descriptor>, obj: Option<int>, graphingEnabled: bool): (mode: ViewMode)
    ensures obj.None? ==> mode == ViewMode.None
    ensures obj.Some? && (forall i :: 0 <= i < |cats| ==> cats[i].serializationId != obj.value) ==>
      mode == ViewMode.None
    ensures IdsDistinct(cats) ==>
      forall i :: 0 <= i < |cats| && obj == Some(cats[i].serializationId) ==>
        mode == (if cats[i].viewMode == Graphing && !graphingEnabled then ViewMode.None else cats[i].viewMode)
  {
    match obj
    case None => ViewMode.None
    case Some(serializationId) =>
      match FindId(cats, serializationId)
      case Some(i) =>
        if cats[i].viewMode == Graphing && !graphingEnabled then ViewMode.None else cats[i].viewMode
      case None => ViewMode.None
  }

  function IsValidViewMode(cats: seq<Descriptor>, mode: ViewMode): (valid: bool)
    ensures valid <==> HasMode(cats, mode)
  {
    FindMode(cats, mode).Some?
  }

  function IsModeInCategoryGroup(cats: seq<Descriptor>, mode: ViewMode, groupType: CategoryGroupType): (b: bool)
    ensures b <==> exists i :: 0 <= i < |cats| && cats[i].viewMode == mode && cats[i].groupType == groupType
  {
    FindFirst(cats, (d: Descriptor) => d.viewMode == mode && d.groupType == groupType).Some?
  }

  /** Graphing is the one mode stored under the graphing id. */
  predicate IsGraphingCalculatorViewMode(mode: ViewMode): (b: bool)
    ensures b <==> IdOf(mode) == GRAPHING_ID
  {
    mode == Graphing
  }

  /** Date is the one mode stored under the date id. */
  predicate IsDateCalculatorViewMode(mode: ViewMode): (b: bool)
    ensures b <==> IdOf(mode) == DATE_ID
  {
    mode == Date
  }

  /** Historically the calculator modes are the calculator group minus Date and Graphing. */
  predicate IsCalculatorViewMode(cats: seq<Descriptor>, mode: ViewMode): (b: bool)
    ensures b <==> mode != Date && mode != Graphing
                   && exists i :: 0 <= i < |cats| && cats[i].viewMode == mode && cats[i].groupType == Calculator
  {
    !IsDateCalculatorViewMode(mode) && !IsGraphingCalculatorViewMode(mode)
    && IsModeInCategoryGroup(cats, mode, Calculator)
  }

  predicate IsConverterViewMode(cats: seq<Descriptor>, mode: ViewMode): (b: bool)
    ensures b <==> exists i :: 0 <= i < |cats| && cats[i].viewMode == mode && cats[i].groupType == Converter
  {
    IsModeInCategoryGroup(cats, mode, Converter)
  }

  function GetFriendlyName(cats: seq<Descriptor>, mode: ViewMode): (name: string)
    ensures !HasMode(cats, mode) ==> name == "None"
    ensures ModesDistinct(cats) ==>
      forall i :: 0 <= i < |cats| && cats[i].viewMode == mode ==> name == cats[i].friendlyName
  {
    match FindMode(cats, mode)
    case Some(i) => cats[i].friendlyName
    case None => "None"
  }

  /** The mode of the first entry whose name equals `name` as `wcscmp` compares them: only
      the characters of `name` before its first NUL take part. The entries' names are the
      characters of NUL-terminated literals. */
  function GetViewModeForFriendlyName(cats: seq<Descriptor>, name: string): (mode: ViewMode)
    ensures (forall i :: 0 <= i < |cats| ==> cats[i].friendlyName != CString(name)) ==> mode == ViewMode.None
    ensures NamesDistinct(cats) ==>
      forall i :: 0 <= i < |cats| && cats[i].friendlyName == CString(name) ==> mode == cats[i].viewMode
  {
    var key := CString(name);
    match FindFirst(cats, (d: Descriptor) => d.friendlyName == key)
    case Some(i) => cats[i].viewMode
    case None => ViewMode.None
  }

  /** The localized-name resource key; `None` stands for the null string. */
  function GetNameResourceKey(cats: seq<Descriptor>, mode: ViewMode): (key: Option<string>)
    ensures key.None? <==> !HasMode(cats, mode)
    ensures ModesDistinct(cats) ==>
      forall i :: 0 <= i < |cats| && cats[i].viewMode == mode ==> key == Some(cats[i].nameResourceKey + "Text")
  {
    match FindMode(cats, mode)
    case Some(i) => Some(cats[i].nameResourceKey + "Text")
    case None => Option.None
  }

  function GetGroupType(cats: seq<Descriptor>, mode: ViewMode): (groupType: CategoryGroupType)
    ensures !HasMode(cats, mode) ==> groupType == CategoryGroupType.None
    ensures ModesDistinct(cats) ==>
      forall i :: 0 <= i < |cats| && cats[i].viewMode == mode ==> groupType == cats[i].groupType
  {
    match FindMode(cats, mode)
    case Some(i) => cats[i].groupType
    case None => CategoryGroupType.None
  }

  /** The group type of a found mode is the group of the entry found. */
  lemma GroupTypeAt(cats: seq<Descriptor>, mode: ViewMode, k: nat)
    requires FindMode(cats, mode) == Some(k)
    ensures GetGroupType(cats, mode) == cats[k].groupType
  {
  }

  /** The 1-based position of a mode in manifest order, -1 if absent (specifies GetPosition). */
  function PositionOf(cats: seq<Descriptor>, mode: ViewMode): (position: int)
    ensures position == -1 <==> !HasMode(cats, mode)
    ensures position != -1 ==>
      1 <= position <= |cats| && cats[position - 1].viewMode == mode
      && forall j :: 0 <= j < position - 1 ==> cats[j].viewMode != mode
  {
    match FindMode(cats, mode)
    case Some(i) => i + 1
    case None => -1
  }

  /** The 0-based index of a mode in manifest order, -1 if absent. */
  function GetIndex(cats: seq<Descriptor>, mode: ViewMode): (index: int)
    ensures index == -1 <==> !HasMode(cats, mode)
    ensures index >= 0 ==>
      index < |cats| && cats[index].viewMode == mode && forall j :: 0 <= j < index ==> cats[j].viewMode != mode
  {
    var position := PositionOf(cats, mode);
    if position - 1 < -1 then -1 else position - 1
  }

  /** The entries of one group, in manifest order. */
  function GroupFilter(cats: seq<Descriptor>, groupType: CategoryGroupType): (r: seq<Descriptor>)
    ensures |r| <= |cats|
    ensures forall k :: 0 <= k < |r| ==> r[k].groupType == groupType
  {
    if cats == [] then []
    else
      var last := cats[|cats| - 1];
      GroupFilter(cats[..|cats| - 1], groupType) + (if last.groupType == groupType then [last] else [])
  }

  /** The 0-based index of a mode among the entries of its group, -1 if the mode is absent
      or in another group (specifies GetIndexInGroup). */
  function IndexInGroupOf(cats: seq<Descriptor>, mode: ViewMode, groupType: CategoryGroupType): (index: int)
    ensures index == -1 <==> !IsModeInCategoryGroup(cats, mode, groupType)
    ensures index < |GroupFilter(cats, groupType)|
  {
    match FindFirst(cats, (d: Descriptor) => d.groupType == groupType && d.viewMode == mode)
    case Some(i) =>
      // The entry found is itself a member, so fewer members come before it than in all.
      GroupFilterStep(cats, groupType, i);
      assert cats == cats[..i + 1] + cats[i + 1..];
      GroupFilterConcat(cats[..i + 1], cats[i + 1..], groupType);
      |GroupFilter(cats[..i], groupType)|
    case None => -1
  }

  /** The group of the last entry of `s`, `None` before the first entry. */
  function LastGroup(s: seq<Descriptor>): CategoryGroupType {
    if s == [] then CategoryGroupType.None else s[|s| - 1].groupType
  }

  /** The number of group changes along `s`, where the first change is from `None`:
      the header slots a flat list puts before each group. */
  function GroupChanges(s: seq<Descriptor>): (changes: nat)
    ensures changes <= |s|
  {
    if s == [] then 0
    else
      var prefix := s[..|s| - 1];
      GroupChanges(prefix) + (if s[|s| - 1].groupType != LastGroup(prefix) then 1 else 0)
  }

  lemma GroupChangesStep(s: seq<Descriptor>, k: nat)
    requires k < |s|
    ensures LastGroup(s[..k + 1]) == s[k].groupType
    ensures GroupChanges(s[..k + 1])
      == GroupChanges(s[..k]) + (if s[k].groupType != LastGroup(s[..k]) then 1 else 0)
  {
    assert s[..k + 1][..k] == s[..k];
  }

  /** The index of a mode in a flat list that puts one header slot before each group,
      -1 if absent (specifies GetFlatIndex). */
  function FlatIndexOf(cats: seq<Descriptor>, mode: ViewMode): (index: int)
    ensures index == -1 <==> !HasMode(cats, mode)
    ensures index != -1 ==> var i := FindMode(cats, mode).value; i <= index <= 2 * i + 1
  {
    match FindMode(cats, mode)
    case Some(i) => i + GroupChanges(cats[..i + 1])
    case None => -1
  }

  /** The mode bound to a key: the FIRST entry whose key equals it, so `None` finds the first
      entry without a key. */
  function GetViewModeForVirtualKey(cats: seq<Descriptor>, key: VirtualKey): (mode: ViewMode)
    ensures (forall i :: 0 <= i < |cats| ==> cats[i].virtualKey != key) ==> mode == ViewMode.None
    ensures forall i :: 0 <= i < |cats| && cats[i].virtualKey == key ==>
      (forall j :: 0 <= j < i ==> cats[j].virtualKey != key) ==> mode == cats[i].viewMode
  {
    match FindFirst(cats, (d: Descriptor) => d.virtualKey == key)
    case Some(i) => cats[i].viewMode
    case None => ViewMode.None
  }

  /** The first entry with a key is the one the key lookup answers. */
  lemma VirtualKeyAt(cats: seq<Descriptor>, key: VirtualKey, k: nat)
    requires k < |cats| && cats[k].virtualKey == key
    requires forall j :: 0 <= j < k ==> cats[j].virtualKey != key
    ensures GetViewModeForVirtualKey(cats, key) == cats[k].viewMode
  {
  }

  /** A key no entry carries looks up to `None`. */
  lemma VirtualKeyAbsent(cats: seq<Descriptor>, key: VirtualKey)
    requires forall j :: 0 <= j < |cats| ==> cats[j].virtualKey != key
    ensures GetViewModeForVirtualKey(cats, key) == ViewMode.None
  {
  }

  /** Group membership holds by a witness entry, and fails when no entry is of the mode and group. */
  lemma InGroupAt(cats: seq<Descriptor>, mode: ViewMode, groupType: CategoryGroupType, k: nat)
    requires k < |cats| && cats[k].viewMode == mode && cats[k].groupType == groupType
    ensures IsModeInCategoryGroup(cats, mode, groupType)
  {
  }

  lemma InGroupAbsent(cats: seq<Descriptor>, mode: ViewMode, groupType: CategoryGroupType)
    requires forall j :: 0 <= j < |cats| ==> !(cats[j].viewMode == mode && cats[j].groupType == groupType)
    ensures !IsModeInCategoryGroup(cats, mode, groupType)
  {
  }

  /** The keys that are not `None`, in manifest order (specifies GetCategoryAcceleratorKeys). */
  function AcceleratorKeysOf(cats: seq<Descriptor>): (keys: seq<VirtualKey>)
    ensures |keys| <= |cats|
    ensures forall k :: 0 <= k < |keys| ==> keys[k] != VirtualKey.None
  {
    if cats == [] then []
    else
      var last := cats[|cats| - 1];
      AcceleratorKeysOf(cats[..|cats| - 1]) + (if last.virtualKey != VirtualKey.None then [last.virtualKey] else [])
  }

  /** Extending a prefix by one entry adds that entry's key, if it has one. */
  lemma AcceleratorKeysStep(cats: seq<Descriptor>, k: nat)
    requires k < |cats|
    ensures AcceleratorKeysOf(cats[..k + 1])
      == AcceleratorKeysOf(cats[..k]) + (if cats[k].virtualKey != VirtualKey.None then [cats[k].virtualKey] else [])
  {
    assert cats[..k + 1][..k] == cats[..k];
  }

  function IsViewModePreview(cats: seq<Descriptor>, mode: ViewMode): (preview: bool)
    ensures !HasMode(cats, mode) ==> !preview
    ensures ModesDistinct(cats) ==>
      forall i :: 0 <= i < |cats| && cats[i].viewMode == mode ==> preview == cats[i].isPreview
  {
    match FindMode(cats, mode)
    case Some(i) => cats[i].isPreview
    case None => false
  }

  // Facts about group filtering on any list.

  lemma {:induction false} GroupFilterConcat(p: seq<Descriptor>, q: seq<Descriptor>, groupType: CategoryGroupType)
    ensures GroupFilter(p + q, groupType) == GroupFilter(p, groupType) + GroupFilter(q, groupType)
  {
    if q != [] {
      var q' := q[..|q| - 1];
      assert (p + q)[..|p + q| - 1] == p + q';
      GroupFilterConcat(p, q', groupType);
    } else {
      assert p + q == p;
    }
  }

  lemma {:induction false} GroupFilterAll(s: seq<Descriptor>, groupType: CategoryGroupType)
    requires forall j :: 0 <= j < |s| ==> s[j].groupType == groupType
    ensures GroupFilter(s, groupType) == s
  {
    if s != [] {
      GroupFilterAll(s[..|s| - 1], groupType);
    }
  }

  lemma {:induction false} GroupFilterNone(s: seq<Descriptor>, groupType: CategoryGroupType)
    requires forall j :: 0 <= j < |s| ==> s[j].groupType != groupType
    ensures GroupFilter(s, groupType) == []
  {
    if s != [] {
      GroupFilterNone(s[..|s| - 1], groupType);
    }
  }

  /** The k-th entry of a group sits at some manifest index i with exactly k group entries before it. */
  lemma {:induction false} GroupFilterAt(cats: seq<Descriptor>, groupType: CategoryGroupType, k: nat) returns (i: nat)
    requires k < |GroupFilter(cats, groupType)|
    ensures i < |cats| && cats[i] == GroupFilter(cats, groupType)[k]
    ensures |GroupFilter(cats[..i], groupType)| == k
  {
    var n := |cats| - 1;
    var prefix := cats[..n];
    if k < |GroupFilter(prefix, groupType)| {
      i := GroupFilterAt(prefix, groupType, k);
      assert cats[..i] == prefix[..i];
    } else {
      i := n;
    }
  }

  /** Indices within a group are 0, 1, ... in manifest order: the k-th entry of the group has index k. */
  lemma IndicesInGroup(cats: seq<Descriptor>, groupType: CategoryGroupType, k: nat)
    requires ModesDistinct(cats)
    requires k < |GroupFilter(cats, groupType)|
    ensures IndexInGroupOf(cats, GroupFilter(cats, groupType)[k].viewMode, groupType) == k
  {
    var i := GroupFilterAt(cats, groupType, k);
    var mode := cats[i].viewMode;
    FindFirstAt(cats, (d: Descriptor) => d.groupType == groupType && d.viewMode == mode, i);
  }

  // The scans the source runs with a counter captured by its find_if predicate.

  method GetPosition(cats: seq<Descriptor>, mode: ViewMode) returns (position: int)
    ensures position == PositionOf(cats, mode)
  {
    position := 0;
    var k := 0;
    while k < |cats|
      invariant 0 <= k <= |cats|
      invariant position == k
      invariant forall j :: 0 <= j < k ==> cats[j].viewMode != mode
    {
      position := position + 1;
      if cats[k].viewMode == mode {
        FindModeAt(cats, mode, k);
        return;
      }
      k := k + 1;
    }
    position := -1;
  }

  method GetIndexInGroup(cats: seq<Descriptor>, mode: ViewMode, groupType: CategoryGroupType) returns (index: int)
    ensures index == IndexInGroupOf(cats, mode, groupType)
  {
    index := -1;
    var k := 0;
    while k < |cats|
      invariant 0 <= k <= |cats|
      invariant index == |GroupFilter(cats[..k], groupType)| - 1
      invariant forall j :: 0 <= j < k ==> !(cats[j].groupType == groupType && cats[j].viewMode == mode)
    {
      GroupFilterStep(cats, groupType, k);
      if cats[k].groupType == groupType {
        index := index + 1;
        if cats[k].viewMode == mode {
          IndexInGroupAt(cats, mode, groupType, k);
          return;
        }
      }
      k := k + 1;
    }
    IndexInGroupAbsent(cats, mode, groupType);
    index := -1;
  }

  /** One more entry grows a group's filter by one exactly when the entry is of the group. */
  lemma GroupFilterStep(cats: seq<Descriptor>, groupType: CategoryGroupType, k: nat)
    requires k < |cats|
    ensures |GroupFilter(cats[..k + 1], groupType)|
      == |GroupFilter(cats[..k], groupType)| + (if cats[k].groupType == groupType then 1 else 0)
  {
    assert cats[..k + 1][..k] == cats[..k];
  }

  /** The first entry of the mode in the group has as index the group members before it. */
  lemma IndexInGroupAt(cats: seq<Descriptor>, mode: ViewMode, groupType: CategoryGroupType, k: nat)
    requires k < |cats| && cats[k].groupType == groupType && cats[k].viewMode == mode
    requires forall j :: 0 <= j < k ==> !(cats[j].groupType == groupType && cats[j].viewMode == mode)
    ensures IndexInGroupOf(cats, mode, groupType) == |GroupFilter(cats[..k], groupType)|
  {
    FindFirstAt(cats, (d: Descriptor) => d.groupType == groupType && d.viewMode == mode, k);
  }

  /** A mode with no entry in the group has index -1 within it. */
  lemma IndexInGroupAbsent(cats: seq<Descriptor>, mode: ViewMode, groupType: CategoryGroupType)
    requires forall j :: 0 <= j < |cats| ==> !(cats[j].groupType == groupType && cats[j].viewMode == mode)
    ensures IndexInGroupOf(cats, mode, groupType) == -1
  {
  }

  /** The flat index of a found mode: its index plus the group headers up to it. */
  lemma FlatIndexAt(cats: seq<Descriptor>, mode: ViewMode, k: nat)
    requires FindMode(cats, mode) == Some(k)
    ensures FlatIndexOf(cats, mode) == k + GroupChanges(cats[..k + 1])
  {
  }

  method GetFlatIndex(cats: seq<Descriptor>, mode: ViewMode) returns (index: int)
    ensures index == FlatIndexOf(cats, mode)
  {
    index := -1;
    var groupType := CategoryGroupType.None;
    var k := 0;
    while k < |cats|
      invariant 0 <= k <= |cats|
      invariant index == k - 1 + GroupChanges(cats[..k])
      invariant groupType == LastGroup(cats[..k])
      invariant forall j :: 0 <= j < k ==> cats[j].viewMode != mode
    {
      GroupChangesStep(cats, k);
      index := index + 1;
      if cats[k].groupType != groupType {
        groupType := cats[k].groupType;
        index := index + 1;
      }
      if cats[k].viewMode == mode {
        FindModeAt(cats, mode, k);
        FlatIndexAt(cats, mode, k);
        return;
      }
      k := k + 1;
    }
    index := -1;
  }

  method GetCategoryAcceleratorKeys(cats: seq<Descriptor>) returns (accelerators: seq<VirtualKey>)
    ensures accelerators == AcceleratorKeysOf(cats)
  {
    accelerators := [];
    var k := 0;
    while k < |cats|
      invariant 0 <= k <= |cats|
      invariant accelerators == AcceleratorKeysOf(cats[..k])
    {
      assert cats[..k + 1][..k] == cats[..k];
      if cats[k].virtualKey != VirtualKey.None {
        accelerators := accelerators + [cats[k].virtualKey];
      }
      k := k + 1;
    }
    assert cats[..k] == cats;
  }
}
