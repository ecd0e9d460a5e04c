/** The category manifest: the fixed, ordered list of descriptors built once at startup.
    Its content depends on whether graphing is available on the platform and on the
    graphing policy, which sets the Graphing entry's enabled flag. */
module CategoryManifest {
  import opened Wrappers
  import opened NavTypes

  // Calculator categories support negative input; most converter categories are positive only.
  const SUPPORTS_ALL: bool := true
  const SUPPORTS_NEGATIVE: bool := true
  const POSITIVE_ONLY: bool := false

  const StandardEntry: Descriptor :=
    Descriptor(Standard, STANDARD_ID, "Standard", "StandardMode", "\U{E8EF}",
               Calculator, Number1, Some("1"), SUPPORTS_ALL, true, false)
  const ScientificEntry: Descriptor :=
    Descriptor(Scientific, SCIENTIFIC_ID, "Scientific", "ScientificMode", "\U{F196}",
               Calculator, Number2, Some("2"), SUPPORTS_ALL, true, false)

  /** The Graphing entry: enabled as the policy says, always marked preview. */
  function GraphingEntry(isEnabled: bool): Descriptor {
    Descriptor(Graphing, GRAPHING_ID, "Graphing", "GraphingCalculatorMode", "\U{F770}",
               Calculator, Number3, Some("3"), SUPPORTS_ALL, isEnabled, true)
  }

  /** Programmer and Date take the key and access key after the entries before them. */
  function ProgrammerEntry(key: VirtualKey, accessKey: string): Descriptor {
    Descriptor(Programmer, PROGRAMMER_ID, "Programmer", "ProgrammerMode", "\U{ECCE}",
               Calculator, key, Some(accessKey), SUPPORTS_ALL, true, false)
  }

  function DateEntry(key: VirtualKey, accessKey: string): Descriptor {
    Descriptor(Date, DATE_ID, "Date", "DateCalculationMode", "\U{E787}",
               Calculator, key, Some(accessKey), SUPPORTS_ALL, true, false)
  }

  function ConverterEntry(mode: ViewMode, id: int, name: string, nameResourceKey: string, glyph: string,
                          supportsNegative: bool): Descriptor {
    Descriptor(mode, id, name, nameResourceKey, glyph,
               Converter, VirtualKey.None, Option.None, supportsNegative, true, false)
  }

  const ConverterEntries: seq<Descriptor> := [
    ConverterEntry(Currency, CURRENCY_ID, "Currency", "CategoryName_Currency", "\U{EB0D}", POSITIVE_ONLY),
    ConverterEntry(Volume, VOLUME_ID, "Volume", "CategoryName_Volume", "\U{F1AA}", POSITIVE_ONLY),
    ConverterEntry(Length, LENGTH_ID, "Length", "CategoryName_Length", "\U{ECC6}", POSITIVE_ONLY),
    ConverterEntry(Weight, WEIGHT_ID, "Weight and Mass", "CategoryName_Weight", "\U{F4C1}", POSITIVE_ONLY),
    ConverterEntry(Temperature, TEMPERATURE_ID, "Temperature", "CategoryName_Temperature", "\U{E7A3}", SUPPORTS_NEGATIVE),
    ConverterEntry(Energy, ENERGY_ID, "Energy", "CategoryName_Energy", "\U{ECAD}", POSITIVE_ONLY),
    ConverterEntry(Area, AREA_ID, "Area", "CategoryName_Area", "\U{E809}", POSITIVE_ONLY),
    ConverterEntry(Speed, SPEED_ID, "Speed", "CategoryName_Speed", "\U{EADA}", POSITIVE_ONLY),
    ConverterEntry(Time, TIME_ID, "Time", "CategoryName_Time", "\U{E917}", POSITIVE_ONLY),
    ConverterEntry(Power, POWER_ID, "Power", "CategoryName_Power", "\U{E945}", SUPPORTS_NEGATIVE),
    ConverterEntry(Data, DATA_ID, "Data", "CategoryName_Data", "\U{F20F}", POSITIVE_ONLY),
    ConverterEntry(Pressure, PRESSURE_ID, "Pressure", "CategoryName_Pressure", "\U{EC4A}", POSITIVE_ONLY),
    ConverterEntry(Angle, ANGLE_ID, "Angle", "CategoryName_Angle", "\U{F515}", SUPPORTS_NEGATIVE)
  ]

  /** The calculator group: Standard, Scientific, Graphing when available, Programmer, Date. */
  function CalculatorEntries(graphingAvailable: bool, graphingEnabled: bool): (entries: seq<Descriptor>)
    ensures |entries| == CalculatorCount(graphingAvailable)
  {
    [StandardEntry, ScientificEntry]
    + (if graphingAvailable then [GraphingEntry(graphingEnabled)] else [])
    + [ProgrammerEntry(if graphingAvailable then Number4 else Number3, if graphingAvailable then "4" else "3"),
       DateEntry(if graphingAvailable then Number5 else Number4, if graphingAvailable then "5" else "4")]
  }

  /** The manifest, in menu order. */
  function Manifest(graphingAvailable: bool, graphingEnabled: bool): (m: seq<Descriptor>)
    ensures |m| == CalculatorCount(graphingAvailable) + 13
  {
    CalculatorEntries(graphingAvailable, graphingEnabled) + ConverterEntries
  }

  /** Number of calculator-group entries: 5 with graphing, 4 without. */
  function CalculatorCount(graphingAvailable: bool): nat {
    if graphingAvailable then 5 else 4
  }

  /** Reference table of the manifest order: the 0-based index of each mode, -1 if absent. */
  function ManifestIndex(graphingAvailable: bool, mode: ViewMode): int {
    var g := if graphingAvailable then 1 else 0;
    match mode
    case None => -1
    case Standard => 0
    case Scientific => 1
    case Graphing => if graphingAvailable then 2 else -1
    case Programmer => 2 + g
    case Date => 3 + g
    case Currency => 4 + g
    case Volume => 5 + g
    case Length => 6 + g
    case Weight => 7 + g
    case Temperature => 8 + g
    case Energy => 9 + g
    case Area => 10 + g
    case Speed => 11 + g
    case Time => 12 + g
    case Power => 13 + g
    case Data => 14 + g
    case Pressure => 15 + g
    case Angle => 16 + g
  }

  /** Which modes the manifest holds: every mode but `None`, and Graphing only when available. */
  predicate InManifest(graphingAvailable: bool, mode: ViewMode) {
    mode != ViewMode.None && (mode != Graphing || graphingAvailable)
  }

  /** The group each mode belongs to. */
  function GroupOf(mode: ViewMode): CategoryGroupType {
    match mode
    case None => CategoryGroupType.None
    case Standard => Calculator
    case Scientific => Calculator
    case Graphing => Calculator
    case Programmer => Calculator
    case Date => Calculator
    case _ => Converter
  }

  /** Which modes take negative input: every calculator mode, and of the converters only
      Temperature, Power and Angle. */
  predicate SupportsNegativeOf(mode: ViewMode) {
    GroupOf(mode) == Calculator || mode == Temperature || mode == Power || mode == Angle
  }

  /** The friendly name of each mode; "None" for the sentinel, as the lookup answers on a miss. */
  function FriendlyNameOf(mode: ViewMode): (name: string)
    ensures forall i :: 0 <= i < |name| ==> name[i] != '\0'
  {
    match mode
    case None => "None"
    case Standard => "Standard"
    case Scientific => "Scientific"
    case Graphing => "Graphing"
    case Programmer => "Programmer"
    case Date => "Date"
    case Currency => "Currency"
    case Volume => "Volume"
    case Length => "Length"
    case Weight => "Weight and Mass"
    case Temperature => "Temperature"
    case Energy => "Energy"
    case Area => "Area"
    case Speed => "Speed"
    case Time => "Time"
    case Power => "Power"
    case Data => "Data"
    case Pressure => "Pressure"
    case Angle => "Angle"
  }

  /** The inverse of FriendlyNameOf; `None` for every other string. */
  function ModeOfFriendlyName(name: string): ViewMode {
    if name == "Standard" then Standard
    else if name == "Scientific" then Scientific
    else if name == "Graphing" then Graphing
    else if name == "Programmer" then Programmer
    else if name == "Date" then Date
    else if name == "Currency" then Currency
    else if name == "Volume" then Volume
    else if name == "Length" then Length
    else if name == "Weight and Mass" then Weight
    else if name == "Temperature" then Temperature
    else if name == "Energy" then Energy
    else if name == "Area" then Area
    else if name == "Speed" then Speed
    else if name == "Time" then Time
    else if name == "Power" then Power
    else if name == "Data" then Data
    else if name == "Pressure" then Pressure
    else if name == "Angle" then Angle
    else ViewMode.None
  }

  /** No two modes share a friendly name: the inverse table undoes FriendlyNameOf. */
  lemma FriendlyNamesInjective(mode: ViewMode)
    ensures ModeOfFriendlyName(FriendlyNameOf(mode)) == mode
  {
    if GroupOf(mode) == Converter {
      ConverterNamesInjective(mode);
    } else {
      CalculatorNamesInjective(mode);
    }
  }

  lemma CalculatorNamesInjective(mode: ViewMode)
    requires GroupOf(mode) != Converter
    ensures ModeOfFriendlyName(FriendlyNameOf(mode)) == mode
  {
    match mode
    case None => assert "None"[0] == 'N';
    case Graphing => assert "Graphing"[0] == 'G';
    case Date => assert "Date"[0] == 'D';
    case _ =>
  }

  lemma ConverterNamesInjective(mode: ViewMode)
    requires GroupOf(mode) == Converter
    ensures ModeOfFriendlyName(FriendlyNameOf(mode)) == mode
  {
    match mode
    case Currency => assert "Currency"[1] == 'u';
    case Energy => assert "Energy"[0] == 'E';
    case Area => assert "Area"[0] == 'A';
    case Volume => assert "Volume"[0] == 'V';
    case Length => assert "Length"[0] == 'L';
    case Weight =>
    case Temperature =>
    case _ => LaterConverterNamesInjective(mode);
  }

  lemma LaterConverterNamesInjective(mode: ViewMode)
    requires mode == Speed || mode == Time || mode == Power || mode == Data || mode == Pressure || mode == Angle
    ensures ModeOfFriendlyName(FriendlyNameOf(mode)) == mode
  {
    match mode
    case Speed =>
    case Time => assert "Time"[0] == 'T';
    case Power => assert "Power"[0] == 'P';
    case _ => LastConverterNamesInjective(mode);
  }

  lemma LastConverterNamesInjective(mode: ViewMode)
    requires mode == Data || mode == Pressure || mode == Angle
    ensures ModeOfFriendlyName(FriendlyNameOf(mode)) == mode
  {
    match mode
    case Data => assert "Data"[0] == 'D' && "Data"[3] == 'a';
    case Pressure => assert "Pressure"[0] == 'P';
    case Angle => assert "Angle"[0] == 'A';
  }

  /** A name the inverse table maps to a real mode is that mode's name. */
  lemma ModeOfFriendlyNameSound(name: string, mode: ViewMode)
    requires ModeOfFriendlyName(name) == mode && mode != ViewMode.None
    ensures FriendlyNameOf(mode) == name
  {
    if name == "Standard" {
    } else if name == "Scientific" {
    } else if name == "Graphing" {
    } else if name == "Programmer" {
    } else if name == "Date" {
    } else if name == "Currency" {
    } else if name == "Volume" {
    } else if name == "Length" {
    } else if name == "Weight and Mass" {
    } else if name == "Temperature" {
    } else if name == "Energy" {
    } else if name == "Area" {
    } else if name == "Speed" {
    } else if name == "Time" {
    } else if name == "Power" {
    } else if name == "Data" {
    } else if name == "Pressure" {
    } else if name == "Angle" {
    }
  }

  /** Everything the queries rely on about entry `d` at index `i` of the manifest: its place
      in the reference order, its id and name from the fixed tables, its group, its keys
      (contiguous numbers over the calculator group) and its flags. */
  predicate EntryShaped(graphingAvailable: bool, graphingEnabled: bool, i: nat, d: Descriptor) {
    EntryPlaced(graphingAvailable, i, d) && EntryAttributes(graphingAvailable, graphingEnabled, i, d)
  }

  /** The entry's place in the reference order and its id and name from the fixed tables. */
  predicate EntryPlaced(graphingAvailable: bool, i: nat, d: Descriptor) {
    && ManifestIndex(graphingAvailable, d.viewMode) == i && InManifest(graphingAvailable, d.viewMode)
    && d.serializationId == IdOf(d.viewMode) && d.friendlyName == FriendlyNameOf(d.viewMode)
    && d.groupType == GroupOf(d.viewMode)
    && d.isPreview == (d.viewMode == Graphing)
    && d.supportsNegative == SupportsNegativeOf(d.viewMode)
  }

  /** The entry's group by position, its keys (contiguous numbers over the calculator
      group) and its enabled flag. */
  predicate EntryAttributes(graphingAvailable: bool, graphingEnabled: bool, i: nat, d: Descriptor) {
    var c := CalculatorCount(graphingAvailable);
    && d.groupType == (if i < c then Calculator else Converter)
    && d.virtualKey == (if i < c then NumberKey(i + 1) else VirtualKey.None)
    && d.accessKey == (if i < c then Some(DecimalString(i + 1)) else Option.None)
    && d.isEnabled == (d.viewMode != Graphing || graphingEnabled)
  }

  lemma CalculatorEntryShaped(graphingAvailable: bool, graphingEnabled: bool, i: nat)
    requires i < CalculatorCount(graphingAvailable)
    ensures |CalculatorEntries(graphingAvailable, graphingEnabled)| == CalculatorCount(graphingAvailable)
    ensures EntryShaped(graphingAvailable, graphingEnabled, i, CalculatorEntries(graphingAvailable, graphingEnabled)[i])
  {
    CalculatorEntryPlaced(graphingAvailable, graphingEnabled, i);
    CalculatorEntryAttributes(graphingAvailable, graphingEnabled, i);
  }

  lemma CalculatorEntryPlaced(graphingAvailable: bool, graphingEnabled: bool, i: nat)
    requires i < CalculatorCount(graphingAvailable)
    ensures |CalculatorEntries(graphingAvailable, graphingEnabled)| == CalculatorCount(graphingAvailable)
    ensures EntryPlaced(graphingAvailable, i, CalculatorEntries(graphingAvailable, graphingEnabled)[i])
  {
  }

  lemma CalculatorEntryAttributes(graphingAvailable: bool, graphingEnabled: bool, i: nat)
    requires i < CalculatorCount(graphingAvailable)
    ensures EntryAttributes(graphingAvailable, graphingEnabled, i, CalculatorEntries(graphingAvailable, graphingEnabled)[i])
  {
    DecimalDigits();
  }

  lemma ConverterEntryShaped(graphingAvailable: bool, graphingEnabled: bool, j: nat)
    requires j < |ConverterEntries|
    ensures |ConverterEntries| == 13
    ensures EntryShaped(graphingAvailable, graphingEnabled, CalculatorCount(graphingAvailable) + j, ConverterEntries[j])
  {
    ConverterEntryPlaced(graphingAvailable, j);
    ConverterEntryAttributes(graphingAvailable, graphingEnabled, j);
  }

  lemma ConverterEntryPlaced(graphingAvailable: bool, j: nat)
    requires j < |ConverterEntries|
    ensures EntryPlaced(graphingAvailable, CalculatorCount(graphingAvailable) + j, ConverterEntries[j])
  {
    if j < 7 {
      EarlyConverterEntryPlaced(graphingAvailable, j);
    } else {
      LateConverterEntryPlaced(graphingAvailable, j);
    }
  }

  lemma EarlyConverterEntryPlaced(graphingAvailable: bool, j: nat)
    requires j < 7
    ensures EntryPlaced(graphingAvailable, CalculatorCount(graphingAvailable) + j, ConverterEntries[j])
  {
    if j == 0 {
    } else if j == 1 {
    } else if j == 2 {
    } else if j == 3 {
    } else if j == 4 {
    } else if j == 5 {
    }
  }

  lemma LateConverterEntryPlaced(graphingAvailable: bool, j: nat)
    requires 7 <= j < 13
    ensures EntryPlaced(graphingAvailable, CalculatorCount(graphingAvailable) + j, ConverterEntries[j])
  {
    if j == 7 {
    } else if j == 8 {
    } else if j == 9 {
    } else if j == 10 {
    } else if j == 11 {
    }
  }

  lemma ConverterEntryAttributes(graphingAvailable: bool, graphingEnabled: bool, j: nat)
    requires j < |ConverterEntries|
    ensures EntryAttributes(graphingAvailable, graphingEnabled, CalculatorCount(graphingAvailable) + j, ConverterEntries[j])
  {
  }

  /** The manifest, entry by entry: 5 or 4 calculator entries, then 13 converters, each of
      the reference shape. */
  lemma ManifestEntry(graphingAvailable: bool, graphingEnabled: bool, i: nat)
    requires i < |Manifest(graphingAvailable, graphingEnabled)|
    ensures |Manifest(graphingAvailable, graphingEnabled)| == CalculatorCount(graphingAvailable) + 13
    ensures EntryShaped(graphingAvailable, graphingEnabled, i, Manifest(graphingAvailable, graphingEnabled)[i])
  {
    var calculators := CalculatorEntries(graphingAvailable, graphingEnabled);
    var c := CalculatorCount(graphingAvailable);
    CalculatorEntryShaped(graphingAvailable, graphingEnabled, 0);
    ConverterEntryShaped(graphingAvailable, graphingEnabled, 0);
    if i < c {
      CalculatorEntryShaped(graphingAvailable, graphingEnabled, i);
      assert Manifest(graphingAvailable, graphingEnabled)[i] == calculators[i];
    } else {
      ConverterEntryShaped(graphingAvailable, graphingEnabled, i - c);
      assert Manifest(graphingAvailable, graphingEnabled)[i] == ConverterEntries[i - c];
    }
  }

  /** The mode at each reference index: the inverse of ManifestIndex. */
  function ModeAtIndex(graphingAvailable: bool, k: int): ViewMode {
    var g := if graphingAvailable then 1 else 0;
    if k == 0 then Standard
    else if k == 1 then Scientific
    else if k == 2 && graphingAvailable then Graphing
    else if k == 2 + g then Programmer
    else if k == 3 + g then Date
    else if k == 4 + g then Currency
    else if k == 5 + g then Volume
    else if k == 6 + g then Length
    else if k == 7 + g then Weight
    else if k == 8 + g then Temperature
    else if k == 9 + g then Energy
    else if k == 10 + g then Area
    else if k == 11 + g then Speed
    else if k == 12 + g then Time
    else if k == 13 + g then Power
    else if k == 14 + g then Data
    else if k == 15 + g then Pressure
    else if k == 16 + g then Angle
    else ViewMode.None
  }

  /** No two modes of the manifest share a reference index. */
  lemma ManifestIndexInverse(graphingAvailable: bool, mode: ViewMode)
    requires InManifest(graphingAvailable, mode)
    ensures 0 <= ManifestIndex(graphingAvailable, mode) < CalculatorCount(graphingAvailable) + 13
    ensures ModeAtIndex(graphingAvailable, ManifestIndex(graphingAvailable, mode)) == mode
  {
  }

  /** Every reference index names a mode of the manifest. */
  lemma ModeAtIndexInverse(graphingAvailable: bool, k: int)
    requires 0 <= k < CalculatorCount(graphingAvailable) + 13
    ensures InManifest(graphingAvailable, ModeAtIndex(graphingAvailable, k))
    ensures ManifestIndex(graphingAvailable, ModeAtIndex(graphingAvailable, k)) == k
  {
  }

  /** The shape of the manifest, stated fact by fact, so that proofs about the queries
      need not unfold the eighteen literal entries and can ask for only the facts they use. */
  ghost predicate Shaped(graphingAvailable: bool, graphingEnabled: bool, cats: seq<Descriptor>) {
    && |cats| == CalculatorCount(graphingAvailable) + 13
    && OrderShaped(graphingAvailable, cats)
    && IdsShaped(cats) && NamesShaped(cats) && GroupTableShaped(cats)
    && GroupsShaped(graphingAvailable, cats)
    && KeysShaped(graphingAvailable, cats) && AccessKeysShaped(graphingAvailable, cats)
    && FlagsShaped(graphingEnabled, cats)
    && CompleteShaped(graphingAvailable, cats)
  }

  /** Each entry sits at the reference index of its mode. */
  ghost predicate OrderShaped(graphingAvailable: bool, cats: seq<Descriptor>) {
    forall i :: 0 <= i < |cats| ==>
      ManifestIndex(graphingAvailable, cats[i].viewMode) == i && InManifest(graphingAvailable, cats[i].viewMode)
  }

  /** Each entry carries the id the fixed table gives its mode. */
  ghost predicate IdsShaped(cats: seq<Descriptor>) {
    forall i :: 0 <= i < |cats| ==> cats[i].serializationId == IdOf(cats[i].viewMode)
  }

  /** Each entry carries the friendly name the fixed table gives its mode, which the inverse
      table maps back to the mode. */
  ghost predicate NamesShaped(cats: seq<Descriptor>) {
    forall i :: 0 <= i < |cats| ==>
      cats[i].friendlyName == FriendlyNameOf(cats[i].viewMode) && ModeOfFriendlyName(cats[i].friendlyName) == cats[i].viewMode
  }

  /** Each entry carries the group the fixed table gives its mode. */
  ghost predicate GroupTableShaped(cats: seq<Descriptor>) {
    forall i :: 0 <= i < |cats| ==> cats[i].groupType == GroupOf(cats[i].viewMode)
  }

  /** The calculator group is the first CalculatorCount entries, the converter group the rest. */
  ghost predicate GroupsShaped(graphingAvailable: bool, cats: seq<Descriptor>) {
    forall i :: 0 <= i < |cats| ==>
      cats[i].groupType == (if i < CalculatorCount(graphingAvailable) then Calculator else Converter)
  }

  /** The calculator entries carry the number keys 1, 2, ... in order; converters have none. */
  ghost predicate KeysShaped(graphingAvailable: bool, cats: seq<Descriptor>) {
    forall i :: 0 <= i < |cats| ==>
      cats[i].virtualKey == (if i < CalculatorCount(graphingAvailable) then NumberKey(i + 1) else VirtualKey.None)
  }

  /** The calculator entries carry the access keys "1", "2", ... in order; converters have none. */
  ghost predicate AccessKeysShaped(graphingAvailable: bool, cats: seq<Descriptor>) {
    forall i :: 0 <= i < |cats| ==>
      cats[i].accessKey == (if i < CalculatorCount(graphingAvailable) then Some(DecimalString(i + 1)) else Option.None)
  }

  /** Only Graphing is preview, only Graphing can be disabled, by the policy, and negative
      input is supported as the mode table says. */
  ghost predicate FlagsShaped(graphingEnabled: bool, cats: seq<Descriptor>) {
    forall i :: 0 <= i < |cats| ==>
      && cats[i].isPreview == (cats[i].viewMode == Graphing)
      && cats[i].isEnabled == (cats[i].viewMode != Graphing || graphingEnabled)
      && cats[i].supportsNegative == SupportsNegativeOf(cats[i].viewMode)
  }

  /** Every mode the manifest should hold is at its reference index. */
  ghost predicate CompleteShaped(graphingAvailable: bool, cats: seq<Descriptor>) {
    forall mode :: InManifest(graphingAvailable, mode) ==>
      0 <= ManifestIndex(graphingAvailable, mode) < |cats| && cats[ManifestIndex(graphingAvailable, mode)].viewMode == mode
  }

  lemma ManifestShaped(graphingAvailable: bool, graphingEnabled: bool)
    ensures Shaped(graphingAvailable, graphingEnabled, Manifest(graphingAvailable, graphingEnabled))
  {
    var m := Manifest(graphingAvailable, graphingEnabled);
    ManifestEntry(graphingAvailable, graphingEnabled, 0);
    ManifestEntries(graphingAvailable, graphingEnabled);
    EntriesShaped(graphingAvailable, graphingEnabled, m);
    forall mode | InManifest(graphingAvailable, mode)
      ensures 0 <= ManifestIndex(graphingAvailable, mode) < |m| && m[ManifestIndex(graphingAvailable, mode)].viewMode == mode
    {
      ManifestHas(graphingAvailable, graphingEnabled, mode);
    }
  }

  lemma ManifestEntries(graphingAvailable: bool, graphingEnabled: bool)
    ensures forall i :: 0 <= i < |Manifest(graphingAvailable, graphingEnabled)| ==>
      EntryShaped(graphingAvailable, graphingEnabled, i, Manifest(graphingAvailable, graphingEnabled)[i])
  {
    forall i | 0 <= i < |Manifest(graphingAvailable, graphingEnabled)|
      ensures EntryShaped(graphingAvailable, graphingEnabled, i, Manifest(graphingAvailable, graphingEnabled)[i])
    {
      ManifestEntry(graphingAvailable, graphingEnabled, i);
    }
  }

  /** Entry-by-entry shape gives every per-entry fact of Shaped. */
  lemma EntriesShaped(graphingAvailable: bool, graphingEnabled: bool, cats: seq<Descriptor>)
    requires forall i :: 0 <= i < |cats| ==> EntryShaped(graphingAvailable, graphingEnabled, i, cats[i])
    ensures OrderShaped(graphingAvailable, cats) && IdsShaped(cats) && NamesShaped(cats) && GroupTableShaped(cats)
    ensures GroupsShaped(graphingAvailable, cats)
    ensures KeysShaped(graphingAvailable, cats) && AccessKeysShaped(graphingAvailable, cats)
    ensures FlagsShaped(graphingEnabled, cats)
  {
    forall i | 0 <= i < |cats| ensures ModeOfFriendlyName(cats[i].friendlyName) == cats[i].viewMode {
      FriendlyNamesInjective(cats[i].viewMode);
    }
  }

  /** Every mode the manifest should hold is found at its reference index. */
  lemma ManifestHas(graphingAvailable: bool, graphingEnabled: bool, mode: ViewMode)
    requires InManifest(graphingAvailable, mode)
    ensures 0 <= ManifestIndex(graphingAvailable, mode) < |Manifest(graphingAvailable, graphingEnabled)|
    ensures Manifest(graphingAvailable, graphingEnabled)[ManifestIndex(graphingAvailable, mode)].viewMode == mode
  {
    ManifestIndexInverse(graphingAvailable, mode);
    var k := ManifestIndex(graphingAvailable, mode) as nat;
    ManifestEntry(graphingAvailable, graphingEnabled, k);
    ManifestIndexInverse(graphingAvailable, Manifest(graphingAvailable, graphingEnabled)[k].viewMode);
  }
}
