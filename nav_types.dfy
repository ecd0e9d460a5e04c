/** The entities of the navigation-category registry: view modes, group types,
    accelerator keys and the per-mode descriptor (NavCategoryInitializer). */
module NavTypes {
  import opened Wrappers

  /** A calculator or converter mode. `None` is the "no mode" sentinel. */
  datatype ViewMode =
    | None
    | Standard | Scientific | Programmer | Date | Graphing
    | Currency | Volume | Length | Weight | Temperature | Energy
    | Area | Speed | Time | Power | Data | Pressure | Angle

  /** The menu group a mode belongs to. */
  datatype CategoryGroupType = None | Calculator | Converter

  /** A keyboard key. Only the number keys appear in the manifest; every other key is `Other`. */
  datatype VirtualKey =
    | None
    | Number0 | Number1 | Number2 | Number3 | Number4
    | Number5 | Number6 | Number7 | Number8 | Number9
    | Other(code: int)

  /** A 32-bit registry DWORD. */
  newtype uint32 = x: int | 0 <= x < 0x1_0000_0000

  /** One manifest entry. `accessKey` is `None` where the source stores a null literal. */
  datatype Descriptor = Descriptor(
    viewMode: ViewMode,
    serializationId: int,
    friendlyName: string,
    nameResourceKey: string,
    glyph: string,
    groupType: CategoryGroupType,
    virtualKey: VirtualKey,
    accessKey: Option<string>,
    supportsNegative: bool,
    isEnabled: bool,
    isPreview: bool)

  // Persisted serialization ids; these must never change.
  const STANDARD_ID: int := 0
  const SCIENTIFIC_ID: int := 1
  const PROGRAMMER_ID: int := 2
  const DATE_ID: int := 3
  const VOLUME_ID: int := 4
  const LENGTH_ID: int := 5
  const WEIGHT_ID: int := 6
  const TEMPERATURE_ID: int := 7
  const ENERGY_ID: int := 8
  const AREA_ID: int := 9
  const SPEED_ID: int := 10
  const TIME_ID: int := 11
  const POWER_ID: int := 12
  const DATA_ID: int := 13
  const PRESSURE_ID: int := 14
  const ANGLE_ID: int := 15
  const CURRENCY_ID: int := 16
  const GRAPHING_ID: int := 17

  /** The fixed id table: the id every mode is stored under, -1 for `None`. */
  function IdOf(mode: ViewMode): (id: int)
    ensures id == -1 <==> mode == ViewMode.None
  {
    match mode
    case None => -1
    case Standard => STANDARD_ID
    case Scientific => SCIENTIFIC_ID
    case Programmer => PROGRAMMER_ID
    case Date => DATE_ID
    case Volume => VOLUME_ID
    case Length => LENGTH_ID
    case Weight => WEIGHT_ID
    case Temperature => TEMPERATURE_ID
    case Energy => ENERGY_ID
    case Area => AREA_ID
    case Speed => SPEED_ID
    case Time => TIME_ID
    case Power => POWER_ID
    case Data => DATA_ID
    case Pressure => PRESSURE_ID
    case Angle => ANGLE_ID
    case Currency => CURRENCY_ID
    case Graphing => GRAPHING_ID
  }

  /** The inverse of the id table: the mode an id denotes, `None` for every other integer. */
  function ModeOfId(id: int): (mode: ViewMode)
    ensures mode != ViewMode.None ==> IdOf(mode) == id
    ensures 0 <= id <= 17 <==> mode != ViewMode.None
  {
    if id == STANDARD_ID then Standard
    else if id == SCIENTIFIC_ID then Scientific
    else if id == PROGRAMMER_ID then Programmer
    else if id == DATE_ID then Date
    else if id == VOLUME_ID then Volume
    else if id == LENGTH_ID then Length
    else if id == WEIGHT_ID then Weight
    else if id == TEMPERATURE_ID then Temperature
    else if id == ENERGY_ID then Energy
    else if id == AREA_ID then Area
    else if id == SPEED_ID then Speed
    else if id == TIME_ID then Time
    else if id == POWER_ID then Power
    else if id == DATA_ID then Data
    else if id == PRESSURE_ID then Pressure
    else if id == ANGLE_ID then Angle
    else if id == CURRENCY_ID then Currency
    else if id == GRAPHING_ID then Graphing
    else ViewMode.None
  }

  /** Ids are stable and distinct: every real mode is recovered from its id. */
  lemma IdTableInjective(mode: ViewMode)
    ensures mode != ViewMode.None ==> ModeOfId(IdOf(mode)) == mode
    ensures mode == ViewMode.None ==> ModeOfId(IdOf(mode)) == ViewMode.None
  {
  }

  /** Graphing, last added, is stored under 17. */
  lemma GraphingIdTable()
    ensures IdOf(Graphing) == 17 && ModeOfId(GRAPHING_ID) == Graphing
  {
  }

  /** The access-key literals the counter produces for Programmer and Date. */
  lemma DecimalDigits()
    ensures DecimalString(3) == "3" && DecimalString(4) == "4" && DecimalString(5) == "5"
  {
  }

  /** The characters of a wide string before its first NUL: all that a C string comparison
      such as `wcscmp` sees of it. */
  function CString(s: string): (r: string)
    ensures |r| <= |s| && r == s[..|r|]
    ensures forall i :: 0 <= i < |r| ==> r[i] != '\0'
    ensures |r| < |s| ==> s[|r|] == '\0'
    decreases |s|
  {
    if s == [] || s[0] == '\0' then [] else [s[0]] + CString(s[1..])
  }

  /** A string without NUL is its own C string. */
  lemma CStringOfNulFree(s: string)
    requires forall i :: 0 <= i < |s| ==> s[i] != '\0'
    ensures CString(s) == s
  {
  }

  /** The decimal text of a number, as to_wstring writes it. */
  function DecimalString(n: nat): (s: string)
    ensures |s| >= 1
    ensures forall i :: 0 <= i < |s| ==> '0' <= s[i] <= '9'
  {
    if n < 10 then [Digit(n)] else DecimalString(n / 10) + [Digit(n % 10)]
  }

  function Digit(d: nat): (c: char)
    requires d < 10
    ensures '0' <= c <= '9'
  {
    ((('0' as int) + d) as char)
  }

  /** The value a decimal string denotes; the partner of DecimalString. */
  function DecimalValue(s: string): nat
    requires forall i :: 0 <= i < |s| ==> '0' <= s[i] <= '9'
  {
    if s == [] then 0 else 10 * DecimalValue(s[..|s| - 1]) + ((s[|s| - 1] as int) - ('0' as int))
  }

  lemma {:induction false} DecimalRoundTrip(n: nat)
    ensures DecimalValue(DecimalString(n)) == n
  {
    var s := DecimalString(n);
    if n >= 10 {
      DecimalRoundTrip(n / 10);
      assert s[..|s| - 1] == DecimalString(n / 10);
    }
  }

  /** The number key for 1..9, `None` otherwise. */
  function NumberKey(n: int): VirtualKey {
    if n == 1 then Number1
    else if n == 2 then Number2
    else if n == 3 then Number3
    else if n == 4 then Number4
    else if n == 5 then Number5
    else if n == 6 then Number6
    else if n == 7 then Number7
    else if n == 8 then Number8
    else if n == 9 then Number9
    else VirtualKey.None
  }
}
