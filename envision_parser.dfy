/** The conversion of a parsed EnVision export into well-level plate-reader
    documents: read-type classification, measurement time, device control,
    measurement records, grouping by well, and the top-level model. */
module EnvisionParser {
  import opened Wrappers
  import opened Structure
  import opened Schema
  import opened WellKeys
  import StringOrder

  /** The read modality of the whole run. */
  datatype ReadType = Absorbance | Fluorescence | Luminescence

  /** The errors the conversion raises; each aborts it with no output. */
  datatype ConversionError =
    | MissingWellCount
    | MissingMeasurementTime
    | MissingPlateMap(barcode: string)

  /** The message each error is raised with; a missing plate map names the plate's barcode. */
  function Message(e: ConversionError): (msg: string)
    ensures e.MissingPlateMap? ==> |e.barcode| < |msg| && msg[|msg| - |e.barcode|..] == e.barcode
  {
    match e
    case MissingWellCount => "Unable to get number of the wells in the plate"
    case MissingMeasurementTime => "Unable to find valid measurement date"
    case MissingPlateMap(barcode) => "Unable to find plate map of " + barcode
  }

  // ---------------------------------------------------------------------------
  // safe_value

  /** `safe_value(cls, value)`: absent stays absent, a present value is wrapped
      unchanged in the quantity of the given unit (never a placeholder zero). */
  function SafeValue(unit: Unit, v: Option<Float>): (r: Option<Quantity>)
    ensures r.None? <==> v.None?
    ensures r.Some? ==> r.value.value == v.value && r.value.unit == unit
  {
    match v
    case None => None
    case Some(x) => Some(Quantity(x, unit))
  }

  // ---------------------------------------------------------------------------
  // Read-type classifier

  /** The classifier's table, in precedence order. */
  function Patterns(): seq<(string, ReadType)> {
    [("ABS", Absorbance),
     ("Absorbance", Absorbance),
     ("LUM", Luminescence),
     ("Luminescence", Luminescence),
     ("Fluorescence", Fluorescence)]
  }

  /** Python's `p in s` on strings: `p` occurs somewhere in `s`. */
  predicate Contains(s: string, p: string)
    decreases |s|
  {
    p <= s || (|s| > 0 && Contains(s[1..], p))
  }

  /** Pattern `i` of the table occurs in the label name. */
  predicate Matches(labelName: string, i: int)
    requires 0 <= i < |Patterns()|
  {
    Contains(labelName, Patterns()[i].0)
  }

  /** Pattern `i` is the first pattern of the table that occurs in the label name. */
  predicate FirstMatchAt(labelName: string, i: int) {
    && 0 <= i < |Patterns()|
    && Matches(labelName, i)
    && forall j :: 0 <= j < i ==> !Matches(labelName, j)
  }

  /** The classification the scan of `Patterns()[i..]` reaches. */
  function MatchFrom(labelName: string, i: nat): (rt: ReadType)
    requires i <= |Patterns()|
    ensures forall k ::
      (i <= k < |Patterns()| && Matches(labelName, k) && (forall j :: i <= j < k ==> !Matches(labelName, j)))
      ==> rt == Patterns()[k].1
    ensures (forall k :: i <= k < |Patterns()| ==> !Matches(labelName, k)) ==> rt == Fluorescence
    decreases |Patterns()| - i
  {
    if i == |Patterns()| then Fluorescence
    else if Matches(labelName, i) then Patterns()[i].1
    else MatchFrom(labelName, i + 1)
  }

  /** The read type of a label name: that of the first pattern, in table order,
      that occurs in it, and fluorescence when none does. Total: it never fails. */
  function ReadTypeOf(labelName: string): (rt: ReadType)
    ensures forall i :: FirstMatchAt(labelName, i) ==> rt == Patterns()[i].1
    ensures (forall i :: 0 <= i < |Patterns()| ==> !Matches(labelName, i)) ==> rt == Fluorescence
  {
    MatchFrom(labelName, 0)
  }

  /** `_get_read_type`: scan the table and return on the first hit. */
  method GetReadType(data: Data) returns (rt: ReadType)
    ensures rt == ReadTypeOf(data.labels.labelName)
  {
    var name := data.labels.labelName;
    for i := 0 to |Patterns()|
      invariant forall j :: 0 <= j < i ==> !Matches(name, j)
    {
      if Contains(name, Patterns()[i].0) {
        assert FirstMatchAt(name, i);
        return Patterns()[i].1;
      }
    }
    return Fluorescence;
  }

  // ---------------------------------------------------------------------------
  // Measurement-time resolver

  /** The plate's measurement time is present and truthy (not None, not ""). */
  predicate HasMeasurementTime(plate: Plate) {
    plate.plateInfo.measurementTime.Some? && plate.plateInfo.measurementTime.value != ""
  }

  function TimeOf(plate: Plate): Timestamp
    requires HasMeasurementTime(plate)
  {
    plate.plateInfo.measurementTime.value
  }

  /** `[plate.plate_info.measurement_time for plate in plates if plate.plate_info.measurement_time]`. */
  function Dates(plates: seq<Plate>): (dates: seq<Timestamp>)
    ensures forall i :: 0 <= i < |plates| && HasMeasurementTime(plates[i]) ==> TimeOf(plates[i]) in dates
    ensures forall t :: t in dates ==> exists i :: 0 <= i < |plates| && HasMeasurementTime(plates[i]) && TimeOf(plates[i]) == t
    decreases |plates|
  {
    if |plates| == 0 then []
    else
      var last := plates[|plates| - 1];
      var prefix := Dates(plates[..|plates| - 1]);
      assert forall i :: 0 <= i < |plates| - 1 ==> plates[..|plates| - 1][i] == plates[i];
      if HasMeasurementTime(last) then prefix + [TimeOf(last)] else prefix
  }

  /** Python's `min` over strings: scan left to right, keep the smaller. */
  function MinOf(dates: seq<Timestamp>): (m: Timestamp)
    requires |dates| > 0
    ensures m in dates
    ensures forall t :: t in dates ==> StringOrder.Le(m, t)
    decreases |dates|
  {
    if |dates| == 1 then
      StringOrder.LeReflexive(dates[0]);
      dates[0]
    else
      var prefix := dates[..|dates| - 1];
      var last := dates[|dates| - 1];
      var current := MinOf(prefix);
      assert dates == prefix + [last];
      if StringOrder.Lt(last, current) then
        assert forall t :: t in prefix ==> StringOrder.Le(last, t) by {
          forall t | t in prefix ensures StringOrder.Le(last, t) {
            StringOrder.LeTransitive(last, current, t);
          }
        }
        StringOrder.LeReflexive(last);
        last
      else
        StringOrder.LeTotal(last, current);
        StringOrder.LeReflexive(current);
        current
  }

  /** `_get_measurement_time`: the least present plate timestamp text in `str`
      order, handed to the date parser; fails when no plate has one. */
  function MeasurementTime(data: Data): (r: Result<DateTimeValue, ConversionError>)
    ensures r.Err? <==> forall i :: 0 <= i < |data.plates| ==> !HasMeasurementTime(data.plates[i])
    ensures r.Err? ==> r.error == MissingMeasurementTime
    ensures r.Ok? ==> exists i :: 0 <= i < |data.plates| && HasMeasurementTime(data.plates[i]) &&
                                  r.value == DateTimeOf(TimeOf(data.plates[i]))
    ensures r.Ok? ==> forall i :: 0 <= i < |data.plates| && HasMeasurementTime(data.plates[i]) ==>
                                  StringOrder.Le(r.value.text, TimeOf(data.plates[i]))
  {
    var dates := Dates(data.plates);
    if |dates| > 0 then Ok(DateTimeOf(MinOf(dates)))
    else
      assert forall i :: 0 <= i < |data.plates| ==> !HasMeasurementTime(data.plates[i]);
      Err(MissingMeasurementTime)
  }

  // ---------------------------------------------------------------------------
  // Device-control builder

  /** The `device_type` string of each modality's detector. */
  function DetectorType(rt: ReadType): string {
    match rt
    case Luminescence => "luminescence detector"
    case Absorbance => "absorbance detector"
    case Fluorescence => "fluorescence detector"
  }

  /** The fields all three device-control variants carry. */
  function SharedSettings(item: DeviceControlItem):
    (Option<Quantity>, Option<Quantity>, Option<string>, Option<string>, Option<Quantity>, Option<Quantity>)
  {
    (item.detectorDistanceSetting, item.numberOfAverages, item.detectorGainSetting,
     item.scanPositionSetting, item.detectorWavelengthSetting, item.detectorBandwidthSetting)
  }

  /** A filter's wavelength in nanometres, absent when the filter is. */
  function FilterWavelength(f: Option<Filter>): (q: Option<Quantity>)
    ensures q.None? <==> f.None?
    ensures f.Some? ==> q == Some(Quantity(f.value.wavelength, Nanometer))
  {
    SafeValue(Nanometer, if f.Some? then Some(f.value.wavelength) else None)
  }

  /** A filter's bandwidth in nanometres, absent when the filter is. */
  function FilterBandwidth(f: Option<Filter>): (q: Option<Quantity>)
    ensures q.None? <==> f.None?
    ensures f.Some? ==> q == Some(Quantity(f.value.bandwidth, Nanometer))
  {
    SafeValue(Nanometer, if f.Some? then Some(f.value.bandwidth) else None)
  }

  /** `_get_device_control_aggregate_document`: one item, in the variant of the
      read type; the shared settings come from the plate and the labels, the
      detector wavelength and bandwidth from the plate's emission filter, and
      only fluorescence adds the excitation filter's. */
  function DeviceControlAggregateDocument(data: Data, plate: Plate, rt: ReadType): (d: DeviceControlAggregate)
    ensures |d.deviceControlDocument| == 1
    ensures d.deviceControlDocument[0].UltravioletAbsorbanceControl? <==> rt == Absorbance
    ensures d.deviceControlDocument[0].FluorescenceControl? <==> rt == Fluorescence
    ensures d.deviceControlDocument[0].LuminescenceControl? <==> rt == Luminescence
    ensures d.deviceControlDocument[0].deviceType == DetectorType(rt)
    ensures var item := d.deviceControlDocument[0];
      var em := GetEmissionFilter(data.labels, plate.plateInfo.emissionFilterId);
      && (item.detectorDistanceSetting.None? <==> plate.plateInfo.measuredHeight.None?)
      && (item.detectorDistanceSetting.Some? ==>
            item.detectorDistanceSetting.value == Quantity(plate.plateInfo.measuredHeight.value, Millimeter))
      && (item.numberOfAverages.None? <==> data.labels.numberOfFlashes.None?)
      && (item.numberOfAverages.Some? ==>
            item.numberOfAverages.value == Quantity(data.labels.numberOfFlashes.value, UnitlessNumber))
      && item.detectorGainSetting == data.labels.detectorGainSetting
      && item.scanPositionSetting == data.labels.scanPositionSetting
      && (em.None? <==> item.detectorWavelengthSetting.None?)
      && (em.None? <==> item.detectorBandwidthSetting.None?)
      && (em.Some? ==> item.detectorWavelengthSetting == Some(Quantity(em.value.wavelength, Nanometer)))
      && (em.Some? ==> item.detectorBandwidthSetting == Some(Quantity(em.value.bandwidth, Nanometer)))
    ensures var item := d.deviceControlDocument[0];
      var ex := data.labels.excitationFilter;
      item.FluorescenceControl? ==>
        && (ex.None? <==> item.excitationWavelengthSetting.None?)
        && (ex.None? <==> item.excitationBandwidthSetting.None?)
        && (ex.Some? ==> item.excitationWavelengthSetting == Some(Quantity(ex.value.wavelength, Nanometer)))
        && (ex.Some? ==> item.excitationBandwidthSetting == Some(Quantity(ex.value.bandwidth, Nanometer)))
  {
    var exFilter := data.labels.excitationFilter;
    var emFilter := GetEmissionFilter(data.labels, plate.plateInfo.emissionFilterId);
    var distance := SafeValue(Millimeter, plate.plateInfo.measuredHeight);
    var averages := SafeValue(UnitlessNumber, data.labels.numberOfFlashes);
    var gain := data.labels.detectorGainSetting;
    var scan := data.labels.scanPositionSetting;
    var wavelength := FilterWavelength(emFilter);
    var bandwidth := FilterBandwidth(emFilter);
    match rt
    case Luminescence =>
      DeviceControlAggregate([LuminescenceControl(
        DetectorType(rt), distance, averages, gain, scan, wavelength, bandwidth)])
    case Absorbance =>
      DeviceControlAggregate([UltravioletAbsorbanceControl(
        DetectorType(rt), distance, averages, gain, scan, wavelength, bandwidth)])
    case Fluorescence =>
      DeviceControlAggregate([FluorescenceControl(
        DetectorType(rt), distance, averages, gain, scan, wavelength, bandwidth,
        FilterWavelength(exFilter), FilterBandwidth(exFilter))])
  }

  /** The three branches agree on every field they share: the read type changes
      only the variant, the detector name and the excitation fields. */
  lemma SharedSettingsAgree(data: Data, plate: Plate, rt1: ReadType, rt2: ReadType)
    ensures SharedSettings(DeviceControlAggregateDocument(data, plate, rt1).deviceControlDocument[0])
         == SharedSettings(DeviceControlAggregateDocument(data, plate, rt2).deviceControlDocument[0])
  {
  }

  // ---------------------------------------------------------------------------
  // Sample resolver and measurement assembler

  /** The unit each modality's reading is reported in. */
  function ReadingUnit(rt: ReadType): Unit {
    match rt
    case Absorbance => MilliAbsorbanceUnit
    case Luminescence => RelativeLightUnit
    case Fluorescence => RelativeFluorescenceUnit
  }

  /** The modality a measurement record's shape stands for. */
  function ModalityOf(m: MeasurementDocument): ReadType {
    match m
    case UltravioletAbsorbanceMeasurement(_, _, _, _, _) => Absorbance
    case LuminescenceMeasurement(_, _, _, _, _) => Luminescence
    case FluorescenceMeasurement(_, _, _, _, _) => Fluorescence
  }

  /** The reading a measurement record carries, whatever its shape. */
  function ReadingOf(m: MeasurementDocument): Quantity {
    match m
    case UltravioletAbsorbanceMeasurement(_, _, _, q, _) => q
    case LuminescenceMeasurement(_, _, _, q, _) => q
    case FluorescenceMeasurement(_, _, _, q, _) => q
  }

  /** `_get_measurement_document`: the sample identity of the well, the plate's
      device control, and the reading unchanged, in the shape and unit of the
      read type. The identifier is supplied by the caller. */
  function MeasurementDocumentOf(
    measurementIdentifier: string, plate: Plate, result: WellResult, pMap: PlateMap,
    deviceControlDocument: seq<DeviceControlItem>, rt: ReadType): (m: MeasurementDocument)
    ensures ModalityOf(m) == rt
    ensures ReadingOf(m) == Quantity(result.value, ReadingUnit(rt))
    ensures m.measurementIdentifier == measurementIdentifier
    ensures m.deviceControlAggregateDocument.deviceControlDocument == deviceControlDocument
    ensures m.sampleDocument.locationIdentifier == result.col + result.row
    ensures m.sampleDocument.wellPlateIdentifier == plate.plateInfo.barcode
    ensures m.sampleDocument.sampleIdentifier ==
            m.sampleDocument.wellPlateIdentifier + " " + m.sampleDocument.locationIdentifier
    ensures m.sampleDocument.sampleRoleType == pMap.sampleRoleType(result.col, result.row)
    ensures m.compartmentTemperature.None? <==> plate.plateInfo.chamberTemperatureAtStart.None?
    ensures m.compartmentTemperature.Some? ==>
            m.compartmentTemperature.value == Quantity(plate.plateInfo.chamberTemperatureAtStart.value, DegreeCelsius)
  {
    var barcode := plate.plateInfo.barcode;
    var wellLocation := result.col + result.row;
    var sample := SampleDocument(
      barcode + " " + wellLocation, barcode, wellLocation, pMap.sampleRoleType(result.col, result.row));
    var temperature := SafeValue(DegreeCelsius, plate.plateInfo.chamberTemperatureAtStart);
    var control := DeviceControlAggregate(deviceControlDocument);
    match rt
    case Absorbance =>
      UltravioletAbsorbanceMeasurement(
        measurementIdentifier, sample, control, Quantity(result.value, MilliAbsorbanceUnit), temperature)
    case Luminescence =>
      LuminescenceMeasurement(
        measurementIdentifier, sample, control, Quantity(result.value, RelativeLightUnit), temperature)
    case Fluorescence =>
      FluorescenceMeasurement(
        measurementIdentifier, sample, control, Quantity(result.value, RelativeFluorescenceUnit), temperature)
  }

  // ---------------------------------------------------------------------------
  // Document grouper: the functional specification

  /** The accumulator: measurement records by well key. */
  type Groups = map<WellKey, seq<MeasurementDocument>>

  /** Reading a `defaultdict(list)`: the list under `k`, empty when there is none. */
  function Group(g: Groups, k: WellKey): seq<MeasurementDocument> {
    if k in g then g[k] else []
  }

  /** `g[k].append(m)` on a `defaultdict(list)`. */
  function Append(g: Groups, k: WellKey, m: MeasurementDocument): (g': Groups)
    ensures g'.Keys == g.Keys + {k}
    ensures forall k' :: Group(g', k') == Group(g, k') + (if k' == k then [m] else [])
  {
    g[k := Group(g, k) + [m]]
  }

  /** Plate `pi` has results and a plate map: its results are grouped. */
  predicate Processed(data: Data, pi: nat) {
    && pi < |data.plates|
    && data.plates[pi].results.Some?
    && data.plates[pi].plateInfo.number in data.plateMaps
  }

  /** Plate `pi` has results but no plate map: the conversion fails on it. */
  predicate LacksPlateMap(data: Data, pi: nat) {
    && pi < |data.plates|
    && data.plates[pi].results.Some?
    && data.plates[pi].plateInfo.number !in data.plateMaps
  }

  /** Plate `pi` is the first plate the conversion fails on. */
  predicate FirstLackingPlateMap(data: Data, pi: nat) {
    LacksPlateMap(data, pi) && forall j :: 0 <= j < pi ==> !LacksPlateMap(data, j)
  }

  function ResultCount(data: Data, pi: nat): nat
    requires Processed(data, pi)
  {
    |data.plates[pi].results.value|
  }

  /** The grouping key of result `j` on plate `pi`. */
  function KeyAt(data: Data, pi: nat, j: nat): WellKey
    requires Processed(data, pi) && j < ResultCount(data, pi)
  {
    var plate := data.plates[pi];
    WellKey(plate.plateInfo.number, plate.results.value[j].col, plate.results.value[j].row)
  }

  /** The measurement record of result `j` on plate `pi`, identified by `ids(pi, j)`. */
  function DocAt(data: Data, rt: ReadType, ids: (nat, nat) -> string, pi: nat, j: nat): MeasurementDocument
    requires Processed(data, pi) && j < ResultCount(data, pi)
  {
    var plate := data.plates[pi];
    MeasurementDocumentOf(
      ids(pi, j), plate, plate.results.value[j], data.plateMaps[plate.plateInfo.number],
      DeviceControlAggregateDocument(data, plate, rt).deviceControlDocument, rt)
  }

  /** The grouping keys of plate `pi`'s results, in result order. */
  function PlateKeys(data: Data, pi: nat): (keys: seq<WellKey>)
    requires Processed(data, pi)
    ensures |keys| == ResultCount(data, pi)
    ensures forall j :: 0 <= j < |keys| ==> keys[j] == KeyAt(data, pi, j)
  {
    seq(ResultCount(data, pi), j requires 0 <= j < ResultCount(data, pi) => KeyAt(data, pi, j))
  }

  /** The measurement records of plate `pi`'s results, in result order. */
  function PlateDocs(data: Data, rt: ReadType, ids: (nat, nat) -> string, pi: nat): (docs: seq<MeasurementDocument>)
    requires Processed(data, pi)
    ensures |docs| == ResultCount(data, pi)
    ensures forall j :: 0 <= j < |docs| ==> docs[j] == DocAt(data, rt, ids, pi, j)
  {
    seq(ResultCount(data, pi), j requires 0 <= j < ResultCount(data, pi) => DocAt(data, rt, ids, pi, j))
  }

  /** `g` after appending the first `m` records, each under its key. */
  function AddResults(g: Groups, keys: seq<WellKey>, docs: seq<MeasurementDocument>, m: nat): Groups
    requires |keys| == |docs| && m <= |keys|
    decreases m
  {
    if m == 0 then g
    else Append(AddResults(g, keys, docs, m - 1), keys[m - 1], docs[m - 1])
  }

  /** The accumulator after the first `n` plates, or the error raised on one of them. */
  function GroupPlates(data: Data, rt: ReadType, ids: (nat, nat) -> string, n: nat): Result<Groups, ConversionError>
    requires n <= |data.plates|
    decreases n
  {
    if n == 0 then Ok(map[])
    else
      var g :- GroupPlates(data, rt, ids, n - 1);
      var plate := data.plates[n - 1];
      if plate.results.None? then Ok(g)
      else if plate.plateInfo.number !in data.plateMaps then Err(MissingPlateMap(plate.plateInfo.barcode))
      else Ok(AddResults(g, PlateKeys(data, n - 1), PlateDocs(data, rt, ids, n - 1), ResultCount(data, n - 1)))
  }

  /** One well-level document over the records of one key, with the run-wide fields. */
  function WellDocumentOf(data: Data, time: DateTimeValue, docs: seq<MeasurementDocument>): PlateReaderDocumentItem
    requires data.numberOfWells.Some?
  {
    PlateReaderDocumentItem(MeasurementAggregateDocument(
      time,
      Quantity(data.numberOfWells.value, UnitlessNumber),
      docs,
      data.basicAssayInfo.protocolId,
      data.basicAssayInfo.assayId,
      WellPlate))
  }

  /** One well-level document per key, in the order of `keys`. */
  function WellDocuments(data: Data, time: DateTimeValue, g: Groups, keys: seq<WellKey>): (items: seq<PlateReaderDocumentItem>)
    requires data.numberOfWells.Some?
    requires forall k :: k in keys ==> k in g
    ensures |items| == |keys|
    ensures forall i :: 0 <= i < |keys| ==> items[i] == WellDocumentOf(data, time, g[keys[i]])
    decreases |keys|
  {
    if |keys| == 0 then []
    else
      var last := keys[|keys| - 1];
      WellDocuments(data, time, g, keys[..|keys| - 1]) + [WellDocumentOf(data, time, g[last])]
  }

  /** What `_get_plate_reader_document` returns or raises. */
  function PlateReaderDocument(data: Data, ids: (nat, nat) -> string): Result<seq<PlateReaderDocumentItem>, ConversionError>
    requires data.numberOfWells.Some?
  {
    var time :- MeasurementTime(data);
    var rt := ReadTypeOf(data.labels.labelName);
    var g :- GroupPlates(data, rt, ids, |data.plates|);
    Ok(WellDocuments(data, time, g, SortedKeys(g.Keys)))
  }

  // ---------------------------------------------------------------------------
  // Document grouper: the implementation

  /** A failure on one plate is the failure of the whole pass. */
  lemma {:induction false} GroupPlatesFailureSticks(data: Data, rt: ReadType, ids: (nat, nat) -> string, n: nat, m: nat)
    requires n <= m <= |data.plates|
    requires GroupPlates(data, rt, ids, n).Err?
    ensures GroupPlates(data, rt, ids, m) == GroupPlates(data, rt, ids, n)
    decreases m
  {
    if m > n {
      GroupPlatesFailureSticks(data, rt, ids, n, m - 1);
    }
  }

  /** The inner loop of `_get_plate_reader_document`: append the record of every
      result of plate `pi` to the accumulator, under its well key. */
  method AppendPlateResults(
    data: Data, readType: ReadType, ids: (nat, nat) -> string, pi: nat, measurementDocs: Groups)
    returns (r: Groups)
    requires Processed(data, pi)
    ensures r == AddResults(measurementDocs, PlateKeys(data, pi), PlateDocs(data, readType, ids, pi), ResultCount(data, pi))
  {
    var plate := data.plates[pi];
    var pMap := data.plateMaps[plate.plateInfo.number];
    var deviceControl := DeviceControlAggregateDocument(data, plate, readType);
    var results := plate.results.value;
    ghost var keys, docs := PlateKeys(data, pi), PlateDocs(data, readType, ids, pi);
    r := measurementDocs;
    for j := 0 to |results|
      invariant r == AddResults(measurementDocs, keys, docs, j)
    {
      var result := results[j];
      var key := WellKey(plate.plateInfo.number, result.col, result.row);
      var doc := MeasurementDocumentOf(
        ids(pi, j), plate, result, pMap, deviceControl.deviceControlDocument, readType);
      assert doc == DocAt(data, readType, ids, pi, j);
      r := AppendTo(r, key, doc);
    }
  }

  /** `group.append(doc)` on the accumulator. */
  method AppendTo(g: Groups, key: WellKey, doc: MeasurementDocument) returns (r: Groups)
    ensures r == Append(g, key, doc)
  {
    var group := if key in g then g[key] else [];
    r := g[key := group + [doc]];
  }

  /** The final loop of `_get_plate_reader_document`: one well-level document per key, in key order. */
  method EmitWellDocuments(data: Data, measurementTime: DateTimeValue, measurementDocs: Groups, keys: seq<WellKey>)
    returns (items: seq<PlateReaderDocumentItem>)
    requires data.numberOfWells.Some?
    requires forall k :: k in keys ==> k in measurementDocs
    ensures items == WellDocuments(data, measurementTime, measurementDocs, keys)
  {
    items := [];
    for k := 0 to |keys|
      invariant items == WellDocuments(data, measurementTime, measurementDocs, keys[..k])
    {
      items := items + [WellDocumentOf(data, measurementTime, measurementDocs[keys[k]])];
      assert keys[..k + 1][..k] == keys[..k];
    }
    assert keys[..|keys|] == keys;
  }

  /** `_get_plate_reader_document`: one pass over the plates and their results
      into a map accumulator, then one document per key in ascending key order.
      The well count is present here: the only caller checks it first. */
  method GetPlateReaderDocument(data: Data, ids: (nat, nat) -> string)
    returns (r: Result<seq<PlateReaderDocumentItem>, ConversionError>)
    requires data.numberOfWells.Some?
    ensures r == PlateReaderDocument(data, ids)
  {
    var time := MeasurementTime(data);
    if time.Err? {
      return Err(time.error);
    }
    var measurementTime := time.value;
    var readType := GetReadType(data);

    var measurementDocs: Groups := map[];
    for pi := 0 to |data.plates|
      invariant GroupPlates(data, readType, ids, pi) == Ok(measurementDocs)
    {
      var plate := data.plates[pi];
      if plate.results.None? {
        continue;
      }
      if plate.plateInfo.number !in data.plateMaps {
        r := Err(MissingPlateMap(plate.plateInfo.barcode));
        GroupPlatesFailureSticks(data, readType, ids, pi + 1, |data.plates|);
        return;
      }
      measurementDocs := AppendPlateResults(data, readType, ids, pi, measurementDocs);
    }

    var keys := SortedKeys(measurementDocs.Keys);
    var items := EmitWellDocuments(data, measurementTime, measurementDocs, keys);
    return Ok(items);
  }

  // ---------------------------------------------------------------------------
  // Top-level model

  /** What `_get_model` returns or raises: no well count fails before anything is built. */
  function ModelOf(data: Data, fileName: string, converter: ConverterIdentity, ids: (nat, nat) -> string)
    : (r: Result<Model, ConversionError>)
    ensures data.numberOfWells.None? ==> r == Err(MissingWellCount)
    ensures r.Ok? ==>
      && data.numberOfWells.Some?
      && PlateReaderDocument(data, ids).Ok?
      && r.value.plateReaderAggregateDocument.plateReaderDocument == PlateReaderDocument(data, ids).value
      && r.value.fieldAsmManifest == Manifest
      && r.value.plateReaderAggregateDocument.deviceSystemDocument ==
         DeviceSystemDocument(ModelNumber, data.instrument.serialNumber, data.instrument.nickname)
      && r.value.plateReaderAggregateDocument.dataSystemDocument ==
         DataSystemDocument(fileName, data.software.softwareName, data.software.softwareVersion,
                            converter.name, converter.version)
  {
    if data.numberOfWells.None? then Err(MissingWellCount)
    else
      var documents :- PlateReaderDocument(data, ids);
      Ok(ModelFrom(data, fileName, converter, documents))
  }

  function ModelFrom(data: Data, fileName: string, converter: ConverterIdentity, documents: seq<PlateReaderDocumentItem>): Model {
    Model(
      PlateReaderAggregateDocument(
        documents,
        DataSystemDocument(
          fileName, data.software.softwareName, data.software.softwareVersion,
          converter.name, converter.version),
        DeviceSystemDocument(ModelNumber, data.instrument.serialNumber, data.instrument.nickname)),
      Manifest)
  }

  /** `_get_model`. */
  method GetModel(data: Data, fileName: string, converter: ConverterIdentity, ids: (nat, nat) -> string)
    returns (r: Result<Model, ConversionError>)
    ensures r == ModelOf(data, fileName, converter, ids)
  {
    if data.numberOfWells.None? {
      return Err(MissingWellCount);
    }
    var documents := GetPlateReaderDocument(data, ids);
    if documents.Err? {
      return Err(documents.error);
    }
    return Ok(ModelFrom(data, fileName, converter, documents.value));
  }
}
