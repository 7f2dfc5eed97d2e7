/** The output documents of the plate-reader schema, as plain records: each of
    the schema's classes becomes a constructor with the same named fields. */
module Schema {
  import opened Wrappers
  import opened Structure

  /** The unit a quantity class of the schema stands for. */
  datatype Unit =
    | Millimeter | Nanometer | UnitlessNumber | DegreeCelsius
    | MilliAbsorbanceUnit | RelativeLightUnit | RelativeFluorescenceUnit

  /** `TQuantityValue<Unit>(value=v)`. */
  datatype Quantity = Quantity(value: Float, unit: Unit)

  /** One device-control item; the three read modalities share every field
      except excitation, which only fluorescence carries. */
  datatype DeviceControlItem =
    | UltravioletAbsorbanceControl(
        deviceType: string,
        detectorDistanceSetting: Option<Quantity>,
        numberOfAverages: Option<Quantity>,
        detectorGainSetting: Option<string>,
        scanPositionSetting: Option<string>,
        detectorWavelengthSetting: Option<Quantity>,
        detectorBandwidthSetting: Option<Quantity>)
    | FluorescenceControl(
        deviceType: string,
        detectorDistanceSetting: Option<Quantity>,
        numberOfAverages: Option<Quantity>,
        detectorGainSetting: Option<string>,
        scanPositionSetting: Option<string>,
        detectorWavelengthSetting: Option<Quantity>,
        detectorBandwidthSetting: Option<Quantity>,
        excitationWavelengthSetting: Option<Quantity>,
        excitationBandwidthSetting: Option<Quantity>)
    | LuminescenceControl(
        deviceType: string,
        detectorDistanceSetting: Option<Quantity>,
        numberOfAverages: Option<Quantity>,
        detectorGainSetting: Option<string>,
        scanPositionSetting: Option<string>,
        detectorWavelengthSetting: Option<Quantity>,
        detectorBandwidthSetting: Option<Quantity>)

  datatype DeviceControlAggregate = DeviceControlAggregate(deviceControlDocument: seq<DeviceControlItem>)

  datatype SampleDocument = SampleDocument(
    sampleIdentifier: string,
    wellPlateIdentifier: string,
    locationIdentifier: string,
    sampleRoleType: string)

  /** One measurement record, in the shape of the run's read modality. */
  datatype MeasurementDocument =
    | UltravioletAbsorbanceMeasurement(
        measurementIdentifier: string,
        sampleDocument: SampleDocument,
        deviceControlAggregateDocument: DeviceControlAggregate,
        absorbance: Quantity,
        compartmentTemperature: Option<Quantity>)
    | LuminescenceMeasurement(
        measurementIdentifier: string,
        sampleDocument: SampleDocument,
        deviceControlAggregateDocument: DeviceControlAggregate,
        luminescence: Quantity,
        compartmentTemperature: Option<Quantity>)
    | FluorescenceMeasurement(
        measurementIdentifier: string,
        sampleDocument: SampleDocument,
        deviceControlAggregateDocument: DeviceControlAggregate,
        fluorescence: Quantity,
        compartmentTemperature: Option<Quantity>)

  /** The value the date parser makes of a timestamp string; the parsing
      itself is not modelled, only which string it was given. */
  datatype DateTimeValue = DateTimeOf(text: Timestamp)

  datatype ContainerType = WellPlate

  datatype MeasurementAggregateDocument = MeasurementAggregateDocument(
    measurementTime: DateTimeValue,
    plateWellCount: Quantity,
    measurementDocument: seq<MeasurementDocument>,
    analyticalMethodIdentifier: string,
    experimentalDataIdentifier: string,
    containerType: ContainerType)

  datatype PlateReaderDocumentItem = PlateReaderDocumentItem(
    measurementAggregateDocument: MeasurementAggregateDocument)

  datatype DataSystemDocument = DataSystemDocument(
    fileName: string,
    softwareName: string,
    softwareVersion: string,
    asmConverterName: string,
    asmConverterVersion: string)

  datatype DeviceSystemDocument = DeviceSystemDocument(
    modelNumber: string,
    equipmentSerialNumber: string,
    deviceIdentifier: string)

  datatype PlateReaderAggregateDocument = PlateReaderAggregateDocument(
    plateReaderDocument: seq<PlateReaderDocumentItem>,
    dataSystemDocument: DataSystemDocument,
    deviceSystemDocument: DeviceSystemDocument)

  datatype Model = Model(
    plateReaderAggregateDocument: PlateReaderAggregateDocument,
    fieldAsmManifest: string)

  /** The converter's own name and version, fixed when it is built. */
  datatype ConverterIdentity = ConverterIdentity(name: string, version: string)

  const Manifest: string := "http://purl.allotrope.org/manifests/plate-reader/BENCHLING/2023/09/plate-reader.manifest"

  const ModelNumber: string := "EnVision"
}
