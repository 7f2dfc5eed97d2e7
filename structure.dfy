/** The intermediate model the converter consumes: what the instrument export's
    blocks parse into (plates with their results, plate maps, label settings,
    instrument and software identity, assay identifiers). The factory that builds
    it from the raw file is outside this model; every value here is input. */
module Structure {
  import opened Wrappers

  /** A Python float from the export (height, temperature, reading, well count).
      The converter only carries these values; it never computes with them. */
  type Float = real

  /** A measurement time as read from the export: a string, later handed to the
      date parser. Python compares such strings lexicographically. */
  type Timestamp = string

  datatype Filter = Filter(name: string, wavelength: Float, bandwidth: Float)

  /** Settings shared by every label pass of the run. */
  datatype Labels = Labels(
    labelName: string,
    excitationFilter: Option<Filter>,
    emissionFilters: map<string, Filter>,
    scanPositionSetting: Option<string>,
    numberOfFlashes: Option<Float>,
    detectorGainSetting: Option<string>)

  /** `labels.get_emission_filter(id)`: the emission filter registered under `id`, if any. */
  function GetEmissionFilter(labels: Labels, id: string): (f: Option<Filter>)
    ensures f.Some? <==> id in labels.emissionFilters
    ensures f.Some? ==> f.value == labels.emissionFilters[id]
  {
    if id in labels.emissionFilters then Some(labels.emissionFilters[id]) else None
  }

  datatype PlateInfo = PlateInfo(
    number: string,
    barcode: string,
    emissionFilterId: string,
    measuredHeight: Option<Float>,
    chamberTemperatureAtStart: Option<Float>,
    measurementTime: Option<Timestamp>)

  /** One well's reading (the structure module calls this record `Result`). */
  datatype WellResult = WellResult(col: string, row: string, value: Float)

  datatype Plate = Plate(plateInfo: PlateInfo, results: Option<seq<WellResult>>)

  /** A plate map; `sampleRoleType(col, row)` is the role's value for that well
      (`get_sample_role_type(col, row).value`), assumed defined for every well. */
  datatype PlateMap = PlateMap(plateN: string, sampleRoleType: (string, string) -> string)

  datatype Software = Software(softwareName: string, softwareVersion: string)

  datatype Instrument = Instrument(serialNumber: string, nickname: string)

  datatype BasicAssayInfo = BasicAssayInfo(protocolId: string, assayId: string)

  datatype Data = Data(
    software: Software,
    instrument: Instrument,
    plates: seq<Plate>,
    plateMaps: map<string, PlateMap>,
    labels: Labels,
    basicAssayInfo: BasicAssayInfo,
    numberOfWells: Option<Float>)
}
