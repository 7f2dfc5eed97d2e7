# PerkinElmer EnVision plate-reader conversion, modelled in Dafny

This project models the conversion core of the PerkinElmer EnVision parser
in allotropy. The core takes an intermediate `Data` value (plates with their
results, plate maps, labels, software, instrument and assay information).
It turns that value into an Allotrope plate-reader `Model`: a list of
well-level documents, with one measurement record per well result.

The rules it models:

- **Read-type classifier.** The first of the patterns "ABS", "Absorbance",
  "LUM", "Luminescence" and "Fluorescence" found in the label name decides
  the read type. When none is found, the read type is fluorescence.
- **Measurement time.** The run's time is the timestamp text that is
  smallest in `str` order among the present ones. For month/day/year texts
  this is not the earliest date: "10/1/2022" sorts before "9/30/2022". A
  timestamp is present when it is neither absent nor empty. The run fails
  when no plate has one.
- **Optional-value wrapper.** An absent input gives an absent quantity.
  A present input is wrapped unchanged in the requested unit.
- **Device-control document.** It holds one item, whose variant is chosen by
  the read type. All variants copy the same settings. Only fluorescence adds
  the excitation wavelength and bandwidth.
- **Measurement record.** It holds the sample identity strings (barcode,
  column + row, and barcode + " " + column + row), the plate-map role, the
  compartment temperature, and the reading in the unit of the read type.
- **Grouper.** One pass over the plates appends each record under the key
  (plate number, column, row). A plate without results is skipped. A plate
  with results but no plate map fails the run. One well-level document is
  then emitted per key, in ascending key order.
- **Top-level guard.** The conversion fails first when the well count is
  missing.

Layout:

- `wrappers.dfy` — `Option` and the failure-propagating `Result`.
- `string_order.dfy` — Python's ordering of `str` (code-point
  lexicographic), proved to be a total order.
- `well_keys.dfy` — the ordering of the `(plate number, column, row)` tuple
  keys, and `SortedKeys`, the strictly ascending enumeration of a key set
  (Python's `sorted` on the dictionary keys).
- `structure.dfy` — the input datatypes (`Data`, `Plate`, `Labels`, `PlateMap`, …).
- `schema.dfy` — the output records (device-control items, measurement
  records, documents, `Model`) and the constants of the schema.
- `envision_parser.dfy` — the operations of the parser file. Functions,
  lemmas and methods are written in the source's own form:
  - the classifier loop is the method `GetReadType`;
  - the grouping loops are the methods `GetPlateReaderDocument`,
    `AppendPlateResults` and `EmitWellDocuments`, which mutate a map
    accumulator;
  - every method is proved equal to a functional specification.
- `envision_properties.dfy` — properties of whole runs:
  - which error a run fails with;
  - every result lands in the group of its own key, in plate-then-result
    order;
  - the output order;
  - the run-wide fields;
  - the generated identifiers are the only source of difference between
    two runs;
  - worked examples.

How the model stands in for the parts it cannot reproduce:

- **Errors.** Each `AllotropyError` raise is the `Err` of a `Result`, with
  one `ConversionError` per raise site. `Message` gives the source's text
  for each one.
- **Identifiers.** The random measurement identifiers are a supplied
  function `ids` from (plate index, result index) to a string.
- **Converter constants.** The converter's name and version are a supplied
  `ConverterIdentity`.

## Model

| member | source | states |
|---|---|---|
| EnvisionParser.SafeValue | src/allotropy/parsers/perkin_elmer_envision/perkin_elmer_envision_parser.py:71-72 | the result is absent exactly when the input is absent; otherwise it holds the input value unchanged, in the given unit |
| EnvisionParser.Patterns | src/allotropy/parsers/perkin_elmer_envision/perkin_elmer_envision_parser.py:108-114 | defines the classifier's table: the five (pattern, read type) pairs in the dictionary's insertion order, which is the order the loop tries them |
| EnvisionParser.ReadTypeOf | src/allotropy/parsers/perkin_elmer_envision/perkin_elmer_envision_parser.py:107-122 | when pattern i is the first of the five patterns, in table order, that occurs in the label name, the result is that pattern's read type; when none occurs it is fluorescence; it is total |
| EnvisionParser.MatchFrom | src/allotropy/parsers/perkin_elmer_envision/perkin_elmer_envision_parser.py:116-122 | scanning from pattern i, the result is the read type of the first matching pattern at or after i, or fluorescence when none matches |
| EnvisionParser.GetReadType | src/allotropy/parsers/perkin_elmer_envision/perkin_elmer_envision_parser.py:107-122 | the loop with an early return yields the classifier's read type for the run's label name |
| EnvisionProperties.ClassifierPrecedenceExample | src/allotropy/parsers/perkin_elmer_envision/perkin_elmer_envision_parser.py:108-118 | "ABS" wins over a later "Fluorescence" in the same name: "Fluorescence ABS" is absorbance |
| EnvisionProperties.ClassifierLuminescence | src/allotropy/parsers/perkin_elmer_envision/perkin_elmer_envision_parser.py:108-118 | any name that contains "LUM" and neither "ABS" nor "Absorbance" is luminescence, even when it also contains "Luminescence" or "Fluorescence" |
| EnvisionProperties.ClassifierAbs | src/allotropy/parsers/perkin_elmer_envision/perkin_elmer_envision_parser.py:108-118 | any name that contains "ABS" is absorbance, whatever else it contains, because "ABS" is tried first |
| EnvisionProperties.ClassifierAbsorbance | src/allotropy/parsers/perkin_elmer_envision/perkin_elmer_envision_parser.py:108-118 | any name that contains "Absorbance" is absorbance, by "ABS" when that also occurs in it and by the second pattern otherwise |
| EnvisionProperties.ClassifierDefault | src/allotropy/parsers/perkin_elmer_envision/perkin_elmer_envision_parser.py:120-122 | a name without the letters A, L and F matches no pattern and is classified as fluorescence by default |
| EnvisionParser.Matches | src/allotropy/parsers/perkin_elmer_envision/perkin_elmer_envision_parser.py:117 | defines the test of pattern i: its text occurs in the label name |
| EnvisionParser.FirstMatchAt | src/allotropy/parsers/perkin_elmer_envision/perkin_elmer_envision_parser.py:116-118 | defines the pattern the loop returns on: pattern i matches and no earlier pattern does |
| EnvisionParser.Contains | src/allotropy/parsers/perkin_elmer_envision/perkin_elmer_envision_parser.py:117 | defines the `in` test on str: the pattern is a prefix of some suffix of the label name, matched case-sensitively |
| EnvisionProperties.ContainsHasChars | src/allotropy/parsers/perkin_elmer_envision/perkin_elmer_envision_parser.py:117 | every character of a pattern that occurs in a name occurs in the name |
| EnvisionProperties.ContainsAt | src/allotropy/parsers/perkin_elmer_envision/perkin_elmer_envision_parser.py:117 | a pattern that starts at some position of a name occurs in it |
| EnvisionProperties.MissingCharNoMatch | src/allotropy/parsers/perkin_elmer_envision/perkin_elmer_envision_parser.py:117 | a name lacking some character of a pattern does not match that pattern |
| EnvisionParser.HasMeasurementTime | src/allotropy/parsers/perkin_elmer_envision/perkin_elmer_envision_parser.py:128 | defines the truthiness filter: the timestamp is present and not the empty string, so an empty timestamp is dropped |
| EnvisionParser.TimeOf | src/allotropy/parsers/perkin_elmer_envision/perkin_elmer_envision_parser.py:126 | defines the timestamp text a plate with a present timestamp contributes |
| EnvisionParser.Dates | src/allotropy/parsers/perkin_elmer_envision/perkin_elmer_envision_parser.py:125-129 | a timestamp is in the list exactly when some plate has it present and non-empty |
| EnvisionParser.MinOf | src/allotropy/parsers/perkin_elmer_envision/perkin_elmer_envision_parser.py:132 | the minimum of a non-empty list is one of its elements and is at most every element in str order |
| EnvisionParser.MeasurementTime | src/allotropy/parsers/perkin_elmer_envision/perkin_elmer_envision_parser.py:124-135 | fails with the missing-date error exactly when no plate has a present timestamp; otherwise it is the date of one plate's timestamp that is at most every present timestamp in str order |
| EnvisionProperties.MeasurementTimeIsTextOrder | src/allotropy/parsers/perkin_elmer_envision/perkin_elmer_envision_parser.py:124-135 | of two plates stamped "9/30/2022 9:00:00 AM" and "10/1/2022 9:00:00 AM", the run's time is the October text: the minimum is taken in str order, not by date |
| StringOrder.Le | src/allotropy/parsers/perkin_elmer_envision/perkin_elmer_envision_parser.py:132 | defines `<=` on str: lexicographic by character code, a proper prefix before its extensions (the order `min` uses) |
| StringOrder.Lt | src/allotropy/parsers/perkin_elmer_envision/perkin_elmer_envision_parser.py:132 | defines `<` on str as `<=` between different strings |
| EnvisionParser.FilterWavelength | src/allotropy/parsers/perkin_elmer_envision/perkin_elmer_envision_parser.py:159-162 | absent exactly when the filter is absent; otherwise the filter's wavelength in nanometres |
| EnvisionParser.FilterBandwidth | src/allotropy/parsers/perkin_elmer_envision/perkin_elmer_envision_parser.py:163-166 | absent exactly when the filter is absent; otherwise the filter's bandwidth in nanometres |
| EnvisionParser.DeviceControlAggregateDocument | src/allotropy/parsers/perkin_elmer_envision/perkin_elmer_envision_parser.py:143-225 | exactly one item; its variant and device type follow from the read type; distance, averages, gain and scan position are copied or left absent; the detector wavelength and bandwidth are present exactly when the plate's emission filter is registered, and then equal its values; the excitation fields exist only for fluorescence and follow the excitation filter in the same way |
| EnvisionParser.DetectorType | src/allotropy/parsers/perkin_elmer_envision/perkin_elmer_envision_parser.py:150-198 | defines the device type of each branch: "luminescence detector", "absorbance detector" or "fluorescence detector" |
| EnvisionParser.SharedSettings | src/allotropy/parsers/perkin_elmer_envision/perkin_elmer_envision_parser.py:146-225 | defines the fields every device-control variant carries: distance, averages, gain, scan position, detector wavelength and bandwidth |
| EnvisionParser.SharedSettingsAgree | src/allotropy/parsers/perkin_elmer_envision/perkin_elmer_envision_parser.py:146-225 | the three branches give the same shared settings: only the device type and the excitation fields depend on the read type |
| Structure.GetEmissionFilter | src/allotropy/parsers/perkin_elmer_envision/perkin_elmer_envision_parser.py:144 | the lookup finds a filter exactly when the id is registered, and then it is the registered filter |
| EnvisionParser.MeasurementDocumentOf | src/allotropy/parsers/perkin_elmer_envision/perkin_elmer_envision_parser.py:227-287 | the variant and reading unit match the read type and the reading value is unchanged; location is column + row; the well plate is the barcode; the sample is the barcode, a space and the location; the role is the plate map's lookup; the compartment temperature is present exactly when the chamber temperature is; the identifier and device control are the ones supplied |
| EnvisionParser.ReadingUnit | src/allotropy/parsers/perkin_elmer_envision/perkin_elmer_envision_parser.py:259-285 | defines the unit the reading is wrapped in: milli-absorbance, relative light or relative fluorescence units |
| EnvisionParser.ModalityOf | src/allotropy/parsers/perkin_elmer_envision/perkin_elmer_envision_parser.py:247-287 | defines the read type each measurement-record variant stands for |
| EnvisionParser.ReadingOf | src/allotropy/parsers/perkin_elmer_envision/perkin_elmer_envision_parser.py:247-287 | defines the reading a measurement record carries, whatever its variant |
| EnvisionParser.Group | src/allotropy/parsers/perkin_elmer_envision/perkin_elmer_envision_parser.py:294 | defines reading the `defaultdict(list)` accumulator: the list under a key, or the empty list when the key was never appended to |
| EnvisionParser.Append | src/allotropy/parsers/perkin_elmer_envision/perkin_elmer_envision_parser.py:311-313 | appending to the default-list accumulator adds the record at the end of its key's list and changes no other key |
| EnvisionParser.Processed | src/allotropy/parsers/perkin_elmer_envision/perkin_elmer_envision_parser.py:296-304 | defines a plate whose results are grouped: its results are not `None` and its number has a plate map |
| EnvisionParser.LacksPlateMap | src/allotropy/parsers/perkin_elmer_envision/perkin_elmer_envision_parser.py:297-304 | defines a plate the pass fails on: its results are not `None` and its number has no plate map |
| EnvisionParser.FirstLackingPlateMap | src/allotropy/parsers/perkin_elmer_envision/perkin_elmer_envision_parser.py:296-304 | defines the plate whose error is raised: the first plate, in list order, that lacks its plate map |
| EnvisionParser.ResultCount | src/allotropy/parsers/perkin_elmer_envision/perkin_elmer_envision_parser.py:310 | defines the number of results the inner loop visits on a grouped plate |
| EnvisionParser.KeyAt | src/allotropy/parsers/perkin_elmer_envision/perkin_elmer_envision_parser.py:312 | defines the key of result j of plate i: the plate number, the result's column and its row |
| EnvisionParser.DocAt | src/allotropy/parsers/perkin_elmer_envision/perkin_elmer_envision_parser.py:314-323 | defines the record of result j of plate i: the measurement record built from the plate, the result, the plate's map, its device control and the read type, identified by the supplied identifier that stands for `uuid4` |
| EnvisionParser.PlateKeys | src/allotropy/parsers/perkin_elmer_envision/perkin_elmer_envision_parser.py:310-312 | the keys of a grouped plate's results, one per result, in result order |
| EnvisionParser.PlateDocs | src/allotropy/parsers/perkin_elmer_envision/perkin_elmer_envision_parser.py:310-323 | the records of a grouped plate's results, one per result, in result order |
| EnvisionParser.AddResults | src/allotropy/parsers/perkin_elmer_envision/perkin_elmer_envision_parser.py:310-324 | defines the accumulator after the first m results of a plate: each record appended, in result order, under its (plate number, column, row) key |
| EnvisionParser.GroupPlates | src/allotropy/parsers/perkin_elmer_envision/perkin_elmer_envision_parser.py:296-324 | defines the pass over the first n plates: plates without results are skipped, a plate with results but no plate map raises the missing-plate-map error with its barcode, and the others append their records |
| EnvisionParser.AppendTo | src/allotropy/parsers/perkin_elmer_envision/perkin_elmer_envision_parser.py:311-313 | the in-place append yields the specified accumulator |
| EnvisionParser.AppendPlateResults | src/allotropy/parsers/perkin_elmer_envision/perkin_elmer_envision_parser.py:306-324 | the inner loop over one plate's results, with the device control built once per plate, yields the specified accumulator |
| EnvisionParser.WellDocumentOf | src/allotropy/parsers/perkin_elmer_envision/perkin_elmer_envision_parser.py:327-339 | defines one well-level document: the run's measurement time, the well count as a unitless number, the given records, the protocol and assay identifiers and the well-plate container type |
| EnvisionParser.WellDocuments | src/allotropy/parsers/perkin_elmer_envision/perkin_elmer_envision_parser.py:326-340 | one well-level document per key, in the order of the keys, each holding its key's records |
| EnvisionParser.EmitWellDocuments | src/allotropy/parsers/perkin_elmer_envision/perkin_elmer_envision_parser.py:326-340 | the emitting loop yields exactly the specified list of well-level documents |
| EnvisionParser.PlateReaderDocument | src/allotropy/parsers/perkin_elmer_envision/perkin_elmer_envision_parser.py:289-342 | defines the plate-reader documents: the measurement time (or its error), then the read type, then the pass over all plates (or its error), then one document per key in sorted key order |
| EnvisionParser.GetPlateReaderDocument | src/allotropy/parsers/perkin_elmer_envision/perkin_elmer_envision_parser.py:289-342 | the imperative pass (time, read type, grouping loop with skip and early failure, sorted emission) yields exactly the specified result |
| EnvisionParser.GroupPlatesFailureSticks | src/allotropy/parsers/perkin_elmer_envision/perkin_elmer_envision_parser.py:300-304 | once a plate fails, the pass over any longer prefix of the plates fails with the same error |
| EnvisionParser.Message | src/allotropy/parsers/perkin_elmer_envision/perkin_elmer_envision_parser.py:303 | each error's message is the source's text (this one, and those at lines 85 and 134); the missing-plate-map message ends with the plate's barcode |
| EnvisionParser.ModelOf | src/allotropy/parsers/perkin_elmer_envision/perkin_elmer_envision_parser.py:83-105 | a missing well count fails first; a success carries the plate-reader documents, the manifest, the "EnVision" model number with the instrument's serial number and nickname, and the file, software and converter identity |
| EnvisionParser.ModelFrom | src/allotropy/parsers/perkin_elmer_envision/perkin_elmer_envision_parser.py:88-105 | defines the model around built documents: the manifest, the data-system fields (file, software, converter identity) and the device-system fields ("EnVision", serial number, nickname) |
| EnvisionParser.GetModel | src/allotropy/parsers/perkin_elmer_envision/perkin_elmer_envision_parser.py:83-105 | the guarded construction yields exactly the specified model or error |
| EnvisionProperties.GroupPlatesFailsIff | src/allotropy/parsers/perkin_elmer_envision/perkin_elmer_envision_parser.py:296-304 | the pass succeeds exactly when no plate has results but lacks its plate map; otherwise it fails with the barcode of the first such plate; plates without results never fail |
| EnvisionProperties.FirstLackingExists | src/allotropy/parsers/perkin_elmer_envision/perkin_elmer_envision_parser.py:296-304 | when some plate lacks its map, a first such plate exists at or before it |
| EnvisionProperties.GroupPlatesErrorIsMissingPlateMap | src/allotropy/parsers/perkin_elmer_envision/perkin_elmer_envision_parser.py:300-304 | the only error the pass can raise is a missing plate map |
| EnvisionProperties.ConversionErrors | src/allotropy/parsers/perkin_elmer_envision/perkin_elmer_envision_parser.py:289-304 | after the well-count guard at lines 84-86, a run fails with the missing-well-count error exactly when the count is absent; then with the missing-date error; then with the first missing plate map; with all in place it succeeds |
| EnvisionProperties.KeyedRecords | src/allotropy/parsers/perkin_elmer_envision/perkin_elmer_envision_parser.py:310-324 | defines, independently of the accumulator, the records among the first m whose key is k, in order |
| EnvisionProperties.Contributions | src/allotropy/parsers/perkin_elmer_envision/perkin_elmer_envision_parser.py:296-324 | defines, independently of the accumulator, the records of every result with key k on the first n plates, in plate-then-result order; plates that are skipped contribute nothing |
| EnvisionProperties.NonEmptyGroups | src/allotropy/parsers/perkin_elmer_envision/perkin_elmer_envision_parser.py:311-313 | defines the invariant of an accumulator that is only ever appended to: no key holds an empty list |
| EnvisionProperties.AddResultsNonEmpty | src/allotropy/parsers/perkin_elmer_envision/perkin_elmer_envision_parser.py:311-313 | appending a plate's records keeps every list of the accumulator non-empty |
| EnvisionProperties.AddResultsGroups | src/allotropy/parsers/perkin_elmer_envision/perkin_elmer_envision_parser.py:310-324 | appending a plate's records extends each key's list by exactly the records with that key, in result order, and leaves no list empty |
| EnvisionProperties.AddResultsGroup | src/allotropy/parsers/perkin_elmer_envision/perkin_elmer_envision_parser.py:310-324 | the same statement for one key: the old list followed by the records with that key, in order |
| EnvisionProperties.GroupsAreContributions | src/allotropy/parsers/perkin_elmer_envision/perkin_elmer_envision_parser.py:294-324 | after the pass, each key holds exactly the records of the results with that key, in plate-then-result order; no key has an empty list |
| EnvisionProperties.KeyedRecordsHas | src/allotropy/parsers/perkin_elmer_envision/perkin_elmer_envision_parser.py:310-324 | every appended record is among the records of its own key |
| EnvisionProperties.KeyedRecordsFrom | src/allotropy/parsers/perkin_elmer_envision/perkin_elmer_envision_parser.py:310-324 | every record under a key was appended for a result with that key |
| EnvisionProperties.ContributionsHasResult | src/allotropy/parsers/perkin_elmer_envision/perkin_elmer_envision_parser.py:296-324 | every result's record of a processed plate is among the contributions to its own key |
| EnvisionProperties.ResultLandsInItsGroup | src/allotropy/parsers/perkin_elmer_envision/perkin_elmer_envision_parser.py:310-324 | every result of a processed plate lands in the group keyed by its plate number, column and row |
| EnvisionProperties.DocAtWell | src/allotropy/parsers/perkin_elmer_envision/perkin_elmer_envision_parser.py:235-287 | the record of a result carries its key's column + row as location and the run's read type |
| EnvisionProperties.PlateRecordsShareWell | src/allotropy/parsers/perkin_elmer_envision/perkin_elmer_envision_parser.py:310-324 | every record one plate contributes to a key has that key's column + row as location, and the run's read type |
| EnvisionProperties.ContributionsShareWell | src/allotropy/parsers/perkin_elmer_envision/perkin_elmer_envision_parser.py:296-324 | every record grouped under a key has that key's column + row as location, and the run's read type |
| WellKeys.SortedKeys | src/allotropy/parsers/perkin_elmer_envision/perkin_elmer_envision_parser.py:326 | the sorted keys are strictly ascending in tuple-of-str order and hold exactly the keys of the set |
| WellKeys.AscendingEnumerationUnique | src/allotropy/parsers/perkin_elmer_envision/perkin_elmer_envision_parser.py:326 | two strictly ascending sequences with the same members are equal, so the sorted order is the only one |
| WellKeys.Less | src/allotropy/parsers/perkin_elmer_envision/perkin_elmer_envision_parser.py:326 | defines `<` on the (plate number, column, row) tuples that `sorted` uses: the first differing component decides, in str order |
| WellKeys.LessAsymmetric | src/allotropy/parsers/perkin_elmer_envision/perkin_elmer_envision_parser.py:326 | no two keys are ordered both ways |
| WellKeys.StrictlyAscending | src/allotropy/parsers/perkin_elmer_envision/perkin_elmer_envision_parser.py:326 | defines a key sequence in which every key is less than every later key, the shape of `sorted` output on distinct keys |
| WellKeys.LessTransitive | src/allotropy/parsers/perkin_elmer_envision/perkin_elmer_envision_parser.py:326 | tuple order on keys is transitive |
| WellKeys.LessTrichotomy | src/allotropy/parsers/perkin_elmer_envision/perkin_elmer_envision_parser.py:326 | any two keys are equal or ordered one way or the other, and never both ways |
| WellKeys.LeastExists | src/allotropy/parsers/perkin_elmer_envision/perkin_elmer_envision_parser.py:326 | a non-empty key set has a least element |
| StringOrder.LeReflexive | src/allotropy/parsers/perkin_elmer_envision/perkin_elmer_envision_parser.py:132 | every string is at most itself in str order |
| StringOrder.LtTransitive | src/allotropy/parsers/perkin_elmer_envision/perkin_elmer_envision_parser.py:326 | strict str order is transitive |
| StringOrder.LeTransitive | src/allotropy/parsers/perkin_elmer_envision/perkin_elmer_envision_parser.py:132 | str ordering is transitive |
| StringOrder.LeTotal | src/allotropy/parsers/perkin_elmer_envision/perkin_elmer_envision_parser.py:132 | any two strings are ordered one way or the other |
| StringOrder.LeAntisymmetric | src/allotropy/parsers/perkin_elmer_envision/perkin_elmer_envision_parser.py:132 | strings ordered both ways are equal |
| StringOrder.LtTrichotomy | src/allotropy/parsers/perkin_elmer_envision/perkin_elmer_envision_parser.py:326 | any two strings are equal or strictly ordered one way, and never strictly both ways |
| EnvisionProperties.PlateReaderDocumentOrder | src/allotropy/parsers/perkin_elmer_envision/perkin_elmer_envision_parser.py:326-340 | the output has one document per key with records, in strictly ascending key order, and each holds exactly that key's records |
| EnvisionProperties.RunWideFields | src/allotropy/parsers/perkin_elmer_envision/perkin_elmer_envision_parser.py:329-337 | every well-level document carries the one run-wide measurement time, the well count, the protocol and assay identifiers and the well-plate container type |
| EnvisionProperties.WithoutIdentifier | src/allotropy/parsers/perkin_elmer_envision/perkin_elmer_envision_parser.py:247-287 | defines a record with its generated identifier blanked out |
| EnvisionProperties.WithoutIdentifiers | src/allotropy/parsers/perkin_elmer_envision/perkin_elmer_envision_parser.py:247-287 | blanking identifiers keeps the length and blanks each record in place |
| EnvisionProperties.ItemWithoutIdentifiers | src/allotropy/parsers/perkin_elmer_envision/perkin_elmer_envision_parser.py:327-339 | defines a well-level document with the identifiers of its records blanked out |
| EnvisionProperties.ItemsWithoutIdentifiers | src/allotropy/parsers/perkin_elmer_envision/perkin_elmer_envision_parser.py:326-340 | blanking identifiers keeps the number of documents and blanks each in place |
| EnvisionProperties.ModelWithoutIdentifiers | src/allotropy/parsers/perkin_elmer_envision/perkin_elmer_envision_parser.py:88-105 | defines a model with the identifiers of all its records blanked out |
| EnvisionProperties.WithoutIdentifiersConcat | src/allotropy/parsers/perkin_elmer_envision/perkin_elmer_envision_parser.py:311-313 | erasing identifiers commutes with appending records |
| EnvisionProperties.KeyedRecordsIdentifiers | src/allotropy/parsers/perkin_elmer_envision/perkin_elmer_envision_parser.py:310-324 | record lists that agree pairwise up to identifiers give per-key lists that agree up to identifiers |
| EnvisionProperties.PlateDocsIdentifiers | src/allotropy/parsers/perkin_elmer_envision/perkin_elmer_envision_parser.py:247-287 | a plate's records under two identifier sources agree once identifiers are erased |
| EnvisionProperties.ContributionsIdentifiers | src/allotropy/parsers/perkin_elmer_envision/perkin_elmer_envision_parser.py:247-287 | the contributions under two identifier sources agree once identifiers are erased |
| EnvisionProperties.GroupPlatesIdentifiers | src/allotropy/parsers/perkin_elmer_envision/perkin_elmer_envision_parser.py:296-324 | the pass under two identifier sources has the same outcome, the same keys and the same groups once identifiers are erased |
| EnvisionProperties.WellDocumentsIdentifiers | src/allotropy/parsers/perkin_elmer_envision/perkin_elmer_envision_parser.py:326-340 | groups that agree once identifiers are erased give documents that agree once identifiers are erased |
| EnvisionProperties.IdentifiersOnlyDiffer | src/allotropy/parsers/perkin_elmer_envision/perkin_elmer_envision_parser.py:247-287 | two conversions of the same input fail or succeed alike, with the same error, and their models differ only in the generated measurement identifiers |
| EnvisionProperties.SortedKeysExample | src/allotropy/parsers/perkin_elmer_envision/perkin_elmer_envision_parser.py:326 | keys are ordered by plate number, then column, then row |
| EnvisionProperties.ExampleData | src/allotropy/parsers/perkin_elmer_envision/perkin_elmer_envision_parser.py:83-342 | defines the example run: one plate "PLT1" numbered 1, one absorbance result 0.452 in well A1, its plate map, no emission filter registered |
| EnvisionProperties.ExampleGroups | src/allotropy/parsers/perkin_elmer_envision/perkin_elmer_envision_parser.py:296-324 | the example's pass gives one key, (1, A, 1), holding the one record |
| EnvisionProperties.ExampleTime | src/allotropy/parsers/perkin_elmer_envision/perkin_elmer_envision_parser.py:124-135 | the example's measurement time is its one plate's timestamp |
| EnvisionProperties.ExampleRecord | src/allotropy/parsers/perkin_elmer_envision/perkin_elmer_envision_parser.py:227-287 | the example's record is an absorbance record for "PLT1 A1" with the reading 0.452 in milli-absorbance units and no detector wavelength |
| EnvisionProperties.ExampleDocuments | src/allotropy/parsers/perkin_elmer_envision/perkin_elmer_envision_parser.py:289-342 | the example's output is one well-level document holding its one record |
| EnvisionProperties.SingleWellDocument | src/allotropy/parsers/perkin_elmer_envision/perkin_elmer_envision_parser.py:326-342 | a run whose records all fall under one key produces exactly one well-level document holding them |
| EnvisionProperties.ModelOfDocuments | src/allotropy/parsers/perkin_elmer_envision/perkin_elmer_envision_parser.py:88-90 | when the documents are built and the well count is present, the model wraps them unchanged |
| EnvisionProperties.EndToEndExample | src/allotropy/parsers/perkin_elmer_envision/perkin_elmer_envision_parser.py:83-342 | a one-plate, one-result absorbance run gives one document with one absorbance record for "PLT1 A1", the reading unchanged, and no detector wavelength because no emission filter is registered |

## Left out

- Building the CSV reader and `Data.create` (lines 77-79) are not modelled. They are tokenizing and I/O in another module, so the model takes `Data` as its input.
- The blanket rewrap of every exception into `AllotropyError` (lines 80-81) is not modelled. Errors are the `Err` values of `Result`.
- `uuid.uuid4()` (lines 249, 264, 277) is random. It is replaced by a supplied function from (plate index, result index) to a string; nothing is stated about its values except that they are the only difference between two runs.
- `get_date_time` (line 132) is an inherited helper that is not part of this model. It is the constructor `DateTimeOf` applied to the minimum timestamp text.
- Floats (readings, heights, temperatures, wavelengths, the well count) are reals that are only passed through. No arithmetic or rounding is modelled.
- The structure module is not part of this model:
  - `Labels.get_emission_filter` is a lookup in a map of registered filters;
  - `PlateMap.get_sample_role_type(...).value` is a total function from (column, row) to the role string;
  - plate number, column and row are taken to be strings, so keys are ordered as tuples of strings.
- The converter's name and version are supplied as a `ConverterIdentity` rather than read from the constants module.
- Validation in the schema classes and the `cast` calls are not modelled; records are plain constructors.
- A plate whose result list is present but empty is still looked up in the plate maps, and fails the run when its number has none. This follows the code, which tests only whether the results are `None`. An empty result list is therefore not skipped; only `None` is.
- EnvisionParser.GetPlateReaderDocument, EnvisionParser.PlateReaderDocument: they require a well count because the only call of `_get_plate_reader_document` (line 90) comes after the guard at lines 84-86, so a run without one never reaches it.
