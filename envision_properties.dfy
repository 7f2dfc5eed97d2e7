/** Properties of the conversion that relate several calls or a whole run:
    which error a run fails with, where every result lands, the order of the
    well-level documents, the run-wide fields, and that the generated
    measurement identifiers are the only thing two conversions can differ in. */
module EnvisionProperties {
  import opened Wrappers
  import opened Structure
  import opened Schema
  import opened WellKeys
  import opened EnvisionParser

  // ---------------------------------------------------------------------------
  // Failures

  /** The pass over the plates fails exactly when some plate has results but no
      plate map, and then with the barcode of the first such plate. Plates without
      results never fail, whatever their number. */
  lemma {:induction false} GroupPlatesFailsIff(data: Data, rt: ReadType, ids: (nat, nat) -> string, n: nat)
    requires n <= |data.plates|
    ensures (forall i :: 0 <= i < n ==> !LacksPlateMap(data, i)) <==> GroupPlates(data, rt, ids, n).Ok?
    ensures forall i :: 0 <= i < n && FirstLackingPlateMap(data, i) ==>
      GroupPlates(data, rt, ids, n) == Err(MissingPlateMap(data.plates[i].plateInfo.barcode))
    decreases n
  {
    if n > 0 {
      GroupPlatesFailsIff(data, rt, ids, n - 1);
      if GroupPlates(data, rt, ids, n - 1).Err? {
        var i :| 0 <= i < n - 1 && LacksPlateMap(data, i);
        FirstLackingExists(data, i);
      } else if !LacksPlateMap(data, n - 1) {
        assert forall i :: 0 <= i < n ==> !LacksPlateMap(data, i) by {
          forall i | 0 <= i < n ensures !LacksPlateMap(data, i) {
            if i < n - 1 {
              assert !LacksPlateMap(data, i);
            }
          }
        }
      }
    }
  }

  /** Below any plate the conversion fails on there is a first one. */
  lemma {:induction false} FirstLackingExists(data: Data, i: nat)
    requires LacksPlateMap(data, i)
    ensures exists f :: 0 <= f <= i && FirstLackingPlateMap(data, f)
    decreases i
  {
    if !FirstLackingPlateMap(data, i) {
      var j :| 0 <= j < i && LacksPlateMap(data, j);
      FirstLackingExists(data, j);
    }
  }

  /** Which error a conversion raises, in the order the source checks: the well
      count before anything else, then the measurement time, then the plate maps
      plate by plate; with all three in place it succeeds. */
  lemma ConversionErrors(data: Data, fileName: string, converter: ConverterIdentity, ids: (nat, nat) -> string)
    ensures var r := ModelOf(data, fileName, converter, ids);
      && (r == Err(MissingWellCount) <==> data.numberOfWells.None?)
      && (data.numberOfWells.Some? && MeasurementTime(data).Err? ==> r == Err(MissingMeasurementTime))
      && (forall i: nat :: data.numberOfWells.Some? && MeasurementTime(data).Ok? && FirstLackingPlateMap(data, i) ==>
            r == Err(MissingPlateMap(data.plates[i].plateInfo.barcode)))
      && ((data.numberOfWells.Some? && MeasurementTime(data).Ok? &&
           (forall i :: 0 <= i < |data.plates| ==> !LacksPlateMap(data, i))) ==> r.Ok?)
  {
    var rt := ReadTypeOf(data.labels.labelName);
    GroupPlatesFailsIff(data, rt, ids, |data.plates|);
    GroupPlatesErrorIsMissingPlateMap(data, rt, ids, |data.plates|);
  }

  /** The pass over the plates raises nothing but a missing plate map. */
  lemma {:induction false} GroupPlatesErrorIsMissingPlateMap(data: Data, rt: ReadType, ids: (nat, nat) -> string, n: nat)
    requires n <= |data.plates|
    ensures GroupPlates(data, rt, ids, n).Err? ==> GroupPlates(data, rt, ids, n).error.MissingPlateMap?
    decreases n
  {
    if n > 0 {
      GroupPlatesErrorIsMissingPlateMap(data, rt, ids, n - 1);
    }
  }

  // ---------------------------------------------------------------------------
  // Grouping against a per-key reference

  /** The first `m` records whose key is `k`, in order. */
  function KeyedRecords(keys: seq<WellKey>, docs: seq<MeasurementDocument>, m: nat, k: WellKey): seq<MeasurementDocument>
    requires |keys| == |docs| && m <= |keys|
    decreases m
  {
    if m == 0 then []
    else KeyedRecords(keys, docs, m - 1, k) + (if keys[m - 1] == k then [docs[m - 1]] else [])
  }

  /** The records of every result with key `k` on the first `n` plates, in
      plate-then-result order; plates that are not processed contribute nothing. */
  function Contributions(data: Data, rt: ReadType, ids: (nat, nat) -> string, n: nat, k: WellKey)
    : seq<MeasurementDocument>
    requires n <= |data.plates|
    decreases n
  {
    if n == 0 then []
    else
      Contributions(data, rt, ids, n - 1, k) +
      (if Processed(data, n - 1)
       then KeyedRecords(PlateKeys(data, n - 1), PlateDocs(data, rt, ids, n - 1), ResultCount(data, n - 1), k)
       else [])
  }

  /** No key of the accumulator holds an empty list. */
  predicate NonEmptyGroups(g: Groups) {
    forall k :: k in g ==> g[k] != []
  }

  /** Appending a plate's records adds, under each key, that key's records in
      order, and leaves no key with an empty list. */
  lemma AddResultsGroups(g: Groups, keys: seq<WellKey>, docs: seq<MeasurementDocument>, m: nat)
    requires |keys| == |docs| && m <= |keys|
    requires NonEmptyGroups(g)
    ensures NonEmptyGroups(AddResults(g, keys, docs, m))
    ensures forall k :: Group(AddResults(g, keys, docs, m), k) == Group(g, k) + KeyedRecords(keys, docs, m, k)
  {
    AddResultsNonEmpty(g, keys, docs, m);
    forall k
      ensures Group(AddResults(g, keys, docs, m), k) == Group(g, k) + KeyedRecords(keys, docs, m, k)
    {
      AddResultsGroup(g, keys, docs, m, k);
    }
  }

  lemma {:induction false} AddResultsNonEmpty(g: Groups, keys: seq<WellKey>, docs: seq<MeasurementDocument>, m: nat)
    requires |keys| == |docs| && m <= |keys|
    requires NonEmptyGroups(g)
    ensures NonEmptyGroups(AddResults(g, keys, docs, m))
    decreases m
  {
    if m > 0 {
      AddResultsNonEmpty(g, keys, docs, m - 1);
      AppendKeepsNonEmpty(AddResults(g, keys, docs, m - 1), keys[m - 1], docs[m - 1]);
    }
  }

  /** The list of one key after the first `m` records. */
  lemma {:induction false} AddResultsGroup(g: Groups, keys: seq<WellKey>, docs: seq<MeasurementDocument>, m: nat, k: WellKey)
    requires |keys| == |docs| && m <= |keys|
    ensures Group(AddResults(g, keys, docs, m), k) == Group(g, k) + KeyedRecords(keys, docs, m, k)
    decreases m
  {
    if m == 0 {
      assert Group(g, k) + [] == Group(g, k);
    } else {
      AddResultsGroup(g, keys, docs, m - 1, k);
      var before := AddResults(g, keys, docs, m - 1);
      var prior := KeyedRecords(keys, docs, m - 1, k);
      assert Group(before, k) == Group(g, k) + prior;
      if keys[m - 1] == k {
        assert Group(AddResults(g, keys, docs, m), k) == Group(before, k) + [docs[m - 1]];
        assert KeyedRecords(keys, docs, m, k) == prior + [docs[m - 1]];
        ConcatAssociative(Group(g, k), prior, [docs[m - 1]]);
      } else {
        assert Group(AddResults(g, keys, docs, m), k) == Group(before, k) + [];
        assert Group(before, k) + [] == Group(before, k);
        assert KeyedRecords(keys, docs, m, k) == prior + [];
        assert prior + [] == prior;
      }
    }
  }

  /** Appending a record keeps every list of the accumulator non-empty. Kept
      apart so that the induction step above reasons about one append only. */
  lemma AppendKeepsNonEmpty(g: Groups, key: WellKey, doc: MeasurementDocument)
    requires NonEmptyGroups(g)
    ensures NonEmptyGroups(Append(g, key, doc))
  {
    forall k | k in Append(g, key, doc)
      ensures Append(g, key, doc)[k] != []
    {
      assert Group(Append(g, key, doc), k) == Append(g, key, doc)[k];
    }
  }

  /** Associativity of concatenation, stated over an abstract element type so
      that the induction step above does not unfold the record type. */
  lemma ConcatAssociative<T>(a: seq<T>, b: seq<T>, c: seq<T>)
    ensures (a + b) + c == a + (b + c)
  {
  }

  /** The accumulator holds, under each key, exactly the records of the results
      with that key, in plate-then-result order, and no key without records. */
  lemma {:induction false} GroupsAreContributions(data: Data, rt: ReadType, ids: (nat, nat) -> string, n: nat)
    requires n <= |data.plates|
    requires GroupPlates(data, rt, ids, n).Ok?
    ensures NonEmptyGroups(GroupPlates(data, rt, ids, n).value)
    ensures forall k :: Group(GroupPlates(data, rt, ids, n).value, k) == Contributions(data, rt, ids, n, k)
    decreases n
  {
    if n > 0 {
      GroupsAreContributions(data, rt, ids, n - 1);
      if Processed(data, n - 1) {
        var g := GroupPlates(data, rt, ids, n - 1).value;
        var keys, docs := PlateKeys(data, n - 1), PlateDocs(data, rt, ids, n - 1);
        AddResultsGroups(g, keys, docs, ResultCount(data, n - 1));
      }
    }
  }

  /** Record `j < m` is among the records of its own key. */
  lemma {:induction false} KeyedRecordsHas(keys: seq<WellKey>, docs: seq<MeasurementDocument>, m: nat, j: nat)
    requires |keys| == |docs| && j < m <= |keys|
    ensures docs[j] in KeyedRecords(keys, docs, m, keys[j])
    decreases m
  {
    if j < m - 1 {
      KeyedRecordsHas(keys, docs, m - 1, j);
    }
  }

  /** Every record of a key is the record of some result with that key. */
  lemma {:induction false} KeyedRecordsFrom(keys: seq<WellKey>, docs: seq<MeasurementDocument>, m: nat, k: WellKey, d: MeasurementDocument)
    requires |keys| == |docs| && m <= |keys|
    requires d in KeyedRecords(keys, docs, m, k)
    ensures exists j :: 0 <= j < m && keys[j] == k && docs[j] == d
    decreases m
  {
    if d in KeyedRecords(keys, docs, m - 1, k) {
      KeyedRecordsFrom(keys, docs, m - 1, k, d);
    } else {
      assert keys[m - 1] == k && docs[m - 1] == d;
    }
  }

  lemma {:induction false} ContributionsHasResult(data: Data, rt: ReadType, ids: (nat, nat) -> string, n: nat, pi: nat, j: nat)
    requires n <= |data.plates| && pi < n
    requires Processed(data, pi) && j < ResultCount(data, pi)
    ensures DocAt(data, rt, ids, pi, j) in Contributions(data, rt, ids, n, KeyAt(data, pi, j))
    decreases n
  {
    if pi < n - 1 {
      ContributionsHasResult(data, rt, ids, n - 1, pi, j);
    } else {
      KeyedRecordsHas(PlateKeys(data, pi), PlateDocs(data, rt, ids, pi), ResultCount(data, pi), j);
    }
  }

  /** Every result of a processed plate lands in the group of its own key
      (plate number, column, row). */
  lemma ResultLandsInItsGroup(data: Data, rt: ReadType, ids: (nat, nat) -> string, pi: nat, j: nat)
    requires GroupPlates(data, rt, ids, |data.plates|).Ok?
    requires Processed(data, pi) && j < ResultCount(data, pi)
    ensures KeyAt(data, pi, j) in GroupPlates(data, rt, ids, |data.plates|).value
    ensures DocAt(data, rt, ids, pi, j) in GroupPlates(data, rt, ids, |data.plates|).value[KeyAt(data, pi, j)]
  {
    GroupsAreContributions(data, rt, ids, |data.plates|);
    ContributionsHasResult(data, rt, ids, |data.plates|, pi, j);
  }

  /** The record of a result is of its key's well and of the run's read type. */
  lemma DocAtWell(data: Data, rt: ReadType, ids: (nat, nat) -> string, pi: nat, j: nat)
    requires Processed(data, pi) && j < ResultCount(data, pi)
    ensures DocAt(data, rt, ids, pi, j).sampleDocument.locationIdentifier == KeyAt(data, pi, j).col + KeyAt(data, pi, j).row
    ensures ModalityOf(DocAt(data, rt, ids, pi, j)) == rt
  {
  }

  /** Every record grouped under a key is of that key's well and of the run's read type. */
  lemma {:induction false} ContributionsShareWell(data: Data, rt: ReadType, ids: (nat, nat) -> string, n: nat, k: WellKey)
    requires n <= |data.plates|
    ensures forall d :: d in Contributions(data, rt, ids, n, k) ==>
      d.sampleDocument.locationIdentifier == k.col + k.row && ModalityOf(d) == rt
    decreases n
  {
    if n > 0 {
      ContributionsShareWell(data, rt, ids, n - 1, k);
      if Processed(data, n - 1) {
        PlateRecordsShareWell(data, rt, ids, n - 1, k);
      }
    }
  }

  /** Every record one plate contributes to a key is of that key's well and of the run's read type. */
  lemma PlateRecordsShareWell(data: Data, rt: ReadType, ids: (nat, nat) -> string, pi: nat, k: WellKey)
    requires Processed(data, pi)
    ensures forall d :: d in KeyedRecords(PlateKeys(data, pi), PlateDocs(data, rt, ids, pi), ResultCount(data, pi), k) ==>
      d.sampleDocument.locationIdentifier == k.col + k.row && ModalityOf(d) == rt
  {
    var keys, docs := PlateKeys(data, pi), PlateDocs(data, rt, ids, pi);
    forall d | d in KeyedRecords(keys, docs, ResultCount(data, pi), k)
      ensures d.sampleDocument.locationIdentifier == k.col + k.row && ModalityOf(d) == rt
    {
      KeyedRecordsFrom(keys, docs, ResultCount(data, pi), k, d);
      var j :| 0 <= j < ResultCount(data, pi) && keys[j] == k && docs[j] == d;
      DocAtWell(data, rt, ids, pi, j);
    }
  }

  // ---------------------------------------------------------------------------
  // The output list

  /** The well-level documents come one per distinct key, in strictly ascending
      key order, each holding exactly that key's records; `keys` is that order. */
  lemma PlateReaderDocumentOrder(data: Data, ids: (nat, nat) -> string) returns (keys: seq<WellKey>)
    requires data.numberOfWells.Some?
    requires PlateReaderDocument(data, ids).Ok?
    ensures StrictlyAscending(keys)
    ensures |keys| == |PlateReaderDocument(data, ids).value|
    ensures forall i :: 0 <= i < |keys| ==>
      var docs := PlateReaderDocument(data, ids).value[i].measurementAggregateDocument.measurementDocument;
      docs != [] && docs == Contributions(data, ReadTypeOf(data.labels.labelName), ids, |data.plates|, keys[i])
    ensures forall k :: Contributions(data, ReadTypeOf(data.labels.labelName), ids, |data.plates|, k) != [] ==> k in keys
  {
    var rt := ReadTypeOf(data.labels.labelName);
    var g := GroupPlates(data, rt, ids, |data.plates|).value;
    GroupsAreContributions(data, rt, ids, |data.plates|);
    keys := SortedKeys(g.Keys);
    forall i | 0 <= i < |keys|
      ensures Group(g, keys[i]) == g[keys[i]]
    {
    }
  }

  /** Every well-level document carries the same run-wide fields: the single
      measurement time, the well count, the protocol and assay identifiers. */
  lemma RunWideFields(data: Data, ids: (nat, nat) -> string)
    requires data.numberOfWells.Some?
    requires PlateReaderDocument(data, ids).Ok?
    ensures forall item :: item in PlateReaderDocument(data, ids).value ==>
      && MeasurementTime(data).Ok?
      && item.measurementAggregateDocument.measurementTime == MeasurementTime(data).value
      && item.measurementAggregateDocument.plateWellCount == Quantity(data.numberOfWells.value, UnitlessNumber)
      && item.measurementAggregateDocument.analyticalMethodIdentifier == data.basicAssayInfo.protocolId
      && item.measurementAggregateDocument.experimentalDataIdentifier == data.basicAssayInfo.assayId
      && item.measurementAggregateDocument.containerType == WellPlate
  {
  }

  // ---------------------------------------------------------------------------
  // Generated identifiers

  /** A record with its generated identifier blanked out. */
  function WithoutIdentifier(d: MeasurementDocument): MeasurementDocument {
    d.(measurementIdentifier := "")
  }

  function WithoutIdentifiers(ds: seq<MeasurementDocument>): (r: seq<MeasurementDocument>)
    ensures |r| == |ds|
    ensures forall i :: 0 <= i < |ds| ==> r[i] == WithoutIdentifier(ds[i])
  {
    seq(|ds|, i requires 0 <= i < |ds| => WithoutIdentifier(ds[i]))
  }

  function ItemWithoutIdentifiers(item: PlateReaderDocumentItem): PlateReaderDocumentItem {
    var aggregate := item.measurementAggregateDocument;
    item.(measurementAggregateDocument :=
      aggregate.(measurementDocument := WithoutIdentifiers(aggregate.measurementDocument)))
  }

  function ItemsWithoutIdentifiers(items: seq<PlateReaderDocumentItem>): (r: seq<PlateReaderDocumentItem>)
    ensures |r| == |items|
    ensures forall i :: 0 <= i < |items| ==> r[i] == ItemWithoutIdentifiers(items[i])
  {
    seq(|items|, i requires 0 <= i < |items| => ItemWithoutIdentifiers(items[i]))
  }

  /** A model with every generated identifier blanked out. */
  function ModelWithoutIdentifiers(m: Model): Model {
    var aggregate := m.plateReaderAggregateDocument;
    m.(plateReaderAggregateDocument :=
      aggregate.(plateReaderDocument := ItemsWithoutIdentifiers(aggregate.plateReaderDocument)))
  }

  lemma WithoutIdentifiersConcat(a: seq<MeasurementDocument>, b: seq<MeasurementDocument>)
    ensures WithoutIdentifiers(a + b) == WithoutIdentifiers(a) + WithoutIdentifiers(b)
  {
    assert WithoutIdentifiers(a + b) == WithoutIdentifiers(a) + WithoutIdentifiers(b) by {
      var l, r := WithoutIdentifiers(a + b), WithoutIdentifiers(a) + WithoutIdentifiers(b);
      assert |l| == |r|;
      forall i | 0 <= i < |l| ensures l[i] == r[i] {
        if i < |a| {
          assert (a + b)[i] == a[i];
        } else {
          assert (a + b)[i] == b[i - |a|];
        }
      }
    }
  }

  /** Records that agree pairwise up to identifiers give keyed lists that agree up to identifiers. */
  lemma {:induction false} KeyedRecordsIdentifiers(
    keys: seq<WellKey>, docs1: seq<MeasurementDocument>, docs2: seq<MeasurementDocument>, m: nat, k: WellKey)
    requires |keys| == |docs1| == |docs2| && m <= |keys|
    requires forall j :: 0 <= j < |keys| ==> WithoutIdentifier(docs1[j]) == WithoutIdentifier(docs2[j])
    ensures WithoutIdentifiers(KeyedRecords(keys, docs1, m, k)) == WithoutIdentifiers(KeyedRecords(keys, docs2, m, k))
    decreases m
  {
    if m > 0 {
      KeyedRecordsIdentifiers(keys, docs1, docs2, m - 1, k);
      var extra1 := if keys[m - 1] == k then [docs1[m - 1]] else [];
      var extra2 := if keys[m - 1] == k then [docs2[m - 1]] else [];
      WithoutIdentifiersConcat(KeyedRecords(keys, docs1, m - 1, k), extra1);
      WithoutIdentifiersConcat(KeyedRecords(keys, docs2, m - 1, k), extra2);
      assert WithoutIdentifiers(extra1) == WithoutIdentifiers(extra2);
    }
  }

  /** A plate's records under two identifier sources differ only in their identifiers. */
  lemma PlateDocsIdentifiers(data: Data, rt: ReadType, ids1: (nat, nat) -> string, ids2: (nat, nat) -> string, pi: nat)
    requires Processed(data, pi)
    ensures forall j :: 0 <= j < ResultCount(data, pi) ==>
      WithoutIdentifier(PlateDocs(data, rt, ids1, pi)[j]) == WithoutIdentifier(PlateDocs(data, rt, ids2, pi)[j])
  {
  }

  lemma {:induction false} ContributionsIdentifiers(
    data: Data, rt: ReadType, ids1: (nat, nat) -> string, ids2: (nat, nat) -> string, n: nat, k: WellKey)
    requires n <= |data.plates|
    ensures WithoutIdentifiers(Contributions(data, rt, ids1, n, k)) == WithoutIdentifiers(Contributions(data, rt, ids2, n, k))
    decreases n
  {
    if n > 0 {
      ContributionsIdentifiers(data, rt, ids1, ids2, n - 1, k);
      if Processed(data, n - 1) {
        var keys, m := PlateKeys(data, n - 1), ResultCount(data, n - 1);
        var docs1, docs2 := PlateDocs(data, rt, ids1, n - 1), PlateDocs(data, rt, ids2, n - 1);
        PlateDocsIdentifiers(data, rt, ids1, ids2, n - 1);
        KeyedRecordsIdentifiers(keys, docs1, docs2, m, k);
        WithoutIdentifiersConcat(Contributions(data, rt, ids1, n - 1, k), KeyedRecords(keys, docs1, m, k));
        WithoutIdentifiersConcat(Contributions(data, rt, ids2, n - 1, k), KeyedRecords(keys, docs2, m, k));
      } else {
        WithoutIdentifiersConcat(Contributions(data, rt, ids1, n - 1, k), []);
        WithoutIdentifiersConcat(Contributions(data, rt, ids2, n - 1, k), []);
      }
    }
  }

  /** With the same data, the pass over the plates succeeds or fails alike for any
      identifiers, and on success has the same keys and the same records up to identifiers. */
  lemma GroupPlatesIdentifiers(data: Data, rt: ReadType, ids1: (nat, nat) -> string, ids2: (nat, nat) -> string)
    ensures GroupPlates(data, rt, ids1, |data.plates|).Err? ==>
      GroupPlates(data, rt, ids1, |data.plates|) == GroupPlates(data, rt, ids2, |data.plates|)
    ensures GroupPlates(data, rt, ids1, |data.plates|).Ok? ==>
      && GroupPlates(data, rt, ids2, |data.plates|).Ok?
      && GroupPlates(data, rt, ids1, |data.plates|).value.Keys == GroupPlates(data, rt, ids2, |data.plates|).value.Keys
      && forall k :: k in GroupPlates(data, rt, ids1, |data.plates|).value ==>
           WithoutIdentifiers(GroupPlates(data, rt, ids1, |data.plates|).value[k])
           == WithoutIdentifiers(GroupPlates(data, rt, ids2, |data.plates|).value[k])
  {
    var n := |data.plates|;
    GroupPlatesFailsIff(data, rt, ids1, n);
    GroupPlatesFailsIff(data, rt, ids2, n);
    if GroupPlates(data, rt, ids1, n).Err? {
      var i :| 0 <= i < n && LacksPlateMap(data, i);
      FirstLackingExists(data, i);
    } else {
      var g1, g2 := GroupPlates(data, rt, ids1, n).value, GroupPlates(data, rt, ids2, n).value;
      GroupsAreContributions(data, rt, ids1, n);
      GroupsAreContributions(data, rt, ids2, n);
      forall k
        ensures WithoutIdentifiers(Group(g1, k)) == WithoutIdentifiers(Group(g2, k))
        ensures k in g1 <==> k in g2
      {
        ContributionsIdentifiers(data, rt, ids1, ids2, n, k);
      }
    }
  }

  lemma WellDocumentsIdentifiers(data: Data, time: DateTimeValue, g1: Groups, g2: Groups, keys: seq<WellKey>)
    requires data.numberOfWells.Some?
    requires forall k :: k in keys ==> k in g1 && k in g2 && WithoutIdentifiers(g1[k]) == WithoutIdentifiers(g2[k])
    ensures ItemsWithoutIdentifiers(WellDocuments(data, time, g1, keys))
         == ItemsWithoutIdentifiers(WellDocuments(data, time, g2, keys))
  {
    var items1, items2 := WellDocuments(data, time, g1, keys), WellDocuments(data, time, g2, keys);
    forall i | 0 <= i < |keys|
      ensures ItemWithoutIdentifiers(items1[i]) == ItemWithoutIdentifiers(items2[i])
    {
      assert keys[i] in keys;
    }
  }

  /** Converting the same data twice gives the same outcome: the same error, or
      models equal in every field except the generated measurement identifiers. */
  lemma IdentifiersOnlyDiffer(data: Data, fileName: string, converter: ConverterIdentity,
                              ids1: (nat, nat) -> string, ids2: (nat, nat) -> string)
    ensures ModelOf(data, fileName, converter, ids1).Err? <==> ModelOf(data, fileName, converter, ids2).Err?
    ensures ModelOf(data, fileName, converter, ids1).Err? ==>
      ModelOf(data, fileName, converter, ids1) == ModelOf(data, fileName, converter, ids2)
    ensures ModelOf(data, fileName, converter, ids1).Ok? ==>
      ModelWithoutIdentifiers(ModelOf(data, fileName, converter, ids1).value)
      == ModelWithoutIdentifiers(ModelOf(data, fileName, converter, ids2).value)
  {
    var rt := ReadTypeOf(data.labels.labelName);
    GroupPlatesIdentifiers(data, rt, ids1, ids2);
    GroupPlatesIdentifiers(data, rt, ids2, ids1);
    if data.numberOfWells.Some? && MeasurementTime(data).Ok? && GroupPlates(data, rt, ids1, |data.plates|).Ok? {
      var g1, g2 := GroupPlates(data, rt, ids1, |data.plates|).value, GroupPlates(data, rt, ids2, |data.plates|).value;
      WellDocumentsIdentifiers(data, MeasurementTime(data).value, g1, g2, SortedKeys(g1.Keys));
    }
  }

  // ---------------------------------------------------------------------------
  // Worked examples

  /** A pattern that occurs in a name has all its characters in the name. */
  lemma {:induction false} ContainsHasChars(s: string, p: string, i: nat)
    requires Contains(s, p) && i < |p|
    ensures p[i] in s
    decreases |s|
  {
    if p <= s {
      assert s[i] == p[i];
    } else {
      ContainsHasChars(s[1..], p, i);
    }
  }

  /** A pattern that is a prefix of a suffix of the name occurs in it. */
  lemma {:induction false} ContainsAt(s: string, p: string, i: nat)
    requires i <= |s| && p <= s[i..]
    ensures Contains(s, p)
    decreases i
  {
    if i > 0 {
      assert s[1..][i - 1..] == s[i..];
      ContainsAt(s[1..], p, i - 1);
    }
  }

  /** A pattern with a character the name lacks does not match it. */
  lemma MissingCharNoMatch(name: string, i: nat, c: nat)
    requires i < |Patterns()| && c < |Patterns()[i].0|
    requires Patterns()[i].0[c] !in name
    ensures !Matches(name, i)
  {
    if Matches(name, i) {
      ContainsHasChars(name, Patterns()[i].0, c);
    }
  }

  /** First pattern in table order wins, not the first occurrence in the name. */
  lemma ClassifierPrecedenceExample()
    ensures ReadTypeOf("Fluorescence ABS") == Absorbance
  {
    ContainsAt("Fluorescence ABS", "ABS", 13);
    assert FirstMatchAt("Fluorescence ABS", 0);
  }

  /** A name with "LUM" and neither "ABS" nor "Absorbance" is luminescence, whatever
      else it holds: "LUM" precedes "Luminescence" and "Fluorescence" in the table. */
  lemma ClassifierLuminescence(name: string)
    requires Contains(name, "LUM") && !Contains(name, "ABS") && !Contains(name, "Absorbance")
    ensures ReadTypeOf(name) == Luminescence
  {
    assert !Matches(name, 0) && !Matches(name, 1);
    assert FirstMatchAt(name, 2);
  }

  /** "ABS" is tried first: any name that contains it is absorbance, whatever else it holds. */
  lemma ClassifierAbs(name: string)
    requires Contains(name, "ABS")
    ensures ReadTypeOf(name) == Absorbance
  {
    assert FirstMatchAt(name, 0);
  }

  /** Any name that contains "Absorbance" is absorbance: by "ABS" when that
      also occurs in it, otherwise by the second pattern. */
  lemma ClassifierAbsorbance(name: string)
    requires Contains(name, "Absorbance")
    ensures ReadTypeOf(name) == Absorbance
  {
    if Matches(name, 0) {
      assert FirstMatchAt(name, 0);
    } else {
      assert FirstMatchAt(name, 1);
    }
  }

  /** A name without the initials A, L and F of every pattern is classified as fluorescence. */
  lemma ClassifierDefault(name: string)
    requires 'A' !in name && 'L' !in name && 'F' !in name
    ensures ReadTypeOf(name) == Fluorescence
  {
    forall i | 0 <= i < |Patterns()|
      ensures !Matches(name, i)
    {
      MissingCharNoMatch(name, i, 0);
    }
  }

  /** Keys (1, A, 1), (1, A, 2) and (2, A, 1) come out in that order. */
  lemma SortedKeysExample()
    ensures SortedKeys({WellKey("2", "A", "1"), WellKey("1", "A", "2"), WellKey("1", "A", "1")})
         == [WellKey("1", "A", "1"), WellKey("1", "A", "2"), WellKey("2", "A", "1")]
  {
    var ks := {WellKey("2", "A", "1"), WellKey("1", "A", "2"), WellKey("1", "A", "1")};
    var expected := [WellKey("1", "A", "1"), WellKey("1", "A", "2"), WellKey("2", "A", "1")];
    assert StrictlyAscending(expected);
    AscendingEnumerationUnique(SortedKeys(ks), expected);
  }

  /** The run of one plate "PLT1" (number 1) with one absorbance result 0.452 in
      well A1 of its plate map. */
  function ExampleData(): Data {
    Data(
      Software("EnVision Workstation", "1.0"),
      Instrument("1050", "EnVision"),
      [Plate(PlateInfo("1", "PLT1", "em1", None, None, Some("10/13/2022 3:30:00 PM")),
             Some([WellResult("A", "1", 0.452)]))],
      map["1" := PlateMap("1", (col: string, row: string) => "sample role")],
      Labels("Absorbance", None, map[], None, None, None),
      BasicAssayInfo("100302", "3134"),
      Some(96.0))
  }

  lemma ExampleGroups(ids: (nat, nat) -> string)
    ensures Processed(ExampleData(), 0) && ResultCount(ExampleData(), 0) == 1
    ensures GroupPlates(ExampleData(), Absorbance, ids, 1)
         == Ok(map[WellKey("1", "A", "1") := [DocAt(ExampleData(), Absorbance, ids, 0, 0)]])
  {
    var data := ExampleData();
    assert Processed(data, 0);
    var keys, docs := PlateKeys(data, 0), PlateDocs(data, Absorbance, ids, 0);
    assert keys[0] == WellKey("1", "A", "1");
    var doc := docs[0];
    assert doc == DocAt(data, Absorbance, ids, 0, 0);
    assert GroupPlates(data, Absorbance, ids, 0) == Ok(map[]);
    var empty: Groups := map[];
    assert AddResults(empty, keys, docs, 1) == Append(empty, keys[0], doc);
    assert Group(empty, WellKey("1", "A", "1")) == [];
    assert [] + [doc] == [doc];
    assert Append(empty, WellKey("1", "A", "1"), doc) == map[WellKey("1", "A", "1") := [doc]];
    assert GroupPlates(data, Absorbance, ids, 1) == Ok(AddResults(empty, keys, docs, 1));
  }

  lemma ExampleTime()
    ensures MeasurementTime(ExampleData()) == Ok(DateTimeOf("10/13/2022 3:30:00 PM"))
  {
    var data := ExampleData();
    assert HasMeasurementTime(data.plates[0]);
  }

  /** The measurement time is the smallest text in `str` order, which is not the
      earliest date for month/day/year texts: of 30 September and 1 October 2022
      the October text is chosen, because '1' sorts before '9'. */
  lemma MeasurementTimeIsTextOrder(data: Data)
    requires |data.plates| == 2
    requires data.plates[0].plateInfo.measurementTime == Some("9/30/2022 9:00:00 AM")
    requires data.plates[1].plateInfo.measurementTime == Some("10/1/2022 9:00:00 AM")
    ensures MeasurementTime(data) == Ok(DateTimeOf("10/1/2022 9:00:00 AM"))
  {
    assert HasMeasurementTime(data.plates[0]) && HasMeasurementTime(data.plates[1]);
    var early, late := "9/30/2022 9:00:00 AM", "10/1/2022 9:00:00 AM";
    assert !StringOrder.Le(early, late) by {
      assert early[0] == '9' && late[0] == '1';
    }
  }

  /** The example's only record. */
  lemma ExampleRecord(ids: (nat, nat) -> string)
    ensures Processed(ExampleData(), 0) && ResultCount(ExampleData(), 0) == 1
    ensures var doc := DocAt(ExampleData(), Absorbance, ids, 0, 0);
      && doc.UltravioletAbsorbanceMeasurement?
      && doc.sampleDocument.sampleIdentifier == "PLT1 A1"
      && doc.absorbance == Quantity(0.452, MilliAbsorbanceUnit)
      && |doc.deviceControlAggregateDocument.deviceControlDocument| == 1
      && doc.deviceControlAggregateDocument.deviceControlDocument[0].detectorWavelengthSetting.None?
  {
    var data := ExampleData();
    assert Processed(data, 0);
    assert GetEmissionFilter(data.labels, "em1") == None;
    assert "PLT1" + " " + ("A" + "1") == "PLT1 A1";
  }

  /** A run whose records all fall in one well yields one well-level document. */
  lemma SingleWellDocument(data: Data, ids: (nat, nat) -> string, time: DateTimeValue, key: WellKey, docs: seq<MeasurementDocument>)
    requires data.numberOfWells.Some?
    requires MeasurementTime(data) == Ok(time)
    requires GroupPlates(data, ReadTypeOf(data.labels.labelName), ids, |data.plates|) == Ok(map[key := docs])
    ensures PlateReaderDocument(data, ids) == Ok([WellDocumentOf(data, time, docs)])
  {
    var g := map[key := docs];
    AscendingEnumerationUnique(SortedKeys({key}), [key]);
    assert g.Keys == {key};
    var items := WellDocuments(data, time, g, [key]);
    assert |items| == 1 && items[0] == WellDocumentOf(data, time, docs);
    assert items == [WellDocumentOf(data, time, docs)];
  }

  /** The example's output list: one well-level document holding its only record. */
  lemma ExampleDocuments(ids: (nat, nat) -> string)
    ensures Processed(ExampleData(), 0) && ResultCount(ExampleData(), 0) == 1
    ensures PlateReaderDocument(ExampleData(), ids)
         == Ok([WellDocumentOf(ExampleData(), DateTimeOf("10/13/2022 3:30:00 PM"), [DocAt(ExampleData(), Absorbance, ids, 0, 0)])])
  {
    ContainsAt("Absorbance", "Absorbance", 0);
    ClassifierAbsorbance("Absorbance");
    ExampleTime();
    ExampleGroups(ids);
    SingleWellDocument(ExampleData(), ids, DateTimeOf("10/13/2022 3:30:00 PM"), WellKey("1", "A", "1"),
                       [DocAt(ExampleData(), Absorbance, ids, 0, 0)]);
  }

  /** One well-level document with one absorbance record, for sample "PLT1 A1",
      carrying the reading 0.452 unchanged and no detector wavelength (no
      emission filter is registered). */
  lemma EndToEndExample(fileName: string, converter: ConverterIdentity, ids: (nat, nat) -> string)
    ensures var r := ModelOf(ExampleData(), fileName, converter, ids);
      && r.Ok?
      && |r.value.plateReaderAggregateDocument.plateReaderDocument| == 1
      && var docs := r.value.plateReaderAggregateDocument.plateReaderDocument[0].measurementAggregateDocument.measurementDocument;
      && |docs| == 1
      && docs[0].UltravioletAbsorbanceMeasurement?
      && docs[0].sampleDocument.sampleIdentifier == "PLT1 A1"
      && docs[0].absorbance == Quantity(0.452, MilliAbsorbanceUnit)
      && |docs[0].deviceControlAggregateDocument.deviceControlDocument| == 1
      && docs[0].deviceControlAggregateDocument.deviceControlDocument[0].detectorWavelengthSetting.None?
  {
    ExampleDocuments(ids);
    ExampleRecord(ids);
    var data := ExampleData();
    var doc := DocAt(data, Absorbance, ids, 0, 0);
    var items := [WellDocumentOf(data, DateTimeOf("10/13/2022 3:30:00 PM"), [doc])];
    ModelOfDocuments(data, fileName, converter, ids, items);
    assert items[0].measurementAggregateDocument.measurementDocument == [doc];
  }

  /** Once the plate-reader documents are built, the model wraps them unchanged. */
  lemma ModelOfDocuments(data: Data, fileName: string, converter: ConverterIdentity, ids: (nat, nat) -> string,
                         items: seq<PlateReaderDocumentItem>)
    requires data.numberOfWells.Some?
    requires PlateReaderDocument(data, ids) == Ok(items)
    ensures ModelOf(data, fileName, converter, ids).Ok?
    ensures ModelOf(data, fileName, converter, ids).value.plateReaderAggregateDocument.plateReaderDocument == items
  {
  }
}
