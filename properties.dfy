/**
  What the ingest handler promises: how the kept records relate to the batch,
  which outcome each branch gives, and what the single write contains.
 */
module HandlerProperties {
  import opened PyValue
  import opened Handler

  /** The records `for record in event["Records"]` visits, when "Records" is
      present and iterable. */
  function Batch(event: Dict): Option<seq<Value>>
  {
    match Lookup(event, RecordsKey)
    case None => None
    case Some(field) => Iterate(field)
  }

  /** Some record decodes but `json.dumps` of the kept list raises. */
  predicate SerialisationFails(event: Dict, lib: Library)
  {
    Batch(event).Some? && Parsed(lib, Batch(event).value) != [] &&
    lib.dumps(Parsed(lib, Batch(event).value)).None?
  }

  // ---------------------------------------------------------------------------
  // The kept records

  lemma {:induction false} ParsedLength(lib: Library, batch: seq<Value>)
    ensures |Parsed(lib, batch)| <= |batch|
  {
    if batch != [] {
      ParsedLength(lib, batch[..|batch| - 1]);
    }
  }

  /** Records are decoded independently: the list kept from two consecutive
      runs of records is the two lists one after the other. */
  lemma {:induction false} ParsedAppend(lib: Library, a: seq<Value>, b: seq<Value>)
    ensures Parsed(lib, a + b) == Parsed(lib, a) + Parsed(lib, b)
  {
    if b == [] {
      assert a + b == a;
    } else {
      var n := |b| - 1;
      assert (a + b)[..|a + b| - 1] == a + b[..n];
      ParsedAppend(lib, a, b[..n]);
    }
  }

  /** The kept list is exactly the decoded records, in arrival order, each
      success kept once (so duplicates stay) and every failure left out:
      `SuccessIndices` lists, in increasing order, the positions that decode,
      and the j-th kept value is the payload of the j-th of them. */
  lemma {:induction false} ParsedSelectsSuccesses(lib: Library, batch: seq<Value>)
    ensures |SuccessIndices(lib, batch)| == |Parsed(lib, batch)|
    ensures forall j :: 0 <= j < |SuccessIndices(lib, batch)| ==>
      SuccessIndices(lib, batch)[j] < |batch| &&
      DecodeRecord(lib, batch[SuccessIndices(lib, batch)[j]]) == Some(Parsed(lib, batch)[j])
    ensures forall j, k :: 0 <= j < k < |SuccessIndices(lib, batch)| ==>
      SuccessIndices(lib, batch)[j] < SuccessIndices(lib, batch)[k]
    ensures forall i :: 0 <= i < |batch| ==>
      (DecodeRecord(lib, batch[i]).Some? <==> i in SuccessIndices(lib, batch))
  {
    if batch != [] {
      var n := |batch| - 1;
      var front := batch[..n];
      ParsedSelectsSuccesses(lib, front);
      assert forall i :: 0 <= i < n ==> batch[i] == front[i];
      var idx, ps := SuccessIndices(lib, front), Parsed(lib, front);
      match DecodeRecord(lib, batch[n])
      case None =>
        assert SuccessIndices(lib, batch) == idx && Parsed(lib, batch) == ps;
      case Some(v) =>
        assert SuccessIndices(lib, batch) == idx + [n] && Parsed(lib, batch) == ps + [v];
    }
  }

  /** Nothing is kept exactly when no record decodes (an empty batch included). */
  lemma {:induction false} ParsedEmptyIff(lib: Library, batch: seq<Value>)
    ensures Parsed(lib, batch) == [] <==>
      forall i :: 0 <= i < |batch| ==> DecodeRecord(lib, batch[i]).None?
  {
    ParsedSelectsSuccesses(lib, batch);
    if Parsed(lib, batch) != [] {
      var i := SuccessIndices(lib, batch)[0];
      assert DecodeRecord(lib, batch[i]).Some?;
    }
  }

  /** A value is kept exactly when some record decodes to it. */
  lemma {:induction false} ParsedMember(lib: Library, batch: seq<Value>, v: Value)
    ensures v in Parsed(lib, batch) <==>
      exists i :: 0 <= i < |batch| && DecodeRecord(lib, batch[i]) == Some(v)
  {
    ParsedSelectsSuccesses(lib, batch);
    var ps, idx := Parsed(lib, batch), SuccessIndices(lib, batch);
    if v in ps {
      var j :| 0 <= j < |ps| && ps[j] == v;
      assert DecodeRecord(lib, batch[idx[j]]) == Some(v);
    }
    if i :| 0 <= i < |batch| && DecodeRecord(lib, batch[i]) == Some(v) {
      assert i in idx;
      var j :| 0 <= j < |idx| && idx[j] == i;
      assert ps[j] == v;
    }
  }

  /** A record is skipped when it has no "kinesis" entry, or that entry no
      "data" entry, whatever the library would have made of it. */
  lemma MissingDataSkipped(lib: Library, record: Value)
    requires Subscript(record, "kinesis").None? ||
             Subscript(Subscript(record, "kinesis").value, "data").None?
    ensures DecodeRecord(lib, record).None?
  {
  }

  /** A record decodes exactly when its "kinesis"/"data" entry is a string
      that base64-decodes, whose bytes are UTF-8, and whose text is JSON. */
  lemma DecodeRecordSucceeds(lib: Library, record: Value, v: Value)
    ensures DecodeRecord(lib, record) == Some(v) <==>
      exists data, bytes, text ::
        KinesisData(record) == Some(Str(data)) &&
        lib.b64decode(data) == Some(bytes) &&
        lib.utf8Decode(bytes) == Some(text) &&
        lib.loads(text) == Some(v)
  {
    if DecodeRecord(lib, record) == Some(v) {
      var data := KinesisData(record).value.s;
      var bytes := lib.b64decode(data).value;
      var text := lib.utf8Decode(bytes).value;
      assert KinesisData(record) == Some(Str(data)) && lib.loads(text) == Some(v);
    }
  }

  // ---------------------------------------------------------------------------
  // Where the object goes

  /** The bucket setting wins whenever it is set, even to the empty string;
      the literal default is used only when it is unset. */
  lemma BucketChoice(setting: Option<string>)
    ensures setting.Some? ==> BucketName(setting) == setting.value
    ensures BucketName(setting) == DefaultBucket <==> setting.None? || setting == Some(DefaultBucket)
    ensures BucketName(None) == "s3-datalake-dev-data-processing-auna"
  {
  }

  lemma ObjectKeyRoundTrip(requestId: string)
    ensures RequestIdOfKey(ObjectKey(requestId)) == Some(requestId)
  {
    var key := ObjectKey(requestId);
    assert key[|KeyPrefix|..|key| - |KeySuffix|] == requestId;
  }

  /** Two invocations with different request ids never write the same key,
      so writing the same records twice makes two objects. */
  lemma DistinctRequestsDistinctKeys(id1: string, id2: string)
    requires id1 != id2
    ensures ObjectKey(id1) != ObjectKey(id2)
  {
    ObjectKeyRoundTrip(id1);
    ObjectKeyRoundTrip(id2);
  }

  // ---------------------------------------------------------------------------
  // The branches of the handler

  /** index.py:17-19 */
  lemma MissingRecordsRejected(event: Dict, requestId: string, bucketSetting: Option<string>,
                               lib: Library, putSucceeds: bool)
    requires forall i :: 0 <= i < |event| ==> event[i].0 != "Records"
    ensures Handle(event, requestId, bucketSetting, lib, putSucceeds) ==
      Invocation(Returned(Response(400, "Formato de evento incorrecto.")), None)
  {
  }

  /** "Records" that is None, a bool or a number is not iterable: the handler
      raises before any record is looked at, and writes nothing. */
  lemma NonIterableRecordsRaise(event: Dict, requestId: string, bucketSetting: Option<string>,
                                lib: Library, putSucceeds: bool)
    requires Lookup(event, RecordsKey).Some?
    requires Iterate(Lookup(event, RecordsKey).value).None?
    ensures Handle(event, requestId, bucketSetting, lib, putSucceeds) == Invocation(RaisedTypeError, None)
  {
  }

  /** index.py:31-33: when no record decodes, including an empty batch, the
      handler answers 204 and writes nothing. */
  lemma NothingDecodedNoContent(event: Dict, requestId: string, bucketSetting: Option<string>,
                                lib: Library, putSucceeds: bool)
    requires Batch(event).Some?
    requires forall i :: 0 <= i < |Batch(event).value| ==> DecodeRecord(lib, Batch(event).value[i]).None?
    ensures Handle(event, requestId, bucketSetting, lib, putSucceeds) ==
      Invocation(Returned(Response(204, "No hay datos para procesar.")), None)
  {
    ParsedEmptyIff(lib, Batch(event).value);
  }

  /** "Records" holding a string or a dict is iterated as strings, none of
      which has a "kinesis" entry: every element is skipped and the answer is 204. */
  lemma StringOrDictRecordsNoContent(event: Dict, requestId: string, bucketSetting: Option<string>,
                                     lib: Library, putSucceeds: bool)
    requires Lookup(event, RecordsKey).Some?
    requires Lookup(event, RecordsKey).value.Str? || Lookup(event, RecordsKey).value.Obj?
    ensures Handle(event, requestId, bucketSetting, lib, putSucceeds) == Invocation(Returned(NoData), None)
  {
    var batch := Batch(event).value;
    forall i | 0 <= i < |batch| ensures DecodeRecord(lib, batch[i]).None? {
      MissingDataSkipped(lib, batch[i]);
    }
    NothingDecodedNoContent(event, requestId, bucketSetting, lib, putSucceeds);
  }

  /** At most one write per invocation, and one exactly when some record of an
      iterable "Records" decodes and the kept list serialises. */
  lemma WriteIffSomeRecordDecodes(event: Dict, requestId: string, bucketSetting: Option<string>,
                                  lib: Library, putSucceeds: bool)
    ensures Handle(event, requestId, bucketSetting, lib, putSucceeds).write.Some? <==>
      Batch(event).Some? &&
      (exists i :: 0 <= i < |Batch(event).value| && DecodeRecord(lib, Batch(event).value[i]).Some?) &&
      lib.dumps(Parsed(lib, Batch(event).value)).Some?
  {
    if Batch(event).Some? {
      ParsedEmptyIff(lib, Batch(event).value);
    }
  }

  /** index.py:39-51: when `json.dumps` of the kept list raises, the handler
      answers 500 and never calls put_object. */
  lemma SerialisationFailureNoWrite(event: Dict, requestId: string, bucketSetting: Option<string>,
                                    lib: Library, putSucceeds: bool)
    requires SerialisationFails(event, lib)
    ensures Handle(event, requestId, bucketSetting, lib, putSucceeds) ==
      Invocation(Returned(Response(500, "Error al guardar los datos en S3.")), None)
  {
  }

  /** index.py:36-47: the one write puts the serialisation of the whole kept
      list, at "processed_data/<request id>.json" in the configured bucket, as
      application/json with AES256 server-side encryption. */
  lemma WrittenObject(event: Dict, requestId: string, bucketSetting: Option<string>,
                      lib: Library, putSucceeds: bool)
    requires Handle(event, requestId, bucketSetting, lib, putSucceeds).write.Some?
    ensures var w := Handle(event, requestId, bucketSetting, lib, putSucceeds).write.value;
      Batch(event).Some? &&
      Parsed(lib, Batch(event).value) != [] &&
      w.bucket == BucketName(bucketSetting) &&
      w.key == "processed_data/" + requestId + ".json" &&
      lib.dumps(Parsed(lib, Batch(event).value)) == Some(w.body) &&
      w.contentType == "application/json" &&
      w.serverSideEncryption == "AES256"
  {
  }

  /** index.py:39-53: a put that is made decides the answer alone, 200 on
      success and 500 on failure, with no second attempt; 500 also answers a
      `json.dumps` that raises, with no put; with no write otherwise the answer
      is 400, 204 or the raised TypeError. */
  lemma StatusMapping(event: Dict, requestId: string, bucketSetting: Option<string>,
                      lib: Library, putSucceeds: bool)
    ensures var inv := Handle(event, requestId, bucketSetting, lib, putSucceeds);
      (inv.outcome == Returned(Response(200, "Procesado correctamente")) <==>
         inv.write.Some? && putSucceeds) &&
      (inv.outcome == Returned(Response(500, "Error al guardar los datos en S3.")) <==>
         (inv.write.Some? && !putSucceeds) || SerialisationFails(event, lib)) &&
      (inv.write.None? <==>
         inv.outcome in {Returned(BadFormat), Returned(NoData), RaisedTypeError} ||
         SerialisationFails(event, lib))
  {
  }

  /** A batch in which some records decode and others do not: the kept list
      holds exactly the decoded payloads, in arrival order. When it serialises,
      one object holding it is written, and the answer is 200 when the write
      succeeds; when it does not, the answer is 500 and nothing is written. */
  lemma MixedBatchWritesDecodedInOrder(event: Dict, requestId: string, bucketSetting: Option<string>,
                                       lib: Library, putSucceeds: bool, good: seq<nat>)
    requires Batch(event).Some?
    requires good == SuccessIndices(lib, Batch(event).value) && good != []
    ensures var inv := Handle(event, requestId, bucketSetting, lib, putSucceeds);
      var kept := Parsed(lib, Batch(event).value);
      |kept| == |good| &&
      (forall j :: 0 <= j < |good| ==>
         good[j] < |Batch(event).value| && DecodeRecord(lib, Batch(event).value[good[j]]) == Some(kept[j])) &&
      (forall j, k :: 0 <= j < k < |good| ==> good[j] < good[k]) &&
      (forall i :: 0 <= i < |Batch(event).value| ==>
         (DecodeRecord(lib, Batch(event).value[i]).Some? <==> i in good)) &&
      (lib.dumps(kept).Some? ==>
         inv.write.Some? && lib.dumps(kept) == Some(inv.write.value.body) &&
         (putSucceeds ==> inv.outcome == Returned(Processed))) &&
      (lib.dumps(kept).None? ==> inv == Invocation(Returned(StoreFailed), None))
  {
    ParsedSelectsSuccesses(lib, Batch(event).value);
  }

  /** The worked example: one good record and one whose payload is not base64,
      request id "req-1", no bucket setting, a successful write. */
  lemma OneGoodOneBadRecord(lib: Library, bytes: seq<Byte>)
    requires lib.b64decode("eyJhIjoxfQ==") == Some(bytes)
    requires lib.utf8Decode(bytes) == Some("{\"a\":1}")
    requires lib.loads("{\"a\":1}") == Some(Obj([("a", Int(1))]))
    requires lib.b64decode("!!!notbase64") == None
    requires lib.dumps([Obj([("a", Int(1))])]) == Some("[{\"a\": 1}]")
    ensures
      var good := Obj([("kinesis", Obj([("data", Str("eyJhIjoxfQ=="))]))]);
      var bad := Obj([("kinesis", Obj([("data", Str("!!!notbase64"))]))]);
      Handle([("Records", Arr([good, bad]))], "req-1", None, lib, true) ==
        Invocation(Returned(Response(200, "Procesado correctamente")),
                   Some(PutRequest("s3-datalake-dev-data-processing-auna",
                                   "processed_data/req-1.json",
                                   "[{\"a\": 1}]",
                                   "application/json", "AES256")))
  {
    var good := Obj([("kinesis", Obj([("data", Str("eyJhIjoxfQ=="))]))]);
    var bad := Obj([("kinesis", Obj([("data", Str("!!!notbase64"))]))]);
    var batch := [good, bad];
    assert DecodeRecord(lib, good) == Some(Obj([("a", Int(1))]));
    assert DecodeRecord(lib, bad) == None;
    assert batch[..1] == [good];
    assert [good][..0] == [];
    assert Parsed(lib, [good]) == [Obj([("a", Int(1))])];
    assert Parsed(lib, batch) == Parsed(lib, [good]);
    assert Lookup([("Records", Arr(batch))], RecordsKey) == Some(Arr(batch));
    assert ObjectKey("req-1") == "processed_data/req-1.json";
  }
}
