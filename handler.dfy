/**
  The batch-ingest event handler `lambda_handler`: it decodes every stream
  record of one invocation, keeps the ones that decode, and stores the kept
  values as one JSON array object whose key is derived from the request id.

  The library calls the handler makes (base64 and UTF-8 decoding, `json.loads`,
  `json.dumps`) are given as a `Library` of functions that may fail, the bucket setting
  as an optional string, and the storage write's outcome as a boolean.
 */
module Handler {
  import opened PyValue

  newtype Byte = x: int | 0 <= x < 256

  /** The library functions the handler calls; None is an exception. */
  datatype Library = Library(
    b64decode: string -> Option<seq<Byte>>,   // base64.b64decode
    utf8Decode: seq<Byte> -> Option<string>,  // bytes.decode("utf-8")
    loads: string -> Option<Value>,           // json.loads
    dumps: seq<Value> -> Option<string>)      // json.dumps

  /** The returned dict {"statusCode": ..., "body": ...}. */
  datatype Response = Response(statusCode: int, body: string)

  /** How an invocation ends: with a returned response, or with the TypeError
      that iterating a non-iterable "Records" value raises. */
  datatype Outcome = Returned(response: Response) | RaisedTypeError

  /** The arguments of the one `s3.put_object` call. */
  datatype PutRequest = PutRequest(
    bucket: string,
    key: string,
    body: string,
    contentType: string,
    serverSideEncryption: string)

  /** What one invocation does: its outcome and the write it attempted, if any. */
  datatype Invocation = Invocation(outcome: Outcome, write: Option<PutRequest>)

  const RecordsKey: string := "Records"
  const BadFormat: Response := Response(400, "Formato de evento incorrecto.")
  const NoData: Response := Response(204, "No hay datos para procesar.")
  const StoreFailed: Response := Response(500, "Error al guardar los datos en S3.")
  const Processed: Response := Response(200, "Procesado correctamente")

  const DefaultBucket: string := "s3-datalake-dev-data-processing-auna"
  const KeyPrefix: string := "processed_data/"
  const KeySuffix: string := ".json"
  const JsonContentType: string := "application/json"
  const Aes256: string := "AES256"

  /** `record["kinesis"]["data"]`; None where Python raises KeyError or TypeError. */
  function KinesisData(record: Value): Option<Value>
  {
    match Subscript(record, "kinesis")
    case None => None
    case Some(kinesis) => Subscript(kinesis, "data")
  }

  /** The body of the `try` at index.py:23-26: the parsed payload of one record,
      or None when any step raises. `b64decode` of a value that is not a string
      raises TypeError. */
  function DecodeRecord(lib: Library, record: Value): Option<Value>
  {
    match KinesisData(record)
    case Some(Str(data)) =>
      (match lib.b64decode(data)
       case None => None
       case Some(bytes) =>
         match lib.utf8Decode(bytes)
         case None => None
         case Some(text) => lib.loads(text))
    case _ => None
  }

  /** The list the loop builds: the decoded payloads of `batch`, in order,
      failures left out. */
  function Parsed(lib: Library, batch: seq<Value>): seq<Value>
  {
    if batch == [] then []
    else
      var last := batch[|batch| - 1];
      Parsed(lib, batch[..|batch| - 1]) +
        (match DecodeRecord(lib, last) case Some(v) => [v] case None => [])
  }

  /** The positions in `batch` of the records that decode, in increasing order. */
  function SuccessIndices(lib: Library, batch: seq<Value>): seq<nat>
  {
    if batch == [] then []
    else
      var n := |batch| - 1;
      SuccessIndices(lib, batch[..n]) + (if DecodeRecord(lib, batch[n]).Some? then [n] else [])
  }

  /** `os.environ.get("DATA_LAKE_BUCKET", DefaultBucket)`: a set value wins,
      even an empty one. */
  function BucketName(setting: Option<string>): string
  {
    match setting
    case Some(b) => b
    case None => DefaultBucket
  }

  /** f"processed_data/{request_id}.json" */
  function ObjectKey(requestId: string): (key: string)
    ensures |key| == |KeyPrefix| + |requestId| + |KeySuffix|
    ensures key[..|KeyPrefix|] == KeyPrefix
    ensures key[|KeyPrefix|..|key| - |KeySuffix|] == requestId
    ensures key[|key| - |KeySuffix|..] == KeySuffix
  {
    KeyPrefix + requestId + KeySuffix
  }

  /** Recovers the request id from an object key the handler writes. */
  function RequestIdOfKey(key: string): (r: Option<string>)
    ensures r.Some? ==> ObjectKey(r.value) == key
  {
    if |key| >= |KeyPrefix| + |KeySuffix| && key[..|KeyPrefix|] == KeyPrefix
       && key[|key| - |KeySuffix|..] == KeySuffix
    then
      var id := key[|KeyPrefix|..|key| - |KeySuffix|];
      assert key == key[..|KeyPrefix|] + id + key[|key| - |KeySuffix|..];
      Some(id)
    else None
  }

  /** What `lambda_handler(event, context)` does, as a function of its inputs.
      A `json.dumps` that raises (a payload nested at the recursion limit)
      is caught with the failed write: 500, and no put is made. */
  function Handle(event: Dict, requestId: string, bucketSetting: Option<string>,
                  lib: Library, putSucceeds: bool): Invocation
  {
    match Lookup(event, RecordsKey)
    case None => Invocation(Returned(BadFormat), None)
    case Some(field) =>
      match Iterate(field)
      case None => Invocation(RaisedTypeError, None)
      case Some(batch) =>
        var records := Parsed(lib, batch);
        if records == [] then Invocation(Returned(NoData), None)
        else
          match lib.dumps(records)
          case None => Invocation(Returned(StoreFailed), None)
          case Some(body) =>
            var put := PutRequest(BucketName(bucketSetting), ObjectKey(requestId),
                                  body, JsonContentType, Aes256);
            Invocation(Returned(if putSucceeds then Processed else StoreFailed), Some(put))
  }

  /** index.py:13-53: check the event, decode the records one at a time,
      skipping the ones that fail, then make at most one write. */
  method LambdaHandler(event: Dict, requestId: string, bucketSetting: Option<string>,
                       lib: Library, putSucceeds: bool)
    returns (outcome: Outcome, write: Option<PutRequest>)
    ensures Invocation(outcome, write) == Handle(event, requestId, bucketSetting, lib, putSucceeds)
  {
    var field := Lookup(event, RecordsKey);
    if field.None? {
      return Returned(BadFormat), None;
    }
    var elements := Iterate(field.value);
    if elements.None? {
      return RaisedTypeError, None;
    }
    var batch := elements.value;

    var records: seq<Value> := [];
    var i := 0;
    while i < |batch|
      invariant 0 <= i <= |batch|
      invariant records == Parsed(lib, batch[..i])
    {
      var decoded := DecodeRecord(lib, batch[i]);
      if decoded.Some? {
        records := records + [decoded.value];
      }
      assert batch[..i + 1][..i] == batch[..i];
      i := i + 1;
    }
    assert batch[..i] == batch;

    if records == [] {
      return Returned(NoData), None;
    }

    var bucket := BucketName(bucketSetting);
    var key := ObjectKey(requestId);
    // json.dumps runs inside the try: when it raises, put_object is never called
    var body := lib.dumps(records);
    if body.None? {
      return Returned(StoreFailed), None;
    }
    write := Some(PutRequest(bucket, key, body.value, JsonContentType, Aes256));
    if !putSucceeds {
      return Returned(StoreFailed), write;
    }
    outcome := Returned(Processed);
  }
}
