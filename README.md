# Batch-ingest handler, modelled in Dafny

This project models `lambda_handler` in `index.py`. It is the event handler that a
Kinesis-style stream triggers with a batch of records. For each record it takes
the base64 payload at `record["kinesis"]["data"]`, decodes it to UTF-8 text and
parses it as JSON. Records that fail any of these steps are skipped. The handler
keeps the successful values in arrival order. If at least one value was kept, it
writes the JSON array of all of them as one S3 object at
`processed_data/<request id>.json`, with content type `application/json` and
AES256 server-side encryption. The response codes are 400 when the event has no
`"Records"`, 204 when nothing decoded, 500 when serialising or writing fails, and
200 when the write succeeds. A `"Records"` that is null, a bool or a number
raises TypeError instead.

Files:

- `pyvalue.dfy`, module `PyValue`: the Python values the handler handles. These
  are JSON-shaped values and dicts, where a dict is its members in insertion order.
  The module also defines the three Python operations the handler uses on them:
  `key in d` / `d[key]` (`Lookup`), `v["key"]` on any value (`Subscript`) and
  `for x in v` (`Iterate`).
- `handler.dfy`, module `Handler`:
  - the response, put-request and outcome datatypes, and the handler's literal constants;
  - the per-record decode `DecodeRecord`;
  - `Parsed`, the list the loop builds, and `SuccessIndices`;
  - the bucket and key derivations;
  - `Handle`, the whole invocation as a function;
  - `LambdaHandler`, the handler as a method with the `for` loop of index.py:22-28 as a `while` loop, proved equal to `Handle`.
- `properties.dfy`, module `HandlerProperties`: the lemmas. They cover what is
  kept and in which order, the branch-to-status mapping, when the single write
  happens, and what it contains.

The model's parameters stand in for the handler's collaborators:

- The library calls `base64.b64decode`, `bytes.decode("utf-8")`, `json.loads` and
  `json.dumps` are fields of a `Library` value. Each is a function returning an
  `Option`, and `None` stands for a raised exception.
- The environment variable `DATA_LAKE_BUCKET` is an `Option<string>`.
- `context.aws_request_id` is a string.
- The outcome of `s3.put_object` is a boolean.
- The handler returns the write it attempted, as `Option<PutRequest>`.

What the code does in three edge cases:

- The `except Exception` at index.py:27 catches more than base64, UTF-8 and JSON
  errors. It also catches the KeyError of a missing `"kinesis"` or `"data"` entry
  and the TypeError of a record or entry that is not a dict. It catches the
  TypeError of a `"data"` value that is not a string too. Each such record is skipped.
- `for record in event["Records"]` iterates whatever `"Records"` holds. A string
  or a dict gives string elements. Every one of them is skipped, so the answer is
  204. `null`, a bool or a number raises an uncaught TypeError before any record
  is looked at (`RaisedTypeError`).
- `json.dumps(records)` runs inside the `try` of index.py:39-51. When it raises,
  the answer is 500 and `s3.put_object` is never called. That happens for a
  payload nested right at the recursion limit, which `json.loads` accepts and the
  extra list level makes `json.dumps` reject. One such record then loses the
  whole batch.

## Model

| member | source | states |
|---|---|---|
| PyValue.Lookup | index.py:17 | `key in d` holds exactly when some member has that key, and the value found is bound to that key in the dict |
| PyValue.Subscript | index.py:25 | `v[key]` gives a value only for a dict holding `key`, and the value is the one bound to it; any other value fails |
| PyValue.Iterate | index.py:22 | a list yields its items; a string yields its i-th character as the i-th element, a dict its i-th key; null, bool and numbers are not iterable |
| Handler.ObjectKey | index.py:37 | the key is `processed_data/`, then the request id, then `.json` |
| Handler.RequestIdOfKey | index.py:37 | any request id recovered from a key rebuilds that same key |
| Handler.LambdaHandler | index.py:13-53 | the loop keeps exactly `Parsed` of the records seen so far, and the outcome and the attempted write are those of `Handle` for the same inputs |
| HandlerProperties.ParsedLength | index.py:21-28 | the kept list is never longer than the batch |
| HandlerProperties.ParsedAppend | index.py:21-28 | records are decoded independently, so the list kept from two consecutive runs of records is the two lists joined |
| HandlerProperties.ParsedSelectsSuccesses | index.py:21-28 | the j-th kept value is the payload of the j-th record that decodes; these positions increase; a position is among them exactly when its record decodes (order kept, duplicates kept, failures dropped) |
| HandlerProperties.ParsedEmptyIff | index.py:21-31 | nothing is kept exactly when no record of the batch decodes |
| HandlerProperties.ParsedMember | index.py:21-28 | a value is kept exactly when some record decodes to it |
| HandlerProperties.MissingDataSkipped | index.py:25-28 | a record without a `kinesis` entry, or whose entry has no `data`, is skipped whatever the library does |
| HandlerProperties.DecodeRecordSucceeds | index.py:23-28 | a record decodes to v exactly when its `kinesis.data` is a string that base64-decodes to bytes, which are UTF-8 text, which parses to v |
| HandlerProperties.BucketChoice | index.py:36 | a set `DATA_LAKE_BUCKET` is the bucket, even when empty; the literal `s3-datalake-dev-data-processing-auna` is used only when it is unset |
| HandlerProperties.ObjectKeyRoundTrip | index.py:37 | the request id is recovered from the key the handler writes |
| HandlerProperties.DistinctRequestsDistinctKeys | index.py:37 | different request ids give different keys, so the same records sent twice are stored twice (no idempotence) |
| HandlerProperties.MissingRecordsRejected | index.py:17-19 | an event without `"Records"` gives 400 "Formato de evento incorrecto." and no write |
| HandlerProperties.NonIterableRecordsRaise | index.py:22 | a non-iterable `"Records"` raises TypeError and no write is made |
| HandlerProperties.NothingDecodedNoContent | index.py:31-33 | when no record decodes, the empty batch included, the answer is 204 "No hay datos para procesar." and no write is made |
| HandlerProperties.StringOrDictRecordsNoContent | index.py:22-33 | `"Records"` holding a string or a dict gives 204 and no write, because every element is skipped |
| HandlerProperties.WriteIffSomeRecordDecodes | index.py:31-47 | a write is attempted exactly when `"Records"` is present and iterable, at least one record decodes, and `json.dumps` of the kept list succeeds; there is never more than one |
| HandlerProperties.SerialisationFailureNoWrite | index.py:39-51 | when `json.dumps` of the non-empty kept list raises, the answer is 500 "Error al guardar los datos en S3." and no put is made |
| HandlerProperties.WrittenObject | index.py:36-47 | the write goes to the configured bucket at `processed_data/<id>.json`. Its body is what `json.dumps` made of the whole non-empty kept list, with `application/json` and `AES256` |
| HandlerProperties.StatusMapping | index.py:39-53 | 200 "Procesado correctamente" exactly when the write is made and succeeds; 500 "Error al guardar los datos en S3." exactly when the write is made and fails (no second attempt) or `json.dumps` raises; without a write the result is 400, 204, the TypeError, or 500 from `json.dumps` |
| HandlerProperties.MixedBatchWritesDecodedInOrder | index.py:21-53 | with good and bad records mixed, the kept list holds exactly the decoded payloads: the chosen positions increase and are exactly the ones that decode. When the list serialises, one object holds it and a successful write answers 200; otherwise the answer is 500 with no write |
| HandlerProperties.OneGoodOneBadRecord | index.py:13-53 | worked example: one good record and one that is not base64, with request id `req-1`, give 200 and one write of the body `[{"a": 1}]` at `processed_data/req-1.json` in the default bucket |

## Left out

- Logging (index.py:8-9, 14, 18, 28, 32, 48, 50): the log calls have no effect on the result. The model does not cover a failure of `json.dumps(event, indent=2)` at index.py:14. The event a stream trigger builds is a few levels deep, and its payloads are base64 strings, so its nesting stays far below the recursion limit.
- The boto3 client and the network call `s3.put_object` (index.py:11, 41-47): only the argument tuple and a success/failure outcome are modelled. Nothing is modelled about the stored object's durability, or about timeouts and retries inside boto3.
- Base64, UTF-8 and JSON decoding and `json.dumps` (index.py:25-26, 44): these are library internals, kept as uninterpreted functions that may fail. The model does not say which inputs make them fail. In particular it does not derive when `json.dumps` raises at the recursion limit, only what the handler then does.
- `base64.b64decode` also accepts bytes-like objects. A JSON-decoded event holds no bytes, so the model treats every non-string `data` value as a TypeError.
- Numbers: `Float` holds a real, so the NaN and Infinity that `json.loads` accepts are not represented. Parsed values are never inspected by the handler, only passed to `json.dumps`.
- Dicts: a dict is a sequence of members and `Lookup` takes the first binding. A Python dict never holds a key twice, and the model does not enforce that.
- The event itself is modelled as a dict, which is what a stream trigger delivers. The model does not cover a non-dict event, for which `"Records" not in event` would test list membership or a substring, or raise.
- Reading the process environment (index.py:36) is the `bucketSetting` parameter.
- Concurrent invocations, the Lambda runtime lifecycle and reuse of the module-level client across invocations: none of these appear in the handler's code.
- test_kinesis.py: a one-shot producer script that sends one record to the stream. It has no logic of its own.
