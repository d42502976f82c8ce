# django-mongolog handlers and the `analog` command, in Dafny

This project models the core of django-mongolog, a Python logging handler
that stores log records in MongoDB.

- **Handlers.** `BaseMongoLogHandler`, `SimpleMongoLogHandler` and
  `VerboseMongoLogHandler` in `mongolog/handlers.py`. The model covers:
  - the constructor's checks;
  - key sanitising (`new_key`, `check_keys`);
  - the uuid5 fingerprint of a record;
  - the document each handler class builds (`create_log_record`);
  - the two write paths `emit` chooses between. The *embedded* path keeps
    one document per fingerprint, with a `counter` and a capped `dates`
    array. The *reference* path keeps the latest document and appends one
    entry per record to a `timestamp` ledger.
- **The `analog` command.** `mongolog/management/commands/analog.py`. It
  builds an aggregation pipeline, prints each result through the console
  logger method named by its level, and raises on an unknown level.

## Modules

| file | module | what it holds |
|---|---|---|
| `outcomes.dfy` | `Outcomes` | `Option` and `Result`, usable with `:-` |
| `values.dfy` | `Values` | JSON-like values; Python dicts as ordered association lists (`Keys`, `Find`, `Get`, `Pop`, `Put`); the `Fault` datatype of Python exceptions |
| `keys.dfy` | `KeyRewrite` | `new_key`, `check_keys` as written and corrected, and a pointwise reference definition of the intended result |
| `fingerprint.dfy` | `Uuid` | uuid5 digits (version and variant), the hex form and its parse, and the fingerprint |
| `records.dfy` | `Records` | `LogRecord` events, the internal-logger sentinel, and the Base, Simple and Verbose documents |
| `store.dfy` | `MongoStore` | The `mongolog` collection, modelled as a map from fingerprint to document, and the `timestamp` ledger. It also holds which documents the driver accepts, `$push`/`$slice`/`$inc`, `insert_embedded`, both reference writers, and their histories over many records |
| `handler.dfy` | `Handlers` | The constructor, the client options, `emit`, what N emits of one message leave behind, and what happens to a message the driver refuses |
| `analog.dfy` | `Analog` | `print_results` (as a function and as a loop), `fetch_results`, `tail` and `handle` |

### Modelling choices

- Python dicts are sequences of fields. Python 2 promises no order for a
  dict, so the order kept here is the model's choice: insertion order, with
  an assigned new key going last. The order fixes the text `str(msg)` gives
  for a dict, and that text is hashed into the fingerprint.
- `check_keys` iterates a snapshot of the keys taken before the loop. This
  is Python 2's `items()`/`keys()` semantics.
- Every write returns a `Step`: the store it leaves behind plus the
  exception it raised, if any. Effects made before the exception are kept.
  For example, a reference write that replaced the document and then
  failed on the ledger still has the replacement.
- The driver refuses to encode a document with a field name that starts
  with `$`, holds `.` or holds NUL, or with an integer outside the signed
  64-bit range, at any depth and inside arrays (`StorableDoc`). Its
  refusal is the `InvalidDocument` fault.
- External inputs are parameters of the model:
  - Python's `str()` of a message and the SHA-1 digest, through the
    `Hasher` datatype;
  - the clock, as a `Clock` value holding both the local and the UTC
    reading;
  - `json.loads`, as a function returning `None` on bad input;
  - the driver's `aggregate`, as a function from a pipeline to `Results`.
- The PyMongo major version is the `Driver` datatype (2 or 3).

### Behaviour of the code worth knowing

- `new_key` replaces every `.` with the full-width stop when the key holds
  a `.`, and otherwise replaces every `$` with the full-width dollar (the
  `elif` at handlers.py:208-211). A key holding both keeps its `$`, so a
  second `new_key` changes it again (`NewKeyIdempotentIff`).
- Because of that, a key such as `$a.b` is still refused by the driver
  after `check_keys` (`Handlers.SanitizedStillRefused`).
- `check_keys` looks only at `.` and `$` in names. A key holding NUL and
  an integer beyond 64 bits pass it unchanged, and the driver refuses the
  record (`Handlers.NulKeyStillRefused`, `Handlers.OverflowStillRefused`).
- Sanitising reaches two levels: the keys of `msg` and the keys of its
  dict-valued entries. Keys deeper down and keys of dicts inside lists are
  stored as they come, and the driver refuses them when they hold `$` or
  `.`.
- A message the driver refuses is lost:
  - under the embedded type, the first insert raises and nothing is
    stored, and every later emit of that message raises in the same way
    (`Handlers.EmbeddedEmitsRefused`);
  - under the reference type with PyMongo 3, the replacement raises and
    the store keeps its old document;
  - under the reference type with PyMongo 2, the old document is removed
    first, so the fingerprint ends with no document at all
    (`Handlers.EmitRefused`).
- PyMongo 2 clients are created with the connection string alone
  (handlers.py:198-202). PyMongo 3 clients get a server-selection timeout
  of 5 ms and `w`, and get `j` exactly when `w != 0`.
- `insert_embedded` is two separate operations: a `find`, then either an
  `insert` of a new document or an `update` of the stored one. The update
  sends only the new time.
- The Verbose class does not copy `dates` into its document. Under the
  embedded record type, the first occurrence's time is therefore only in
  `created`. After N emits, `dates` holds the last `max_keep` of the other
  N - 1 times (`Handlers.VerboseEmbeddedEmits`).
- The Verbose class stores the traceback text as one string. The Simple
  class splits it into lines.

## Model

| member | source | states |
|---|---|---|
| KeyRewrite.NewKey | mongolog/handlers.py:204-213 | A key holding `.` has every `.` turned into the full-width stop and keeps its `$`. Any other key has every `$` turned into the full-width dollar. The result never holds `.`, has the same length, and a key with neither character is unchanged |
| KeyRewrite.RestoreNewKey | mongolog/handlers.py:204-213 | Round trip: mapping the full-width forms back to `.` and `$` recovers every key that did not already use them |
| KeyRewrite.NewKeyIdempotentIff | mongolog/handlers.py:208-211 | A second `new_key` changes nothing exactly when the key does not hold both `.` and `$` |
| KeyRewrite.NotIdempotentExample | mongolog/handlers.py:208-211 | `new_key("a.$")` keeps the `$`, and a second pass rewrites it |
| KeyRewrite.RenameStep | mongolog/handlers.py:225 | `d[new_key(k)] = d.pop(k)` raises `KeyError(k)` exactly when `k` is missing. Otherwise the value is found under `new_key(k)`, `k` itself is gone unless `new_key(k) == k`, and every other key reads as before |
| KeyRewrite.CheckKeysAsWritten | mongolog/handlers.py:215-231 | As written: a message that is not a dict is returned unchanged, and a dict stays a dict |
| KeyRewrite.AsWrittenRejectsRenamedNested | mongolog/handlers.py:227-229 | As written, `{'a.b': {'c': 1}}` raises `KeyError('a.b')`: the nested dict is re-read under the key that was just renamed |
| KeyRewrite.CheckKeysAsWrittenAgrees | mongolog/handlers.py:224-229 | The code as written and the corrected loop agree whenever no dict-valued key is renamed |
| KeyRewrite.CheckKeys | mongolog/handlers.py:215-231 | Corrected: a message that is not a dict is returned unchanged, and a dict stays a dict |
| KeyRewrite.CheckKeysRenames | mongolog/handlers.py:215-231 | When no renamed key collides with another key, the corrected `check_keys` equals the pointwise reference `Sanitized`: every top-level key and every key of a dict-valued entry is renamed, in place and in order; values and deeper levels are untouched |
| KeyRewrite.CorrectedRenamesNested | mongolog/handlers.py:224-229 | The corrected loop renames both levels of `{'a.b': {'c': 1}}` |
| KeyRewrite.DollarDotKeepsDollar | mongolog/handlers.py:204-225 | `check_keys` turns `$a.b` into `$a` full-width-stop `b`: the leading `$` stays |
| KeyRewrite.PlainEntryKept | mongolog/handlers.py:204-231 | A one-entry message whose key holds neither `.` nor `$` and whose value is not a dict passes `check_keys` unchanged |
| Uuid.NibblesRoundTrip | mongolog/handlers.py:257 | A number below 16^w is recovered from its w hex digits |
| Uuid.FromNibblesRoundTrip | mongolog/handlers.py:257 | A digit sequence is recovered from the number it spells |
| Uuid.Uuid5Digits | mongolog/handlers.py:257 | uuid5 keeps the digest's 32 digits, except that digit 12 is the version 5 and digit 16 carries the RFC 4122 variant bits `10` (section 4.3 of RFC 4122) |
| Uuid.HexRoundTrip | mongolog/handlers.py:257 | `.hex` is read back digit for digit |
| Uuid.Uuid5Hex | mongolog/handlers.py:257 | The hex form has 32 lower-case hex digits, `'5'` at position 12 and one of `8`, `9`, `a`, `b` at position 16 |
| Uuid.Fingerprint | mongolog/handlers.py:250-257 | A fingerprint is 32 characters with version digit 5, so it is never the sentinel's `'none'` |
| Uuid.FingerprintDigits | mongolog/handlers.py:250-257 | Parsing the stored fingerprint gives the uuid5 digits of the digest of `str(msg) + levelname` in the fixed namespace |
| Values.Get | mongolog/handlers.py:314 | `d[k]` succeeds exactly when `k` is a key and gives its value; otherwise it raises `KeyError(k)` |
| Values.FindKeys | mongolog/handlers.py:293 | `d.get(k)` finds a value exactly for the keys of `d` |
| Values.Pop | mongolog/handlers.py:319 | `del`/`pop` removes `k` and only `k` |
| Values.Put | mongolog/handlers.py:320 | Assignment stores the value under `k` and keeps every other lookup |
| Values.PutKeys | mongolog/handlers.py:320 | Assigning keeps the key order, and a new key goes last |
| Values.PutShape | mongolog/handlers.py:320 | Assigning an existing key keeps the size, and a new key is appended |
| Values.WithOptional | mongolog/handlers.py:397-405 | An optional entry goes last when its condition holds; all other lookups are unchanged |
| Records.SentinelDoc | mongolog/handlers.py:246-247 | The internal-record document has exactly the keys `uuid`, `time` and `level`, with `uuid` and `time` equal to `'none'` and level `MONGOLOG-INTERNAL` |
| Records.Now | mongolog/handlers.py:262 | The time is UTC exactly when the time zone is `'utc'`, and local time otherwise |
| Records.CreateBase | mongolog/handlers.py:233-270 | An internal logger gives the sentinel. Any other record is built exactly when `check_keys` succeeds. It then carries the sanitised message, the fingerprint of that message and its level name, and the time. `dates == [time]` is present exactly under the embedded type. `exc_text` is the formatted traceback when `exc_info` is truthy and is left as it was otherwise, and nothing else changes |
| Records.FingerprintIgnoresContext | mongolog/handlers.py:250-257 | Two records with the same message and level get the same fingerprint, whatever their logger, clock or settings |
| Records.Split | mongolog/handlers.py:404 | `split("\n")` gives at least one part, and no part holds the separator |
| Records.SplitJoin | mongolog/handlers.py:404 | Joining the parts with the separator gives the text back |
| Records.BaseDocument | mongolog/handlers.py:242-270 | The Base document of an internal record is the sentinel. For any other record it holds the message under `msg`, the fingerprint under `uuid` and the time under `time`, each assigned over any extra of that name. `dates` is `[time]` when the record has them, and otherwise whatever extra `dates` the record carried |
| Records.Attributes | mongolog/handlers.py:245 | The record's `__dict__` holds the twenty standard attributes first, in order, then the extras, and its keys are exactly those |
| Records.AttributesExtra | mongolog/handlers.py:245 | Any key that is not a standard attribute reads as the extra of that name |
| Records.BaseDocumentAttributes | mongolog/handlers.py:245-269 | The Base document begins with the twenty standard attributes, and every other key except `uuid`, `time` and `dates` reads as the record's extra of that name |
| Records.BaseDocumentKeys | mongolog/handlers.py:245-269 | When no extra is named `uuid`, `time` or `dates`, the keys are the standard attributes, the extras, `uuid`, `time`, then `dates` when the record has them |
| Records.SimpleFields | mongolog/handlers.py:382-395 | The twelve flat keys in order, with name, level name, message, fingerprint and time under `name`, `level`, `msg`, `uuid` and `time` |
| Records.SimpleFieldsValues | mongolog/handlers.py:382-392 | The other seven flat entries: thread and process numbers under `thread` and `process`, and path name, module, line number, function name and file name under `path`, `module`, `line`, `func` and `filename` |
| Records.SimpleDated | mongolog/handlers.py:397-398 | `dates` is copied exactly when present and truthy, and no flat entry changes |
| Records.SimpleDocument | mongolog/handlers.py:400-405 | `exception` (info plus the traceback split into lines) is present exactly when `exc_info` is truthy, and no other entry changes |
| Records.SimpleDocumentFields | mongolog/handlers.py:382-391 | The Simple document holds the record's name, thread, process, level name, message, path name, module, line number, function name and file name, flat |
| Records.SimpleDocumentStamps | mongolog/handlers.py:393-398 | The Simple document holds the fingerprint and time, and `dates` exactly when present and truthy |
| Records.SimpleDatedKeys | mongolog/handlers.py:382-398 | The keys are the twelve flat ones, then `dates` when it is stored |
| Records.SimpleDocumentKeys | mongolog/handlers.py:382-405 | The keys are the twelve flat ones, then `dates`, then `exception`, each optional one only when stored |
| Records.SimpleRecord | mongolog/handlers.py:378-381 | The sentinel passes through unchanged; a stamped record becomes the Simple document |
| Records.VerboseDocument | mongolog/handlers.py:412-442 | The Verbose document holds the fingerprint, the time, the `level{name, num}` group, the logger name, the `thread{num, name}` and `process{num, name}` groups, and the `info` group with the message, path, module, line, function and file name. When `exc_info` is truthy it holds `exception{info, trace}` with the traceback text as one string, and otherwise no `exception`. Its keys are the seven groups, plus `exception` in that case. It never has `dates` |
| Records.VerboseRecordAsWritten | mongolog/handlers.py:410-413 | As written, the sentinel raises `KeyError('name')`, and only the sentinel does |
| Records.VerboseRecord | mongolog/handlers.py:410-444 | Corrected: the sentinel passes through; a stamped record becomes the Verbose document |
| Records.VerboseAgreesOnStamped | mongolog/handlers.py:410-444 | The as-written and corrected Verbose builders agree on every record except the sentinel |
| MongoStore.Last | mongolog/handlers.py:332 | The last `k` items, or all of them when there are fewer, form a suffix of the input |
| MongoStore.Slice | mongolog/handlers.py:332 | `$slice: n` empties the array for 0, keeps the last `-n` items for negative `n`, and keeps the first `n` for positive `n` |
| MongoStore.LastAppend | mongolog/handlers.py:328-334 | Capping after each push equals capping once at the end |
| MongoStore.PushSlice | mongolog/handlers.py:329-334 | `$push` with `$each`/`$slice`: a missing array is created, an array grows and is cut, and any other value is a write error |
| MongoStore.Inc | mongolog/handlers.py:336 | `$inc` by one: a missing counter starts at 1, an integer grows by 1, and any other value is a write error |
| MongoStore.FirstSighting | mongolog/handlers.py:319-320 | `time` is renamed to `created`, `counter` is 1, and no other key changes |
| MongoStore.FirstSightingStorable | mongolog/handlers.py:319-324 | Renaming `time` to `created` and adding `counter` keeps an accepted record accepted |
| MongoStore.RefusedWhereHeld | mongolog/handlers.py:319-324 | A record holding a refused value under any key other than `time`, `created` and `counter` is refused, and so is its first-sighting document |
| MongoStore.Resighting | mongolog/handlers.py:328-337 | The update applies exactly when both operators accept the document. It then pushes onto `dates` and bumps `counter` and leaves every other key |
| MongoStore.InsertEmbedded | mongolog/handlers.py:308-342 | A missing `uuid` or `time` raises KeyError with no write. Success requires both keys and either a first sighting the driver accepts or, for a known fingerprint, an applicable update. The driver refuses (`InvalidDocument`) exactly a first sighting it cannot store. A failure leaves the store as it was, and the ledger never changes |
| MongoStore.EmbeddedFirst | mongolog/handlers.py:316-324 | An unseen fingerprint whose first-sighting document the driver accepts is inserted as that document |
| MongoStore.EmbeddedAgain | mongolog/handlers.py:325-342 | A seen fingerprint's document is replaced by its updated form |
| MongoStore.ResightingOk | mongolog/handlers.py:328-337 | With an integer counter and an array (or no) `dates`, the update succeeds, adds one to the counter, pushes and cuts `dates`, and keeps `created` |
| MongoStore.ReferencePy3 | mongolog/handlers.py:359-374 | A missing `uuid` raises KeyError with no write, and a document the driver refuses raises `InvalidDocument` with no write. Otherwise the record replaces or is inserted under its fingerprint, even when reading `time` then fails. It succeeds, with the ledger gaining `(uuid, time)`, exactly when both keys exist and the driver accepts the document |
| MongoStore.ReferencePy2 | mongolog/handlers.py:344-357 | Remove-then-insert leaves an accepted record under its fingerprint, and no other fingerprint appears or disappears. A refused record raises `InvalidDocument` after the old document under its fingerprint was removed |
| MongoStore.ReferenceDriversAgree | mongolog/handlers.py:344-374 | The PyMongo 2 and PyMongo 3 reference writers raise the same error and leave the same ledger. They leave the same store unless the driver refuses a record that has a `uuid`; then PyMongo 3 keeps the store and PyMongo 2 has removed that fingerprint's document |
| MongoStore.Reference | mongolog/handlers.py:301-306 | Whichever driver is loaded, the reference write raises what the PyMongo 3 writer raises and leaves its ledger. For an accepted record it is the PyMongo 3 write, and under PyMongo 2 a refused record loses its fingerprint's document |
| MongoStore.EmbeddedStart | mongolog/handlers.py:316-324 | The first accepted record of a fingerprint gives count 1, `created` equal to its time, its own `dates`, and no other document changes |
| MongoStore.EmbeddedExtend | mongolog/handlers.py:325-342 | One more record of a stored fingerprint adds one to the count, keeps `created`, pushes its time and cuts to the last `max_keep` |
| MongoStore.PushedDatesAreLast | mongolog/handlers.py:328-334 | The array built push by push equals the last `max_keep` of all pushed times |
| MongoStore.EmbeddedReplay | mongolog/handlers.py:308-342 | Records of one new fingerprint, the first of them accepted by the driver, written in turn, all succeed and leave count N, the first time, and the pushed `dates`; other documents are untouched |
| MongoStore.EmbeddedHistory | mongolog/handlers.py:308-342 | The same, with `dates` stated as the last `max_keep` of what the first record brought followed by the later times; the ledger is untouched |
| MongoStore.EmbeddedKeepsLastTimes | mongolog/handlers.py:308-342 | When the first record brings `dates = [time]`, the document ends with `counter == N` and `dates` equal to the last `max_keep` times, oldest first |
| MongoStore.ReferenceStep | mongolog/handlers.py:359-374 | A record the driver accepts, with `uuid` and `time`, replaces the document and adds one ledger entry |
| MongoStore.ReferenceHistory | mongolog/handlers.py:344-374 | Reference writes of accepted records of one fingerprint leave exactly the latest record under it, and one ledger entry per record in order |
| MongoStore.WritesKeepKeyed | mongolog/handlers.py:308-374 | Both write paths keep every stored document under its own `uuid` |
| MongoStore.EmbeddedKeepsKeyed | mongolog/handlers.py:308-342 | The embedded write keeps every stored document under its own `uuid` |
| MongoStore.ReferenceKeepsKeyed | mongolog/handlers.py:344-374 | Both reference writers keep every stored document under its own `uuid` |
| Handlers.Construct | mongolog/handlers.py:100-139 | A handler exists exactly when the record type is `reference` or `embedded` and a connection is given. The record type is checked first (`ValueError` with the source's message), then the connection (`MissingConnectionError`) |
| Handlers.ClientOptions | mongolog/handlers.py:146-202 | A PyMongo 2 client gets no options. A PyMongo 3 client gets a server-selection timeout of 5 and `w`, and `j` exactly when `w != 0` |
| Handlers.Document | mongolog/handlers.py:233-248 | A document is built exactly when the record is internal or its keys can be sanitised. An internal record gives the sentinel under every class |
| Handlers.DocumentStamped | mongolog/handlers.py:250-268 | An ordinary record with sanitisable keys is built, under the fingerprint of its sanitised message and level, with its clock's time. Under the embedded type and a non-Verbose class it has `dates == [time]`; under the Verbose class, or the reference type with no extra `dates`, it has none |
| Handlers.DocumentKeyed | mongolog/handlers.py:246-263 | Every built document has a `uuid` and a `time` |
| Handlers.Emit | mongolog/handlers.py:285-306 | A record that cannot be built raises with no write. The embedded path leaves the ledger alone. On the reference path an accepted document replaces the one under its uuid and appends one ledger entry, and a refused one raises `InvalidDocument` with the ledger unchanged |
| Handlers.EmitsWriteBuilt | mongolog/handlers.py:285-306 | When every record can be built, emitting in turn is writing the built documents in turn on the handler's path |
| Handlers.BuiltOne | mongolog/handlers.py:250-262 | A repeat of a message is built under its fingerprint with its own time |
| Handlers.BuiltStamps | mongolog/handlers.py:250-262 | All repeats of a message share one fingerprint, each stamped with its own time |
| Handlers.EmbeddedEmitsCollapse | mongolog/handlers.py:285-342 | N emits of one message through a Base or Simple embedded handler, the first accepted by the driver, leave one document: created at the first time, `counter == N`, and `dates` the last `max_keep` times, oldest first. Other documents and the ledger are unchanged |
| Handlers.VerboseEmbeddedEmits | mongolog/handlers.py:409-444 | Through the Verbose class, the same emits give `counter == N` and `created` equal to the first time. `dates` is missing after one emit and holds the last `max_keep` of the later times after more |
| Handlers.ReferenceEmitsLedger | mongolog/handlers.py:359-374 | N accepted emits under the reference type leave the latest document under the fingerprint and add N ledger entries in order |
| Handlers.RefusedMessage | mongolog/handlers.py:233-270 | A message whose sanitised form the driver refuses still builds a document, and the driver refuses that document and its first-sighting form |
| Handlers.DocumentHoldsMessage | mongolog/handlers.py:245-256 | The sanitised message is held under `msg`, or inside `info` for the Verbose class, so a refused message makes a refused document |
| Handlers.EmitRefused | mongolog/handlers.py:285-374 | Emitting such a message raises `InvalidDocument`. Under the embedded type with an unseen fingerprint nothing is written; under the reference type the ledger is unchanged, PyMongo 3 keeps the store, and PyMongo 2 removes the fingerprint's document |
| Handlers.EmbeddedEmitsRefused | mongolog/handlers.py:285-324 | Every emit of a refused message under the embedded type raises `InvalidDocument`, and the store stays as it was |
| Handlers.SanitizedStillRefused | mongolog/handlers.py:204-231 | `check_keys` accepts `{'$a.b': 1}`, and the driver refuses what it returns |
| Handlers.OverflowStillRefused | mongolog/handlers.py:215-231 | `check_keys` returns `{'n': 2**64}` unchanged, and the driver refuses it because the integer does not fit in 64 bits |
| Handlers.NulKeyStillRefused | mongolog/handlers.py:215-231 | `check_keys` returns a message whose key holds NUL unchanged, and the driver refuses it |
| Handlers.InternalEmitsSentinel | mongolog/handlers.py:246-247 | Internal records become the sentinel. Under the reference type they are stored under `'none'` with a `('none', 'none')` ledger entry |
| Analog.RouteLevels | mongolog/management/commands/analog.py:65-81 | The five level names go to the logger method of that name (`warn` for WARNING). The internal level and a missing or null level print nothing. Any other level raises, naming the level, and a row that is not a document raises on `get` |
| Analog.Routed | mongolog/management/commands/analog.py:65-79 | Every printed line goes to the method its row's level routes to, and no more lines are printed than rows |
| Analog.RoutedAppend | mongolog/management/commands/analog.py:65 | Output is taken row by row, in order |
| Analog.SilentRows | mongolog/management/commands/analog.py:77-79 | Internal and level-less rows print nothing |
| Analog.FirstFailure | mongolog/management/commands/analog.py:65-81 | Finds the first row that raises: every earlier row routes |
| Analog.PrintRows | mongolog/management/commands/analog.py:65-81 | The loop raises exactly when some row fails to route, and then with that first row's error. It prints the lines of the rows before that row |
| Analog.PrintRowsStops | mongolog/management/commands/analog.py:80-81 | Printing stops at the first unknown level |
| Analog.PrintRowsAll | mongolog/management/commands/analog.py:65-79 | With no failing row, every routed row is printed and nothing is raised |
| Analog.Reverse | mongolog/management/commands/analog.py:61 | `reverse()` puts item `i` at position `n-1-i` |
| Analog.Rows | mongolog/management/commands/analog.py:56-63 | A cursor is iterated as is. A legacy reply's `result` list is reversed, and a reply without `result` raises `KeyError` |
| Analog.Print | mongolog/management/commands/analog.py:55-81 | A failure to read the rows prints nothing; otherwise the rows go through the loop |
| Analog.LegacyReversed | mongolog/management/commands/analog.py:59-61 | A legacy reply is printed from the end of its `result` list to its start |
| Analog.PrintResults | mongolog/management/commands/analog.py:55-81 | The imperative `print_results` agrees with `Print` |
| Analog.PrintLoop | mongolog/management/commands/analog.py:65-81 | The loop, run one row at a time, agrees with `PrintRows` |
| Analog.Pipeline | mongolog/management/commands/analog.py:83-92 | Four stages: match the query (everything when it is falsy), project `_id`, `level` and `msg`, sort newest first by `created`, and limit |
| Analog.EmptyQueriesAgree | mongolog/management/commands/analog.py:84 | Every falsy query gives the same pipeline, which matches everything |
| Analog.Query | mongolog/management/commands/analog.py:100-101 | A missing query is `None` and an empty one stays `''`, and both match everything. Any other query is decoded as JSON, and text that is not JSON raises |
| Analog.Tail | mongolog/management/commands/analog.py:94-97 | `--tail` prints the first batch and then always raises, with `NotImplementedError` when the batch printed cleanly |
| Analog.Handle | mongolog/management/commands/analog.py:94-110 | A bad query raises before anything is printed. Without `--tail`, one batch for the decoded query is printed. With it, the same first batch is printed and the command always ends in an exception, `NotImplementedError` when the batch printed cleanly |
| Analog.HandleWithoutQuery | mongolog/management/commands/analog.py:99-110 | Without a query the JSON parser is never used, and every document is asked for |

## Findings

| source | as written | input that shows it | evidently intended | confidence | as-written member | corrected member |
|---|---|---|---|---|---|---|
| mongolog/handlers.py:227-229 | After `msg[new_key(k)] = msg.pop(k)`, the nested dict is re-read as `record['msg'][k]`, under the old key | `msg = {'a.b': {'c': 1}}`: `'a.b'` is renamed, so `record['msg']['a.b']` raises `KeyError` and the record is never stored | Rename the keys of the nested dict now stored under `new_key(k)` | medium; not executed | KeyRewrite.CheckKeysAsWritten, KeyRewrite.AsWrittenRejectsRenamedNested | KeyRewrite.CheckKeys, KeyRewrite.CheckKeysRenames, KeyRewrite.CorrectedRenamesNested |
| mongolog/handlers.py:410-413 | `VerboseMongoLogHandler.create_log_record` reads `record['name']` from what the base class returned, with no check for the sentinel | Any record from a logger whose name contains `mongolog.management.commands`: the sentinel has no `name`, so `KeyError('name')` is raised | Return the sentinel unchanged, as `SimpleMongoLogHandler` does at handlers.py:380-381 | high; not executed | Records.VerboseRecordAsWritten | Records.VerboseRecord, Handlers.InternalEmitsSentinel |

The rest of the model uses the corrected members: `CreateBase` calls
`CheckKeys`, and the Verbose class goes through `VerboseRecord`.

## Left out

- Connecting to MongoDB (`connect`, `connect_pymongo3`, `connect_pymongo2`, the server check, the timeout error) and `ensure_collections_indexed`: these are driver I/O. The unique `uuid` index appears only as the store being a map.
- PyMongo versions other than 2 and 3: no client is created for them.
- `get_mongolog_handler` and the handler lookup in `analog.handle`: they search Python's global logging registry.
- `formatException`, the JSON round trip of `record.__dict__`, Python's `str()` of a message and SHA-1: these are library code. The traceback text, the round-tripped attributes, `str()` and the digest are inputs.
- The Python 2 `unicode(...).encode('utf-8')` branch of the uuid key: only the Python 3 form `str(msg) + str(levelname)` is modelled.
- Under Python 3, `check_keys` changes the dict while iterating a view of it. Python 3.8 and later raise `RuntimeError` for that; the model follows Python 2's list snapshot instead.
- The order of a Python 2 dict: the model keeps insertion order, so `str()` of a dict message, and with it the fingerprint, follows that order.
- The `_id` field MongoDB adds to every stored document and every ledger entry. The model's documents have no `_id`, so "the latest record" in the reference history holds up to `_id`: PyMongo 3's `find_one_and_replace` keeps the first document's `_id`, and PyMongo 2's remove-then-insert gets a new one.
- The write concern `w=0` (handlers.py:184-186): the server then acknowledges nothing, so a write the server rejects, such as an update whose `$inc` or `$push` does not apply, raises nothing in the handler. The model reports such a write as a `WriteError` fault, as under an acknowledged write concern. The driver's own check of field names still raises under `w=0`.
- `None` values for `thread`, `threadName`, `process` and `processName`, which Python's logging gives when `logThreads`, `logProcesses` or `logMultiprocessing` is off. The `Event` datatype types them as integers and strings, so the model covers only the logging defaults.
- The `verbose` echo of each record to stdout (handlers.py:295-296), which is output only.
- The MongoDB write concern's effect on durability. Only the options passed to the client are modelled.
- Concurrency: two processes emitting the same fingerprint can race between `find` and `insert`. The model applies writes one at a time.
- `HttpLogHandler`, the `ml_purge`/`ml_copy`/`mongolog_purge` commands and `mongologger.py`, which are outside the core.
- The aggregation itself (matching, projection, sorting, limiting inside MongoDB): `analog` only builds the pipeline, and the reply is an input.
- KeyRewrite.CheckKeys: its contract states only that dicts stay dicts and other values pass through. The full result is stated by `CheckKeysRenames` and only for messages whose renamed keys do not collide. With colliding keys, the in-place loop overwrites entries in an order-dependent way.
- Handlers.Emit: for the embedded path its contract states only that the ledger is unchanged. The document written is stated by `MongoStore.InsertEmbedded` and by the history lemmas. Its reference clause assumes the built document has `uuid` and `time`. `Handlers.DocumentKeyed` proves that every built document has them.
- The driver's and the server's exact exceptions: every refusal to store a document is one `InvalidDocument` fault, including the driver's `OverflowError` for an integer beyond 64 bits. The model applies one rule to inserts and replacements alike; a server version that accepts `$` or `.` names in a replacement is not modelled.
- MongoStore.InsertEmbedded: its refusal test `StorableDoc` covers field names (`$`, `.`, NUL) and 64-bit integers only. The 16 MB limit on a BSON document, strings the encoder cannot write as UTF-8, and values of types the encoder does not know are not modelled, so such a record is stored where the driver raises.
- MongoStore.ReferencePy3: the same gaps as `MongoStore.InsertEmbedded`; `MongoStore.ReferencePy2`, `MongoStore.ReferenceDriversAgree` and `MongoStore.Reference` share them, and under PyMongo 2 such a record would also lose the old document.
- Floating-point values: `Value` has no float variant, so the float attributes `created`, `msecs` and `relativeCreated`, float messages and a `counter` stored as a double are outside the model. The event carries these attributes as plain `Value`s, so any modelled kind can stand in for them.
- The module header at handlers.py:27-28 (`except: ImportError:` and `from io import io.BytesIO as cStringIO`) is not valid Python 2 or 3, so the file as written does not import. The model reads it as the evident `except ImportError: from io import BytesIO as cStringIO`. Even so, `cStringIO.StringIO()` at handlers.py:86 would raise `AttributeError` under Python 3; `formatException` is an input of the model, so its text is never computed.
- MongoStore.EmbeddedHistory: it assumes the driver accepts the first record; the refused case is stated by `Handlers.EmitRefused` and `Handlers.EmbeddedEmitsRefused`. It also assumes `max_keep >= 1`; for `max_keep <= 0` the cut is stated only per step, by `MongoStore.Slice`, `MongoStore.PushSlice` and `MongoStore.ResightingOk`.
- MongoStore.EmbeddedKeepsLastTimes: the same two assumptions as `MongoStore.EmbeddedHistory`.
- MongoStore.PushedDatesAreLast: it assumes `max_keep >= 1`; for `max_keep <= 0` see `MongoStore.Slice`.
- MongoStore.ReferenceHistory: it assumes the driver accepts every record; a refused one is stated per step by `MongoStore.ReferenceDriversAgree`. "The latest record" holds up to the `_id` MongoDB adds.
- Handlers.EmbeddedEmitsCollapse: it assumes `max_keep >= 1` and that the driver accepts the first emitted document. The refused case is `Handlers.EmbeddedEmitsRefused`.
- Handlers.VerboseEmbeddedEmits: the same two assumptions as `Handlers.EmbeddedEmitsCollapse`. It also does not restate that other documents and the ledger are unchanged; `MongoStore.EmbeddedHistory` states that for every embedded history.
- Handlers.ReferenceEmitsLedger: it assumes the driver accepts every emitted document; a refused one is stated by `Handlers.EmitRefused`.
