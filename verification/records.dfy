/** Turning a Python `LogRecord` into the document a handler stores
    (handlers.py `create_log_record` of BaseMongoLogHandler,
    SimpleMongoLogHandler and VerboseMongoLogHandler). */
module Records {
  import opened Outcomes
  import opened Values
  import opened KeyRewrite
  import opened Uuid

  /** Loggers whose name contains this are the package's own commands. */
  const InternalMarker: string := "mongolog.management.commands"

  /** The level of the fixed document such records become. */
  const InternalLevel: string := "MONGOLOG-INTERNAL"

  datatype RecordType = Reference | Embedded

  /** The two readings of the clock a handler may take: `dt.now()` and
      `dt.utcnow()`. */
  datatype Clock = Clock(local: int, utc: int)

  /** A `LogRecord`'s `__dict__` after the JSON round trip: the standard
      attributes in the order `LogRecord.__init__` sets them, then `extra`,
      the attributes set after construction (those passed with `extra=`,
      a formatter's `message`, newer versions' additions), in order.
      `formatted` is what `formatException` makes of `excInfo`. */
  datatype Event = Event(
    name: string,
    msg: Value,
    args: Value,
    levelname: string,
    levelno: int,
    pathname: string,
    filename: string,
    moduleName: string,
    excInfo: Value,
    excText: Option<string>,
    stackInfo: Value,
    lineno: int,
    funcName: string,
    created: Value,
    msecs: Value,
    relativeCreated: Value,
    thread: int,
    threadName: string,
    processName: string,
    process: int,
    extra: Dict,
    formatted: string)

  /** The handler settings `create_log_record` reads. */
  datatype Settings = Settings(recordType: RecordType, timeZone: string)

  /** The Base handler's record: the sentinel, or the event with its
      sanitised message, fingerprint, time and (embedded only) dates. */
  datatype BaseRecord =
    | Internal
    | Stamped(event: Event, uuid: string, time: Value, dates: Option<seq<Value>>)

  /** Python's `sub in s` on strings. */
  predicate Contains(s: string, sub: string)
    decreases |s|
  {
    sub <= s || (s != [] && Contains(s[1..], sub))
  }

  predicate IsInternal(e: Event) {
    Contains(e.name, InternalMarker)
  }

  /** `{'uuid': 'none', 'time': 'none', 'level': 'MONGOLOG-INTERNAL'}` */
  function SentinelDoc(): (d: Dict)
    ensures Find(d, "uuid") == Some(Str("none"))
    ensures Find(d, "time") == Some(Str("none"))
    ensures Find(d, "level") == Some(Str(InternalLevel))
    ensures Keys(d) == ["uuid", "time", "level"]
  {
    var d := [Field("uuid", Str("none")), Field("time", Str("none")), Field("level", Str(InternalLevel))];
    FindAt(d, 1);
    FindAt(d, 2);
    d
  }

  /** The time stamp: UTC when the handler's time zone is `'utc'`, local
      time otherwise. */
  function Now(s: Settings, clock: Clock): (t: Value)
    ensures t.Time?
    ensures s.timeZone == "utc" ==> t == Time(clock.utc)
    ensures s.timeZone != "utc" ==> t == Time(clock.local)
  {
    Time(if s.timeZone == "utc" then clock.utc else clock.local)
  }

  /** BaseMongoLogHandler.create_log_record: internal records short-circuit
      to the sentinel with no hashing; every other record gets its message
      sanitised, the fingerprint of that sanitised message and its level
      name, the time, and under the embedded record type a one-element
      `dates`. */
  function CreateBase(h: Hasher, s: Settings, clock: Clock, e: Event): (r: Result<BaseRecord, Fault>)
    ensures IsInternal(e) ==> r == Ok(Internal)
    ensures !IsInternal(e) ==> (r.Ok? <==> CheckKeys(e.msg).Ok?)
    ensures r.Ok? && !IsInternal(e) ==>
      && r.value.Stamped?
      && r.value.event.msg == CheckKeys(e.msg).value
      && r.value.uuid == Fingerprint(h, CheckKeys(e.msg).value, e.levelname)
      && r.value.time == Now(s, clock)
      && (r.value.dates.Some? <==> s.recordType == Embedded)
      && (r.value.dates.Some? ==> r.value.dates.value == [r.value.time])
    ensures r.Ok? && !IsInternal(e) ==>
      r.value.event == e.(msg := r.value.event.msg, excText := r.value.event.excText)
    ensures r.Ok? && !IsInternal(e) && Truthy(e.excInfo) ==> r.value.event.excText == Some(e.formatted)
    ensures r.Ok? && !IsInternal(e) && !Truthy(e.excInfo) ==> r.value.event.excText == e.excText
  {
    if IsInternal(e) then Ok(Internal)
    else
      var msg :- CheckKeys(e.msg);
      var excText := if Truthy(e.excInfo) then Some(e.formatted) else e.excText;
      var time := Now(s, clock);
      Ok(Stamped(
        e.(msg := msg, excText := excText),
        Fingerprint(h, msg, e.levelname),
        time,
        if s.recordType == Embedded then Some([time]) else None))
  }

  /** The fingerprint depends on the sanitised message and the level name
      only: not on the logger name, thread, process, source location or
      time. */
  lemma FingerprintIgnoresContext(h: Hasher, s1: Settings, s2: Settings, c1: Clock, c2: Clock, e1: Event, e2: Event)
    requires !IsInternal(e1) && !IsInternal(e2)
    requires e1.msg == e2.msg && e1.levelname == e2.levelname
    requires CreateBase(h, s1, c1, e1).Ok?
    ensures CreateBase(h, s2, c2, e2).Ok?
    ensures CreateBase(h, s1, c1, e1).value.uuid == CreateBase(h, s2, c2, e2).value.uuid
  {
  }

  // ---------------------------------------------------------------------
  // Splitting the traceback text

  /** Python's `s.split(sep)` for a one-character separator. */
  function Split(s: string, sep: char): (parts: seq<string>)
    ensures |parts| >= 1
    ensures forall i :: 0 <= i < |parts| ==> sep !in parts[i]
  {
    if s == [] then [""]
    else
      var rest := Split(s[1..], sep);
      if s[0] == sep then [""] + rest else [[s[0]] + rest[0]] + rest[1..]
  }

  /** `sep.join(parts)` */
  function Join(parts: seq<string>, sep: char): string
    requires |parts| >= 1
  {
    if |parts| == 1 then parts[0] else parts[0] + [sep] + Join(parts[1..], sep)
  }

  /** Joining the pieces back with the separator gives the text. */
  lemma {:induction false} SplitJoin(s: string, sep: char)
    ensures Join(Split(s, sep), sep) == s
  {
    if s != [] {
      var rest := Split(s[1..], sep);
      SplitJoin(s[1..], sep);
      if s[0] == sep {
        assert Split(s, sep)[1..] == rest;
      } else {
        var parts := [[s[0]] + rest[0]] + rest[1..];
        if |rest| == 1 {
          assert parts == [[s[0]] + rest[0]];
        } else {
          assert parts[1..] == rest[1..];
          assert Join(rest, sep) == rest[0] + [sep] + Join(rest[1..], sep);
        }
      }
    }
  }

  function Strs(parts: seq<string>): (vs: seq<Value>)
    ensures |vs| == |parts|
    ensures forall i :: 0 <= i < |parts| ==> vs[i] == Str(parts[i])
  {
    seq(|parts|, i requires 0 <= i < |parts| => Str(parts[i]))
  }

  // ---------------------------------------------------------------------
  // The three document shapes

  /** The standard `LogRecord` attributes, in the order `__init__` sets
      them. */
  const AttributeKeys: seq<string> := [
    "name", "msg", "args", "levelname", "levelno", "pathname", "filename", "module",
    "exc_info", "exc_text", "stack_info", "lineno", "funcName", "created", "msecs",
    "relativeCreated", "thread", "threadName", "processName", "process"]

  /** The values of the standard attributes, position by position. */
  function AttributeValues(e: Event): (vs: seq<Value>)
    ensures |vs| == |AttributeKeys|
  {
    [Str(e.name), e.msg, e.args, Str(e.levelname), Int(e.levelno), Str(e.pathname),
     Str(e.filename), Str(e.moduleName), e.excInfo,
     if e.excText.Some? then Str(e.excText.value) else Null,
     e.stackInfo, Int(e.lineno), Str(e.funcName), e.created, e.msecs, e.relativeCreated,
     Int(e.thread), Str(e.threadName), Str(e.processName), Int(e.process)]
  }

  /** The keys `create_log_record` adds are not standard attributes. */
  lemma AttributeKeysFree()
    ensures "uuid" !in AttributeKeys && "time" !in AttributeKeys && "dates" !in AttributeKeys
    ensures AttributeKeys[0] == "name" && AttributeKeys[1] == "msg"
  {
    UuidNotAttribute();
    TimeNotAttribute();
    DatesNotAttribute();
  }

  lemma UuidNotAttribute() ensures "uuid" !in AttributeKeys {}
  lemma TimeNotAttribute() ensures "time" !in AttributeKeys {}
  lemma DatesNotAttribute() ensures "dates" !in AttributeKeys {}

  /** `record.get('dates')` on the Base handler's record: the one-element
      array under the embedded type, otherwise whatever an extra attribute
      of that name holds. */
  function RecordDates(b: BaseRecord): Option<Value>
    requires b.Stamped?
  {
    if b.dates.Some? then Some(List(b.dates.value)) else Find(b.event.extra, "dates")
  }

  /** The record's `__dict__`: the standard attributes, then the extra
      ones. */
  function Attributes(e: Event): (d: Dict)
    ensures |d| >= |AttributeKeys|
    ensures forall i :: 0 <= i < |AttributeKeys| ==> d[i] == Field(AttributeKeys[i], AttributeValues(e)[i])
    ensures Keys(d) == AttributeKeys + Keys(e.extra)
  {
    var attrs := Zip(AttributeKeys, AttributeValues(e));
    KeysConcat(attrs, e.extra);
    attrs + e.extra
  }

  /** An extra attribute is found as the record holds it, unless a
      standard attribute of the same name comes first. */
  lemma AttributesExtra(e: Event, k: string)
    requires k !in AttributeKeys
    ensures Find(Attributes(e), k) == Find(e.extra, k)
  {
    var attrs := Zip(AttributeKeys, AttributeValues(e));
    assert Attributes(e) == attrs + e.extra;
    FindPastPrefix(attrs, e.extra, k);
  }

  /** `record.msg` is the second attribute. */
  lemma AttributesMsg(e: Event)
    ensures Find(Attributes(e), "msg") == Some(e.msg)
  {
    var d := Attributes(e);
    assert d[0].key == "name" && d[1] == Field("msg", e.msg);
    FindAt(d, 1);
  }

  /** `record.update({'uuid': …, 'time': …})`: each assigned in place over
      an entry of the same name, or appended. */
  function AddUuidTime(all: Dict, uuid: string, time: Value): (d: Dict)
    ensures Find(d, "uuid") == Some(Str(uuid)) && Find(d, "time") == Some(time)
    ensures forall k :: k != "uuid" && k != "time" ==> Find(d, k) == Find(all, k)
  {
    StampKeysDistinct();
    Put(Put(all, "uuid", Str(uuid)), "time", time)
  }

  /** The stamps of the Base record: `uuid` and `time`, then under the
      embedded type `record['dates'] = [time]`. */
  function AddStamps(all: Dict, uuid: string, time: Value, dates: Option<seq<Value>>): (d: Dict)
    ensures Find(d, "uuid") == Some(Str(uuid)) && Find(d, "time") == Some(time)
    ensures Find(d, "dates") == if dates.Some? then Some(List(dates.value)) else Find(all, "dates")
    ensures forall k :: k != "uuid" && k != "time" && k != "dates" ==> Find(d, k) == Find(all, k)
  {
    StampKeysDistinct();
    var d2 := AddUuidTime(all, uuid, time);
    var r := AddDates(d2, dates);
    assert Find(r, "uuid") == Find(d2, "uuid") && Find(r, "time") == Find(d2, "time");
    assert Find(d2, "dates") == Find(all, "dates");
    r
  }

  /** `record['dates'] = [time]` when the handler stamps a history. */
  function AddDates(d: Dict, dates: Option<seq<Value>>): (r: Dict)
    ensures Find(r, "dates") == if dates.Some? then Some(List(dates.value)) else Find(d, "dates")
    ensures forall k :: k != "dates" ==> Find(r, k) == Find(d, k)
  {
    if dates.Some? then Put(d, "dates", List(dates.value)) else d
  }

  lemma StampKeysDistinct()
    ensures "uuid" != "time" && "uuid" != "dates" && "time" != "dates"
  {
  }

  /** The stamps leave in place every leading entry named otherwise. */
  lemma AddStampsPrefix(all: Dict, n: nat, uuid: string, time: Value, dates: Option<seq<Value>>)
    requires n <= |all|
    requires forall i :: 0 <= i < n ==> all[i].key != "uuid" && all[i].key != "time" && all[i].key != "dates"
    ensures |AddStamps(all, uuid, time, dates)| >= n
    ensures forall i :: 0 <= i < n ==> AddStamps(all, uuid, time, dates)[i] == all[i]
  {
    var d1 := Put(all, "uuid", Str(uuid));
    PutKeepsPrefix(all, n, "uuid", Str(uuid));
    var d2 := Put(d1, "time", time);
    PutKeepsPrefix(d1, n, "time", time);
    assert d2 == AddUuidTime(all, uuid, time);
    assert AddStamps(all, uuid, time, dates) == AddDates(d2, dates);
    if dates.Some? {
      PutKeepsPrefix(d2, n, "dates", List(dates.value));
    }
  }

  /** The Base handler stores the whole `__dict__` of the record, then
      `uuid`, `time` and (embedded) `dates`, each assigned over any extra
      attribute of the same name; the internal sentinel is stored as
      built. */
  function BaseDocument(b: BaseRecord): (d: Dict)
    ensures b.Internal? ==> d == SentinelDoc()
    ensures b.Stamped? ==> Find(d, "uuid") == Some(Str(b.uuid)) && Find(d, "time") == Some(b.time)
    ensures b.Stamped? ==> Find(d, "dates") == RecordDates(b)
    ensures b.Stamped? ==> Find(d, "msg") == Some(b.event.msg)
  {
    match b
    case Internal => SentinelDoc()
    case Stamped(e, uuid, time, dates) =>
      var all := Attributes(e);
      assert Find(all, "dates") == Find(e.extra, "dates") by {
        DatesNotAttribute();
        AttributesExtra(e, "dates");
      }
      assert Find(all, "msg") == Some(e.msg) by { AttributesMsg(e); }
      assert "msg" != "uuid" && "msg" != "time" && "msg" != "dates";
      AddStamps(all, uuid, time, dates)
  }

  /** Every standard attribute of the record is stored in its place, in
      front; every other extra attribute is stored as the record holds
      it. */
  lemma BaseDocumentAttributes(b: BaseRecord)
    requires b.Stamped?
    ensures |BaseDocument(b)| >= |AttributeKeys|
    ensures forall i :: 0 <= i < |AttributeKeys| ==>
      BaseDocument(b)[i] == Field(AttributeKeys[i], AttributeValues(b.event)[i])
    ensures forall k :: k !in AttributeKeys && k != "uuid" && k != "time" && k != "dates" ==>
      Find(BaseDocument(b), k) == Find(b.event.extra, k)
  {
    var all := Attributes(b.event);
    assert BaseDocument(b) == AddStamps(all, b.uuid, b.time, b.dates);
    AttributeKeysFree();
    AddStampsPrefix(all, |AttributeKeys|, b.uuid, b.time, b.dates);
    forall k | k !in AttributeKeys && k != "uuid" && k != "time" && k != "dates"
      ensures Find(BaseDocument(b), k) == Find(b.event.extra, k)
    {
      AttributesExtra(b.event, k);
    }
  }

  /** The Base document's keys, when no extra attribute is named like a
      key `create_log_record` adds: the standard attributes, the extra
      ones, `uuid`, `time`, then `dates` under the embedded type. */
  lemma BaseDocumentKeys(b: BaseRecord)
    requires b.Stamped?
    requires "uuid" !in Keys(b.event.extra) && "time" !in Keys(b.event.extra) && "dates" !in Keys(b.event.extra)
    ensures Keys(BaseDocument(b)) == AttributeKeys + Keys(b.event.extra) + ["uuid", "time"]
      + (if b.dates.Some? then ["dates"] else [])
  {
    var all := Attributes(b.event);
    assert "uuid" !in Keys(all) && "time" !in Keys(all) && "dates" !in Keys(all) by {
      AttributeKeysFree();
    }
    AddStampsKeys(all, b.uuid, b.time, b.dates);
    assert BaseDocument(b) == AddStamps(all, b.uuid, b.time, b.dates);
  }

  /** Stamping a dict that holds none of the three keys appends them. */
  lemma AddStampsKeys(all: Dict, uuid: string, time: Value, dates: Option<seq<Value>>)
    requires "uuid" !in Keys(all) && "time" !in Keys(all) && "dates" !in Keys(all)
    ensures Keys(AddStamps(all, uuid, time, dates)) == Keys(all) + ["uuid", "time"]
      + (if dates.Some? then ["dates"] else [])
  {
    var d2 := AddUuidTime(all, uuid, time);
    AddUuidTimeKeys(all, uuid, time);
    assert "dates" !in Keys(d2) by { StampKeysDistinct(); }
    assert AddStamps(all, uuid, time, dates) == AddDates(d2, dates);
    if dates.Some? {
      PutKeys(d2, "dates", List(dates.value));
    }
  }

  lemma AddUuidTimeKeys(all: Dict, uuid: string, time: Value)
    requires "uuid" !in Keys(all) && "time" !in Keys(all)
    ensures Keys(AddUuidTime(all, uuid, time)) == Keys(all) + ["uuid", "time"]
  {
    var d1 := Put(all, "uuid", Str(uuid));
    PutKeys(all, "uuid", Str(uuid));
    assert "time" !in Keys(d1) by { StampKeysDistinct(); }
    PutKeys(d1, "time", time);
  }

  /** The two optional entries differ from the keys the document is
      known by. */
  lemma OptionalKeysDistinct()
    ensures "dates" != "exception"
    ensures "dates" != "name" && "dates" != "level" && "dates" != "msg" && "dates" != "uuid" && "dates" != "time"
    ensures "exception" != "name" && "exception" != "level" && "exception" != "msg"
    ensures "exception" != "uuid" && "exception" != "time"
  {
  }

  /** SimpleMongoLogHandler's `exception` entry: the traceback is split
      into lines. */
  function SimpleException(e: Event): Value {
    Object([
      Field("info", e.excInfo),
      Field("trace", if e.excText.Some? && e.excText.value != "" then List(Strs(Split(e.excText.value, '\n'))) else Null)])
  }

  const SimpleKeys: seq<string> := [
    "name", "thread", "process", "level", "msg", "path", "module", "line", "func", "filename",
    "uuid", "time"]

  /** The keys the Simple document is read back by occur once. */
  lemma SimpleKeysFree()
    ensures SimpleKeys[1] !in SimpleKeys[..1] && SimpleKeys[2] !in SimpleKeys[..2]
    ensures SimpleKeys[3] !in SimpleKeys[..3] && SimpleKeys[4] !in SimpleKeys[..4]
    ensures SimpleKeys[5] !in SimpleKeys[..5] && SimpleKeys[6] !in SimpleKeys[..6]
    ensures SimpleKeys[7] !in SimpleKeys[..7] && SimpleKeys[8] !in SimpleKeys[..8]
    ensures SimpleKeys[9] !in SimpleKeys[..9]
    ensures SimpleKeys[10] !in SimpleKeys[..10] && SimpleKeys[11] !in SimpleKeys[..11]
  {
  }

  /** Neither optional key is among the fixed keys of the Simple document. */
  lemma SimpleOptionalFree()
    ensures "dates" !in SimpleKeys && "exception" !in SimpleKeys
    ensures "exception" !in SimpleKeys + ["dates"]
  {
  }

  /** The twelve flat entries of SimpleMongoLogHandler's document. */
  function SimpleFields(e: Event, uuid: string, time: Value): (d: Dict)
    ensures Keys(d) == SimpleKeys
    ensures Find(d, "name") == Some(Str(e.name)) && Find(d, "level") == Some(Str(e.levelname))
    ensures Find(d, "msg") == Some(e.msg)
    ensures Find(d, "uuid") == Some(Str(uuid)) && Find(d, "time") == Some(time)
  {
    var d := Zip(SimpleKeys, SimpleValues(e, uuid, time));
    SimpleKeysFree();
    FindZip(SimpleKeys, SimpleValues(e, uuid, time), 0);
    FindZip(SimpleKeys, SimpleValues(e, uuid, time), 3);
    FindZip(SimpleKeys, SimpleValues(e, uuid, time), 4);
    FindZip(SimpleKeys, SimpleValues(e, uuid, time), 10);
    FindZip(SimpleKeys, SimpleValues(e, uuid, time), 11);
    SimpleKeysAt();
    d
  }

  /** The values of the twelve flat entries, key by key. */
  function SimpleValues(e: Event, uuid: string, time: Value): seq<Value> {
    [Str(e.name), Int(e.thread), Int(e.process), Str(e.levelname), e.msg, Str(e.pathname),
     Str(e.moduleName), Int(e.lineno), Str(e.funcName), Str(e.filename), Str(uuid), time]
  }

  /** The rest of the flat entries: thread, process and the source
      location each sit under their own key. */
  lemma SimpleFieldsValues(e: Event, uuid: string, time: Value)
    ensures var d := SimpleFields(e, uuid, time);
      && Find(d, "thread") == Some(Int(e.thread)) && Find(d, "process") == Some(Int(e.process))
      && Find(d, "path") == Some(Str(e.pathname)) && Find(d, "module") == Some(Str(e.moduleName))
      && Find(d, "line") == Some(Int(e.lineno)) && Find(d, "func") == Some(Str(e.funcName))
      && Find(d, "filename") == Some(Str(e.filename))
  {
    var vals := SimpleValues(e, uuid, time);
    assert SimpleFields(e, uuid, time) == Zip(SimpleKeys, vals);
    SimpleKeysFree();
    SimpleKeysAt();
    FindZip(SimpleKeys, vals, 1);
    FindZip(SimpleKeys, vals, 2);
    FindZip(SimpleKeys, vals, 5);
    FindZip(SimpleKeys, vals, 6);
    FindZip(SimpleKeys, vals, 7);
    FindZip(SimpleKeys, vals, 8);
    FindZip(SimpleKeys, vals, 9);
  }

  lemma SimpleKeysAt()
    ensures SimpleKeys[0] == "name" && SimpleKeys[1] == "thread" && SimpleKeys[2] == "process"
    ensures SimpleKeys[3] == "level" && SimpleKeys[4] == "msg" && SimpleKeys[5] == "path"
    ensures SimpleKeys[6] == "module" && SimpleKeys[7] == "line" && SimpleKeys[8] == "func"
    ensures SimpleKeys[9] == "filename"
    ensures SimpleKeys[10] == "uuid" && SimpleKeys[11] == "time"
  {
  }

  /** The flat entries followed by `dates`, copied only when present and
      truthy; no flat entry changes. */
  function SimpleDated(e: Event, uuid: string, time: Value, dates: Option<Value>): (d: Dict)
    ensures Find(d, "dates") == if dates.Some? && Truthy(dates.value) then Some(dates.value) else None
    ensures forall k :: k != "dates" ==> Find(d, k) == Find(SimpleFields(e, uuid, time), k)
  {
    var d0 := SimpleFields(e, uuid, time);
    var withDates := dates.Some? && Truthy(dates.value);
    assert "dates" !in Keys(d0) by { SimpleOptionalFree(); }
    WithOptional(d0, "dates", if withDates then dates.value else Null, withDates)
  }

  /** SimpleMongoLogHandler's document for a stamped record: `exception`
      is added only when there is exception info; no other entry changes. */
  function SimpleDocument(e: Event, uuid: string, time: Value, dates: Option<Value>): (d: Dict)
    ensures Find(d, "exception") == if Truthy(e.excInfo) then Some(SimpleException(e)) else None
    ensures forall k :: k != "exception" ==> Find(d, k) == Find(SimpleDated(e, uuid, time, dates), k)
  {
    var d1 := SimpleDated(e, uuid, time, dates);
    assert "exception" !in Keys(d1) by { SimpleDatedKeys(e, uuid, time, dates); SimpleOptionalFree(); }
    WithOptional(d1, "exception", SimpleException(e), Truthy(e.excInfo))
  }

  /** The Simple document holds the record's name, thread, process,
      level name, message and source location, flat. */
  lemma SimpleDocumentFields(e: Event, uuid: string, time: Value, dates: Option<Value>)
    ensures var d := SimpleDocument(e, uuid, time, dates);
      && Find(d, "name") == Some(Str(e.name)) && Find(d, "level") == Some(Str(e.levelname))
      && Find(d, "msg") == Some(e.msg)
      && Find(d, "thread") == Some(Int(e.thread)) && Find(d, "process") == Some(Int(e.process))
      && Find(d, "path") == Some(Str(e.pathname)) && Find(d, "module") == Some(Str(e.moduleName))
      && Find(d, "line") == Some(Int(e.lineno)) && Find(d, "func") == Some(Str(e.funcName))
      && Find(d, "filename") == Some(Str(e.filename))
  {
    SimpleFieldsValues(e, uuid, time);
    SimpleDocumentFlat(e, uuid, time, dates, "name");
    SimpleDocumentFlat(e, uuid, time, dates, "level");
    SimpleDocumentFlat(e, uuid, time, dates, "msg");
    SimpleDocumentFlat(e, uuid, time, dates, "thread");
    SimpleDocumentFlat(e, uuid, time, dates, "process");
    SimpleDocumentFlat(e, uuid, time, dates, "path");
    SimpleDocumentFlat(e, uuid, time, dates, "module");
    SimpleDocumentFlat(e, uuid, time, dates, "line");
    SimpleDocumentFlat(e, uuid, time, dates, "func");
    SimpleDocumentFlat(e, uuid, time, dates, "filename");
  }

  /** A flat key reads in the Simple document as in its flat entries. */
  lemma SimpleDocumentFlat(e: Event, uuid: string, time: Value, dates: Option<Value>, k: string)
    requires k != "dates" && k != "exception"
    ensures Find(SimpleDocument(e, uuid, time, dates), k) == Find(SimpleFields(e, uuid, time), k)
  {
    assert Find(SimpleDated(e, uuid, time, dates), k) == Find(SimpleFields(e, uuid, time), k);
  }

  /** The Simple document holds the record's fingerprint and time, and
      `dates` exactly when present and truthy. */
  lemma SimpleDocumentStamps(e: Event, uuid: string, time: Value, dates: Option<Value>)
    ensures var d := SimpleDocument(e, uuid, time, dates);
      && Find(d, "uuid") == Some(Str(uuid)) && Find(d, "time") == Some(time)
      && Find(d, "dates") == if dates.Some? && Truthy(dates.value) then Some(dates.value) else None
  {
    var d0 := SimpleFields(e, uuid, time);
    var d1 := SimpleDated(e, uuid, time, dates);
    OptionalKeysDistinct();
    assert Find(d1, "uuid") == Find(d0, "uuid") && Find(d1, "time") == Find(d0, "time");
  }

  lemma SimpleDatedKeys(e: Event, uuid: string, time: Value, dates: Option<Value>)
    ensures Keys(SimpleDated(e, uuid, time, dates)) == SimpleKeys + (if dates.Some? && Truthy(dates.value) then ["dates"] else [])
  {
    var d0 := SimpleFields(e, uuid, time);
    var withDates := dates.Some? && Truthy(dates.value);
    assert "dates" !in Keys(d0) by { SimpleOptionalFree(); }
    assert SimpleDated(e, uuid, time, dates) == WithOptional(d0, "dates", if withDates then dates.value else Null, withDates);
  }

  /** The Simple document's keys: the twelve flat ones, then `dates`, then
      `exception`, each optional one only when it is stored. */
  lemma SimpleDocumentKeys(e: Event, uuid: string, time: Value, dates: Option<Value>)
    ensures Keys(SimpleDocument(e, uuid, time, dates)) == SimpleKeys
      + (if dates.Some? && Truthy(dates.value) then ["dates"] else [])
      + (if Truthy(e.excInfo) then ["exception"] else [])
  {
    var d1 := SimpleDated(e, uuid, time, dates);
    SimpleDatedKeys(e, uuid, time, dates);
    assert "exception" !in Keys(d1) by { SimpleOptionalFree(); }
    assert SimpleDocument(e, uuid, time, dates) == WithOptional(d1, "exception", SimpleException(e), Truthy(e.excInfo));
  }

  /** SimpleMongoLogHandler.create_log_record: the sentinel passes through
      unchanged (a real fingerprint is never `'none'`). */
  function SimpleRecord(b: BaseRecord): (d: Dict)
    ensures b.Internal? ==> d == SentinelDoc()
    ensures b.Stamped? ==> d == SimpleDocument(b.event, b.uuid, b.time, RecordDates(b))
  {
    match b
    case Internal => SentinelDoc()
    case Stamped(e, uuid, time, _) => SimpleDocument(e, uuid, time, RecordDates(b))
  }

  /** VerboseMongoLogHandler's `exception` entry: the traceback text as is. */
  function VerboseException(e: Event): Value {
    Object([
      Field("info", e.excInfo),
      Field("trace", if e.excText.Some? then Str(e.excText.value) else Null)])
  }

  const VerboseKeys: seq<string> := ["name", "thread", "process", "level", "info", "uuid", "time"]

  lemma VerboseKeysFree()
    ensures VerboseKeys[1] !in VerboseKeys[..1] && VerboseKeys[2] !in VerboseKeys[..2]
    ensures VerboseKeys[3] !in VerboseKeys[..3] && VerboseKeys[4] !in VerboseKeys[..4]
    ensures VerboseKeys[5] !in VerboseKeys[..5] && VerboseKeys[6] !in VerboseKeys[..6]
  {
  }

  /** Neither optional key is among the fixed keys of the Verbose document. */
  lemma VerboseOptionalFree()
    ensures "exception" !in VerboseKeys && "dates" !in VerboseKeys + ["exception"]
  {
  }

  /** The nested document of VerboseMongoLogHandler. It never carries
      `dates`, even when the base record has them. */
  function VerboseDocument(e: Event, uuid: string, time: Value): (d: Dict)
    ensures Find(d, "uuid") == Some(Str(uuid)) && Find(d, "time") == Some(time)
    ensures Find(d, "level") == Some(Object([Field("name", Str(e.levelname)), Field("num", Int(e.levelno))]))
    ensures Find(d, "name") == Some(Str(e.name))
    ensures Find(d, "thread") == Some(Object([Field("num", Int(e.thread)), Field("name", Str(e.threadName))]))
    ensures Find(d, "process") == Some(Object([Field("num", Int(e.process)), Field("name", Str(e.processName))]))
    ensures Find(d, "info") == Some(Object([
      Field("msg", e.msg), Field("path", Str(e.pathname)), Field("module", Str(e.moduleName)),
      Field("line", Int(e.lineno)), Field("func", Str(e.funcName)), Field("filename", Str(e.filename))]))
    ensures Keys(d) == if Truthy(e.excInfo) then VerboseKeys + ["exception"] else VerboseKeys
    ensures Find(d, "exception") == if Truthy(e.excInfo) then
      Some(Object([Field("info", e.excInfo), Field("trace", if e.excText.Some? then Str(e.excText.value) else Null)]))
      else None
    ensures Find(d, "dates") == None
  {
    var vals := [
      Str(e.name),
      Object([Field("num", Int(e.thread)), Field("name", Str(e.threadName))]),
      Object([Field("num", Int(e.process)), Field("name", Str(e.processName))]),
      Object([Field("name", Str(e.levelname)), Field("num", Int(e.levelno))]),
      Object([
        Field("msg", e.msg), Field("path", Str(e.pathname)), Field("module", Str(e.moduleName)),
        Field("line", Int(e.lineno)), Field("func", Str(e.funcName)), Field("filename", Str(e.filename))]),
      Str(uuid),
      time];
    var d0 := Zip(VerboseKeys, vals);
    VerboseKeysFree();
    FindZip(VerboseKeys, vals, 0);
    FindZip(VerboseKeys, vals, 1);
    FindZip(VerboseKeys, vals, 2);
    FindZip(VerboseKeys, vals, 3);
    FindZip(VerboseKeys, vals, 4);
    FindZip(VerboseKeys, vals, 5);
    FindZip(VerboseKeys, vals, 6);
    OptionalKeysDistinct();
    assert "exception" !in Keys(d0) by { VerboseOptionalFree(); }
    var d := WithOptional(d0, "exception", VerboseException(e), Truthy(e.excInfo));
    assert "dates" !in Keys(d) by { VerboseOptionalFree(); }
    FindKeys(d, "dates");
    d
  }

  /** VerboseMongoLogHandler.create_log_record as written: there is no
      sentinel check, so reading `record['name']` from the sentinel raises
      `KeyError`. */
  function VerboseRecordAsWritten(b: BaseRecord): (r: Result<Dict, Fault>)
    ensures b.Internal? <==> r == Err(KeyError("name"))
  {
    match b
    case Internal => Err(KeyError("name"))
    case Stamped(e, uuid, time, _) => Ok(VerboseDocument(e, uuid, time))
  }

  /** VerboseMongoLogHandler.create_log_record with the sentinel passed
      through as SimpleMongoLogHandler does. */
  function VerboseRecord(b: BaseRecord): (d: Dict)
    ensures b.Internal? ==> d == SentinelDoc()
    ensures b.Stamped? ==> d == VerboseDocument(b.event, b.uuid, b.time)
  {
    match b
    case Internal => SentinelDoc()
    case Stamped(e, uuid, time, _) => VerboseDocument(e, uuid, time)
  }

  /** The two Verbose definitions differ only on the sentinel. */
  lemma VerboseAgreesOnStamped(b: BaseRecord)
    requires b.Stamped?
    ensures VerboseRecordAsWritten(b) == Ok(VerboseRecord(b))
  {
  }
}
