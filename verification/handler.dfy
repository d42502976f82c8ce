/** The handler classes themselves (handlers.py BaseMongoLogHandler,
    SimpleMongoLogHandler, VerboseMongoLogHandler): the checks the
    constructor makes, the document each class builds, and `emit`, which
    sends that document down the embedded or the reference write path.

    The driver connection is outside the model: a constructed handler is
    one whose configuration passed the checks, and the collections it
    writes to are the `Store` handed to `Emit`. */
module Handlers {
  import opened Outcomes
  import opened Values
  import opened Uuid
  import opened KeyRewrite
  import opened Records
  import opened MongoStore

  /** Which of the three handler classes is in use. */
  datatype Shape = BaseShape | SimpleShape | VerboseShape

  /** The constructor's keyword arguments. */
  datatype Options = Options(
    recordType: string,
    connection: Option<string>,
    w: int,
    j: bool,
    timeZone: string,
    maxKeep: int)

  /** A handler that was constructed. */
  datatype Handler = Handler(shape: Shape, driver: Driver, settings: Settings, maxKeep: int, w: int, j: bool)

  const ReferenceName: string := "reference"
  const EmbeddedName: string := "embedded"

  const BadRecordType: string := "record_type myst be one of ['reference', 'embedded']"

  /** `if self.connection:` */
  predicate HasConnection(o: Options) {
    o.connection.Some? && o.connection.value != ""
  }

  /** BaseMongoLogHandler.__init__: the record type is checked first, then
      the connection; a handler exists only when both are acceptable. */
  function Construct(shape: Shape, driver: Driver, o: Options): (r: Result<Handler, Fault>)
    ensures r.Ok? <==> (o.recordType == ReferenceName || o.recordType == EmbeddedName) && HasConnection(o)
    ensures o.recordType != ReferenceName && o.recordType != EmbeddedName ==> r == Err(ValueError(BadRecordType))
    ensures (o.recordType == ReferenceName || o.recordType == EmbeddedName) && !HasConnection(o) ==>
      r == Err(MissingConnectionError)
    ensures r.Ok? ==>
      && (r.value.settings.recordType == Reference <==> o.recordType == ReferenceName)
      && r.value.settings.timeZone == o.timeZone
      && r.value.maxKeep == o.maxKeep
      && r.value.shape == shape && r.value.driver == driver
  {
    if o.recordType != ReferenceName && o.recordType != EmbeddedName then Err(ValueError(BadRecordType))
    else if !HasConnection(o) then Err(MissingConnectionError)
    else
      var rt := if o.recordType == ReferenceName then Reference else Embedded;
      Ok(Handler(shape, driver, Settings(rt, o.timeZone), o.maxKeep, o.w, o.j))
  }

  /** The keyword arguments `connect_pymongo3` gives `MongoClient`: with
      `w == 0` the journal flag is left out, since an unacknowledged write
      cannot wait for the journal. */
  function Pymongo3Options(w: int, j: bool): (opts: Dict)
    ensures Find(opts, "serverSelectionTimeoutMS") == Some(Int(5))
    ensures Find(opts, "w") == Some(Int(w))
    ensures "j" in Keys(opts) <==> w != 0
    ensures w != 0 ==> Find(opts, "j") == Some(Bool(j))
  {
    var base := [Field("serverSelectionTimeoutMS", Int(5)), Field("w", Int(w))];
    FindAt(base, 1);
    if w == 0 then base
    else
      assert Keys(base) == ["serverSelectionTimeoutMS", "w"];
      WithField(base, "j", Bool(j))
  }

  /** The keyword arguments `MongoClient` is given. Under PyMongo 2
      (`connect_pymongo2`) there are none: the write concern settings stay
      on the handler and never reach the client. */
  function ClientOptions(h: Handler): (opts: Dict)
    ensures h.driver == PyMongo2 ==> opts == []
    ensures h.driver == PyMongo3 ==> Find(opts, "serverSelectionTimeoutMS") == Some(Int(5))
    ensures h.driver == PyMongo3 ==> Find(opts, "w") == Some(Int(h.w))
    ensures "j" in Keys(opts) <==> h.driver == PyMongo3 && h.w != 0
    ensures h.driver == PyMongo3 && h.w != 0 ==> Find(opts, "j") == Some(Bool(h.j))
  {
    match h.driver
    case PyMongo2 => []
    case PyMongo3 => Pymongo3Options(h.w, h.j)
  }

  /** `create_log_record` of the handler's class. The Verbose class is
      taken with the sentinel passed through (see `VerboseRecordAsWritten`
      for the class as written). */
  function Document(h: Handler, hasher: Hasher, clock: Clock, e: Event): (r: Result<Dict, Fault>)
    ensures r.Ok? <==> IsInternal(e) || CheckKeys(e.msg).Ok?
    ensures IsInternal(e) ==> r == Ok(SentinelDoc())
  {
    var b :- CreateBase(hasher, h.settings, clock, e);
    Ok(Shaped(h.shape, b))
  }

  /** The document each handler class builds from the Base record. */
  function Shaped(shape: Shape, b: BaseRecord): (d: Dict)
    ensures b.Internal? ==> d == SentinelDoc()
  {
    match shape
    case BaseShape => BaseDocument(b)
    case SimpleShape => SimpleRecord(b)
    case VerboseShape => VerboseRecord(b)
  }

  /** BaseMongoLogHandler.emit: build the document, then write it with the
      handler's record type. A record that cannot be built leaves the store
      as it was. */
  function Emit(h: Handler, hasher: Hasher, clock: Clock, st: Store, e: Event): (s: Step)
    ensures Document(h, hasher, clock, e).Err? ==> s == Step(st, Some(Document(h, hasher, clock, e).error))
    ensures h.settings.recordType == Embedded ==> s.store.ledger == st.ledger
    ensures Document(h, hasher, clock, e).Ok? && h.settings.recordType == Reference ==>
      var d := Document(h, hasher, clock, e).value;
      Find(d, "uuid").Some? && Find(d, "time").Some? && StorableDoc(d) ==>
        && s.fault.None?
        && s.store.docs == st.docs[Find(d, "uuid").value := d]
        && s.store.ledger == st.ledger + [Entry(Find(d, "uuid").value, Find(d, "time").value)]
    ensures Document(h, hasher, clock, e).Ok? && h.settings.recordType == Reference ==>
      var d := Document(h, hasher, clock, e).value;
      Find(d, "uuid").Some? && !StorableDoc(d) ==>
        s.fault == Some(InvalidDocument) && s.store.ledger == st.ledger
  {
    match Document(h, hasher, clock, e)
    case Err(f) => Step(st, Some(f))
    case Ok(d) =>
      if h.settings.recordType == Embedded then InsertEmbedded(st, d, h.maxKeep)
      else
        ReferenceEmit(st, d, h.driver)
  }

  /** The reference write of a built document, in terms of the lookups
      the record's stamps answer. */
  function ReferenceEmit(st: Store, d: Dict, driver: Driver): (s: Step)
    ensures Find(d, "uuid").Some? && Find(d, "time").Some? && StorableDoc(d) ==>
      && s.fault.None?
      && s.store.docs == st.docs[Find(d, "uuid").value := d]
      && s.store.ledger == st.ledger + [Entry(Find(d, "uuid").value, Find(d, "time").value)]
    ensures Find(d, "uuid").Some? && !StorableDoc(d) ==>
      s.fault == Some(InvalidDocument) && s.store.ledger == st.ledger
  {
    FindKeys(d, "uuid");
    FindKeys(d, "time");
    MongoStore.Reference(st, d, driver)
  }

  /** The handler builds a document for `e` and the driver accepts it. */
  predicate Accepted(h: Handler, hasher: Hasher, clock: Clock, e: Event) {
    Document(h, hasher, clock, e).Ok? && StorableDoc(Document(h, hasher, clock, e).value)
  }

  /** Emitting `es` one after another, event `i` at `clocks[i]`. */
  function ReplayEmits(h: Handler, hasher: Hasher, clocks: seq<Clock>, st: Store, es: seq<Event>): (s: Step)
    requires |clocks| == |es|
    ensures es == [] ==> s == Step(st, None)
    decreases |es|
  {
    if es == [] then Step(st, None)
    else
      var n := |es|;
      var prev := ReplayEmits(h, hasher, clocks[..n - 1], st, es[..n - 1]);
      Then(prev, Emit(h, hasher, clocks[n - 1], prev.store, es[n - 1]))
  }

  /** Every event of `es` carries message `msg` at level `level` and comes
      from an ordinary logger. */
  predicate Repeats(es: seq<Event>, msg: Value, level: string) {
    forall i :: 0 <= i < |es| ==> es[i].msg == msg && es[i].levelname == level && !IsInternal(es[i])
  }

  /** Every prefix of a run of repeats is a run of repeats. */
  lemma RepeatsPrefix(es: seq<Event>, msg: Value, level: string, m: nat)
    requires Repeats(es, msg, level) && m <= |es|
    ensures Repeats(es[..m], msg, level)
  {
    forall i | 0 <= i < m
      ensures es[..m][i].msg == msg && es[..m][i].levelname == level && !IsInternal(es[..m][i])
    {
      assert es[..m][i] == es[i];
    }
  }

  /** The times stamped on records built at `clocks`. */
  function Times(s: Settings, clocks: seq<Clock>): (ts: seq<Value>)
    ensures |ts| == |clocks|
    ensures forall i :: 0 <= i < |clocks| ==> ts[i] == Now(s, clocks[i])
  {
    seq(|clocks|, i requires 0 <= i < |clocks| => Now(s, clocks[i]))
  }

  /** The documents the handler builds for `es`. */
  function Built(h: Handler, hasher: Hasher, clocks: seq<Clock>, es: seq<Event>): (ds: seq<Dict>)
    requires |clocks| == |es|
    requires forall i :: 0 <= i < |es| ==> Document(h, hasher, clocks[i], es[i]).Ok?
    ensures |ds| == |es|
    ensures forall i :: 0 <= i < |es| ==> ds[i] == Document(h, hasher, clocks[i], es[i]).value
  {
    seq(|es|, i requires 0 <= i < |es| => Document(h, hasher, clocks[i], es[i]).value)
  }

  /** When every record can be built, emitting is writing the built
      documents in order. */
  lemma EmitsWriteBuilt(h: Handler, hasher: Hasher, clocks: seq<Clock>, st: Store, es: seq<Event>)
    requires |clocks| == |es|
    requires forall i :: 0 <= i < |es| ==> Document(h, hasher, clocks[i], es[i]).Ok?
    ensures h.settings.recordType == Embedded ==>
      ReplayEmits(h, hasher, clocks, st, es) == ReplayEmbedded(st, h.maxKeep, Built(h, hasher, clocks, es))
    ensures h.settings.recordType == Reference ==>
      ReplayEmits(h, hasher, clocks, st, es) == ReplayReference(st, h.driver, Built(h, hasher, clocks, es))
  {
    if h.settings.recordType == Embedded {
      EmitsWriteEmbedded(h, hasher, clocks, st, es);
    } else {
      EmitsWriteReference(h, hasher, clocks, st, es);
    }
  }

  lemma {:induction false} EmitsWriteEmbedded(h: Handler, hasher: Hasher, clocks: seq<Clock>, st: Store, es: seq<Event>)
    requires h.settings.recordType == Embedded
    requires |clocks| == |es|
    requires forall i :: 0 <= i < |es| ==> Document(h, hasher, clocks[i], es[i]).Ok?
    ensures ReplayEmits(h, hasher, clocks, st, es) == ReplayEmbedded(st, h.maxKeep, Built(h, hasher, clocks, es))
  {
    if es != [] {
      var n := |es|;
      var ds := Built(h, hasher, clocks, es);
      var ds' := Built(h, hasher, clocks[..n - 1], es[..n - 1]);
      assert ds' == ds[..n - 1];
      EmitsWriteEmbedded(h, hasher, clocks[..n - 1], st, es[..n - 1]);
    }
  }

  lemma {:induction false} EmitsWriteReference(h: Handler, hasher: Hasher, clocks: seq<Clock>, st: Store, es: seq<Event>)
    requires h.settings.recordType == Reference
    requires |clocks| == |es|
    requires forall i :: 0 <= i < |es| ==> Document(h, hasher, clocks[i], es[i]).Ok?
    ensures ReplayEmits(h, hasher, clocks, st, es) == ReplayReference(st, h.driver, Built(h, hasher, clocks, es))
  {
    if es != [] {
      var n := |es|;
      var ds := Built(h, hasher, clocks, es);
      var ds' := Built(h, hasher, clocks[..n - 1], es[..n - 1]);
      assert ds' == ds[..n - 1];
      EmitsWriteReference(h, hasher, clocks[..n - 1], st, es[..n - 1]);
    }
  }

  /** A repeat of the message is built, under its fingerprint, stamped
      with the time of its own clock. */
  lemma BuiltOne(h: Handler, hasher: Hasher, clock: Clock, e: Event, msg: Value, level: string)
    requires e.msg == msg && e.levelname == level && !IsInternal(e) && CheckKeys(msg).Ok?
    ensures Document(h, hasher, clock, e).Ok?
    ensures Find(Document(h, hasher, clock, e).value, "uuid") == Some(Str(Fingerprint(hasher, CheckKeys(msg).value, level)))
    ensures Find(Document(h, hasher, clock, e).value, "time") == Some(Now(h.settings, clock))
  {
    DocumentStamped(h, hasher, clock, e);
  }

  /** A record from an ordinary logger whose keys can be sanitized is
      built, under the fingerprint of its sanitized message and level, and
      stamped with the time of its clock. Under the embedded record type
      the Base and Simple classes add `dates` holding that one time; the
      Verbose class never has `dates`, and under the reference type no
      class has it unless the record carries an extra attribute of that
      name. */
  lemma DocumentStamped(h: Handler, hasher: Hasher, clock: Clock, e: Event)
    requires !IsInternal(e) && CheckKeys(e.msg).Ok?
    ensures Document(h, hasher, clock, e).Ok?
    ensures Find(Document(h, hasher, clock, e).value, "uuid") == Some(Str(Fingerprint(hasher, CheckKeys(e.msg).value, e.levelname)))
    ensures Find(Document(h, hasher, clock, e).value, "time") == Some(Now(h.settings, clock))
    ensures h.shape != VerboseShape && h.settings.recordType == Embedded ==>
      Find(Document(h, hasher, clock, e).value, "dates") == Some(List([Now(h.settings, clock)]))
    ensures h.shape == VerboseShape || (h.settings.recordType == Reference && "dates" !in Keys(e.extra)) ==>
      Find(Document(h, hasher, clock, e).value, "dates") == None
  {
    DocumentShaped(h, hasher, clock, e);
    var b := CreateBase(hasher, h.settings, clock, e).value;
    ShapedStamped(h.shape, b);
    DocumentDates(h, hasher, clock, e);
  }

  /** An ordinary record's document is its Base record in the handler's
      shape. */
  lemma DocumentShaped(h: Handler, hasher: Hasher, clock: Clock, e: Event)
    requires !IsInternal(e) && CheckKeys(e.msg).Ok?
    ensures CreateBase(hasher, h.settings, clock, e).Ok?
    ensures Document(h, hasher, clock, e) == Ok(Shaped(h.shape, CreateBase(hasher, h.settings, clock, e).value))
  {
  }

  /** Where the document's `dates` comes from, per class and record type. */
  lemma DocumentDates(h: Handler, hasher: Hasher, clock: Clock, e: Event)
    requires !IsInternal(e) && CheckKeys(e.msg).Ok?
    ensures h.shape != VerboseShape && h.settings.recordType == Embedded ==>
      Find(Document(h, hasher, clock, e).value, "dates") == Some(List([Now(h.settings, clock)]))
    ensures h.shape == VerboseShape || (h.settings.recordType == Reference && "dates" !in Keys(e.extra)) ==>
      Find(Document(h, hasher, clock, e).value, "dates") == None
  {
    DocumentShaped(h, hasher, clock, e);
    var b := CreateBase(hasher, h.settings, clock, e).value;
    FindKeys(e.extra, "dates");
    assert b.event.extra == e.extra;
    ShapedStamped(h.shape, b);
    if h.settings.recordType == Embedded {
      assert b.dates == Some([Now(h.settings, clock)]);
      assert RecordDates(b) == Some(List([Now(h.settings, clock)]));
    }
  }

  /** The stamps of the Base record, as each class stores them. */
  lemma ShapedStamped(shape: Shape, b: BaseRecord)
    requires b.Stamped?
    ensures Find(Shaped(shape, b), "uuid") == Some(Str(b.uuid))
    ensures Find(Shaped(shape, b), "time") == Some(b.time)
    ensures shape == BaseShape ==> Find(Shaped(shape, b), "dates") == RecordDates(b)
    ensures shape == SimpleShape ==>
      Find(Shaped(shape, b), "dates") == if RecordDates(b).Some? && Truthy(RecordDates(b).value) then RecordDates(b) else None
    ensures shape == VerboseShape ==> Find(Shaped(shape, b), "dates") == None
  {
    if shape == SimpleShape {
      SimpleDocumentStamps(b.event, b.uuid, b.time, RecordDates(b));
    }
  }

  /** Every document a handler builds carries a `uuid` and a `time`, so
      the reference write path always finds both. */
  lemma DocumentKeyed(h: Handler, hasher: Hasher, clock: Clock, e: Event)
    requires Document(h, hasher, clock, e).Ok?
    ensures Find(Document(h, hasher, clock, e).value, "uuid").Some?
    ensures Find(Document(h, hasher, clock, e).value, "time").Some?
  {
    if !IsInternal(e) {
      DocumentStamped(h, hasher, clock, e);
    }
  }

  /** The documents built for repeats of one message all sit under its
      fingerprint, stamped with their own times. */
  lemma BuiltStamps(h: Handler, hasher: Hasher, clocks: seq<Clock>, es: seq<Event>, msg: Value, level: string)
    requires |clocks| == |es| && Repeats(es, msg, level) && CheckKeys(msg).Ok?
    ensures forall i :: 0 <= i < |es| ==> Document(h, hasher, clocks[i], es[i]).Ok?
    ensures Stamps(Built(h, hasher, clocks, es), Str(Fingerprint(hasher, CheckKeys(msg).value, level)), Times(h.settings, clocks))
  {
    forall i | 0 <= i < |es|
      ensures Document(h, hasher, clocks[i], es[i]).Ok?
    {
      BuiltOne(h, hasher, clocks[i], es[i], msg, level);
    }
    var u := Str(Fingerprint(hasher, CheckKeys(msg).value, level));
    var recs := Built(h, hasher, clocks, es);
    var ts := Times(h.settings, clocks);
    forall i | 0 <= i < |recs|
      ensures Find(recs[i], "uuid") == Some(u) && Find(recs[i], "time") == Some(ts[i])
    {
      BuiltOne(h, hasher, clocks[i], es[i], msg, level);
    }
    StampsEach(recs, u, ts);
  }

  /** Emitting one message `N` times through a Base or Simple handler with
      the embedded record type leaves one document under its fingerprint:
      created at the first time, `counter == N`, and `dates` the last
      `maxKeep` times, oldest first. No other document and no ledger entry
      changes. */
  lemma EmbeddedEmitsCollapse(
    h: Handler, hasher: Hasher, clocks: seq<Clock>, st: Store, es: seq<Event>, msg: Value, level: string)
    requires h.settings.recordType == Embedded && h.shape != VerboseShape && h.maxKeep >= 1
    requires |es| >= 1 && |clocks| == |es|
    requires Repeats(es, msg, level) && CheckKeys(msg).Ok?
    requires Accepted(h, hasher, clocks[0], es[0])
    requires Str(Fingerprint(hasher, CheckKeys(msg).value, level)) !in st.docs
    ensures var s := ReplayEmits(h, hasher, clocks, st, es);
      var u := Str(Fingerprint(hasher, CheckKeys(msg).value, level));
      var ts := Times(h.settings, clocks);
      && s.fault.None?
      && u in s.store.docs
      && Find(s.store.docs[u], "counter") == Some(Int(|es|))
      && Find(s.store.docs[u], "created") == Some(ts[0])
      && Find(s.store.docs[u], "dates") == Some(List(Last(ts, h.maxKeep)))
      && s.store.docs - {u} == st.docs - {u}
      && s.store.ledger == st.ledger
  {
    var u := Str(Fingerprint(hasher, CheckKeys(msg).value, level));
    var ts := Times(h.settings, clocks);
    BuiltStamps(h, hasher, clocks, es, msg, level);
    var recs := Built(h, hasher, clocks, es);
    assert ReplayEmits(h, hasher, clocks, st, es) == ReplayEmbedded(st, h.maxKeep, recs) by {
      EmitsWriteBuilt(h, hasher, clocks, st, es);
    }
    assert StorableDoc(recs[0]);
    assert Find(recs[0], "dates") == Some(List([ts[0]])) by {
      DocumentStamped(h, hasher, clocks[0], es[0]);
    }
    EmbeddedKeepsLastTimes(st, recs, u, ts, h.maxKeep);
  }

  /** The Verbose class does not copy `dates` into its document, so the
      first occurrence's time lives only in `created`: after `N` emits the
      array holds the last `maxKeep` of the other `N - 1` times, and is
      missing altogether after the first. */
  lemma VerboseEmbeddedEmits(
    h: Handler, hasher: Hasher, clocks: seq<Clock>, st: Store, es: seq<Event>, msg: Value, level: string)
    requires h.settings.recordType == Embedded && h.shape == VerboseShape && h.maxKeep >= 1
    requires |es| >= 1 && |clocks| == |es|
    requires Repeats(es, msg, level) && CheckKeys(msg).Ok?
    requires Accepted(h, hasher, clocks[0], es[0])
    requires Str(Fingerprint(hasher, CheckKeys(msg).value, level)) !in st.docs
    ensures var s := ReplayEmits(h, hasher, clocks, st, es);
      var u := Str(Fingerprint(hasher, CheckKeys(msg).value, level));
      var ts := Times(h.settings, clocks);
      && s.fault.None?
      && u in s.store.docs
      && Find(s.store.docs[u], "counter") == Some(Int(|es|))
      && Find(s.store.docs[u], "created") == Some(ts[0])
      && (|es| == 1 ==> Find(s.store.docs[u], "dates") == None)
      && (|es| > 1 ==> Find(s.store.docs[u], "dates") == Some(List(Last(ts[1..], h.maxKeep))))
  {
    var u := Str(Fingerprint(hasher, CheckKeys(msg).value, level));
    var ts := Times(h.settings, clocks);
    BuiltStamps(h, hasher, clocks, es, msg, level);
    var recs := Built(h, hasher, clocks, es);
    assert ReplayEmits(h, hasher, clocks, st, es) == ReplayEmbedded(st, h.maxKeep, recs) by {
      EmitsWriteBuilt(h, hasher, clocks, st, es);
    }
    assert StorableDoc(recs[0]);
    assert Find(recs[0], "dates") == InitDates(None) by {
      DocumentStamped(h, hasher, clocks[0], es[0]);
    }
    EmbeddedHistory(st, recs, u, ts, None, h.maxKeep);
  }

  /** Emitting one message `N` times with the reference record type leaves
      exactly the latest document under its fingerprint and appends `N`
      ledger entries, one per emit, in order. */
  lemma ReferenceEmitsLedger(
    h: Handler, hasher: Hasher, clocks: seq<Clock>, st: Store, es: seq<Event>, msg: Value, level: string)
    requires h.settings.recordType == Reference
    requires |es| >= 1 && |clocks| == |es|
    requires Repeats(es, msg, level) && CheckKeys(msg).Ok?
    requires forall i :: 0 <= i < |es| ==> Accepted(h, hasher, clocks[i], es[i])
    ensures var s := ReplayEmits(h, hasher, clocks, st, es);
      var u := Str(Fingerprint(hasher, CheckKeys(msg).value, level));
      && s.fault.None?
      && s.store.docs == st.docs[u := Document(h, hasher, clocks[|es| - 1], es[|es| - 1]).value]
      && s.store.ledger == st.ledger + Entries(u, Times(h.settings, clocks))
  {
    var u := Str(Fingerprint(hasher, CheckKeys(msg).value, level));
    var ts := Times(h.settings, clocks);
    BuiltStamps(h, hasher, clocks, es, msg, level);
    var recs := Built(h, hasher, clocks, es);
    var s := ReplayEmits(h, hasher, clocks, st, es);
    assert s == ReplayReference(st, h.driver, recs) by {
      EmitsWriteBuilt(h, hasher, clocks, st, es);
    }
    assert forall i :: 0 <= i < |recs| ==> StorableDoc(recs[i]);
    assert s.fault.None? && s.store.docs == st.docs[u := recs[|recs| - 1]] && s.store.ledger == st.ledger + Entries(u, ts) by {
      ReferenceHistory(st, recs, u, ts, h.driver);
    }
  }

  /** Records from the package's own commands are never hashed: every
      handler class stores the fixed sentinel under uuid `'none'`. */
  lemma InternalEmitsSentinel(h: Handler, hasher: Hasher, clock: Clock, st: Store, e: Event)
    requires IsInternal(e)
    ensures Document(h, hasher, clock, e) == Ok(SentinelDoc())
    ensures h.settings.recordType == Reference ==>
      Emit(h, hasher, clock, st, e) == Step(Store(st.docs[Str("none") := SentinelDoc()], st.ledger + [Entry(Str("none"), Str("none"))]), None)
  {
    if h.settings.recordType == Reference {
      ReferenceStep(st, SentinelDoc(), Str("none"), Str("none"), h.driver);
    }
  }

  // ---------------------------------------------------------------------
  // Messages the driver refuses

  /** A sanitised message the driver refuses makes the whole document
      refused, before and after `time` is renamed to `created`. */
  lemma RefusedMessage(h: Handler, hasher: Hasher, clock: Clock, e: Event)
    requires !IsInternal(e) && CheckKeys(e.msg).Ok? && !Storable(CheckKeys(e.msg).value)
    ensures Document(h, hasher, clock, e).Ok?
    ensures !StorableDoc(Document(h, hasher, clock, e).value)
    ensures !StorableDoc(FirstSighting(Document(h, hasher, clock, e).value, Now(h.settings, clock)))
  {
    var d := Document(h, hasher, clock, e).value;
    var k := if h.shape == VerboseShape then "info" else "msg";
    DocumentHoldsMessage(h, hasher, clock, e);
    RefusedWhereHeld(d, k, Now(h.settings, clock));
  }

  /** The sanitised message is stored under `msg`, or under `info.msg`
      by the Verbose class; when the driver refuses it, it refuses the
      entry that holds it. */
  lemma DocumentHoldsMessage(h: Handler, hasher: Hasher, clock: Clock, e: Event)
    requires !IsInternal(e) && CheckKeys(e.msg).Ok? && !Storable(CheckKeys(e.msg).value)
    ensures Document(h, hasher, clock, e).Ok?
    ensures var k := if h.shape == VerboseShape then "info" else "msg";
      && Find(Document(h, hasher, clock, e).value, k).Some?
      && !Storable(Find(Document(h, hasher, clock, e).value, k).value)
  {
    var b := CreateBase(hasher, h.settings, clock, e).value;
    assert Document(h, hasher, clock, e).value == Shaped(h.shape, b);
    ShapedHoldsMessage(h.shape, b);
  }

  lemma ShapedHoldsMessage(shape: Shape, b: BaseRecord)
    requires b.Stamped? && !Storable(b.event.msg)
    ensures var k := if shape == VerboseShape then "info" else "msg";
      && Find(Shaped(shape, b), k).Some?
      && !Storable(Find(Shaped(shape, b), k).value)
  {
    match shape
    case BaseShape =>
    case SimpleShape =>
      SimpleDocumentFields(b.event, b.uuid, b.time, RecordDates(b));
    case VerboseShape =>
      var info := Find(Shaped(shape, b), "info").value;
      assert info.Object? && info.fields[0] == Field("msg", b.event.msg);
  }

  /** Emitting a message whose sanitised form the driver refuses raises
      `InvalidDocument`. Under the embedded record type nothing is stored
      and the next emit tries the insert again; under the reference record
      type no ledger entry is written, PyMongo 3 keeps the old document and
      PyMongo 2 has already removed it. */
  lemma EmitRefused(h: Handler, hasher: Hasher, clock: Clock, st: Store, e: Event)
    requires !IsInternal(e) && CheckKeys(e.msg).Ok? && !Storable(CheckKeys(e.msg).value)
    ensures var u := Str(Fingerprint(hasher, CheckKeys(e.msg).value, e.levelname));
      h.settings.recordType == Embedded && u !in st.docs ==>
        Emit(h, hasher, clock, st, e) == Step(st, Some(InvalidDocument))
    ensures h.settings.recordType == Reference ==>
      Emit(h, hasher, clock, st, e).fault == Some(InvalidDocument)
      && Emit(h, hasher, clock, st, e).store.ledger == st.ledger
    ensures h.settings.recordType == Reference && h.driver == PyMongo3 ==>
      Emit(h, hasher, clock, st, e).store == st
    ensures var u := Str(Fingerprint(hasher, CheckKeys(e.msg).value, e.levelname));
      h.settings.recordType == Reference && h.driver == PyMongo2 ==>
        Emit(h, hasher, clock, st, e).store.docs == st.docs - {u}
  {
    RefusedMessage(h, hasher, clock, e);
    DocumentStamped(h, hasher, clock, e);
    var d := Document(h, hasher, clock, e).value;
    var u := Str(Fingerprint(hasher, CheckKeys(e.msg).value, e.levelname));
    assert Find(d, "uuid") == Some(u);
    if h.settings.recordType == Embedded {
      assert Emit(h, hasher, clock, st, e) == InsertEmbedded(st, d, h.maxKeep);
      FindKeys(d, "uuid");
      FindKeys(d, "time");
    } else {
      assert Emit(h, hasher, clock, st, e) == ReferenceEmit(st, d, h.driver);
      ReferenceRefused(st, d, u, h.driver);
    }
  }

  /** The reference write of a document the driver refuses. */
  lemma ReferenceRefused(st: Store, d: Dict, u: Value, driver: Driver)
    requires Find(d, "uuid") == Some(u) && !StorableDoc(d)
    ensures ReferenceEmit(st, d, driver).fault == Some(InvalidDocument)
    ensures ReferenceEmit(st, d, driver).store.ledger == st.ledger
    ensures driver == PyMongo3 ==> ReferenceEmit(st, d, driver).store == st
    ensures driver == PyMongo2 ==> ReferenceEmit(st, d, driver).store.docs == st.docs - {u}
  {
    FindKeys(d, "uuid");
    ReferenceDriversAgree(st, d);
  }

  /** Repeats of a message the driver refuses, under the embedded record
      type: every emit raises `InvalidDocument` and the store never
      changes. */
  lemma {:induction false} EmbeddedEmitsRefused(
    h: Handler, hasher: Hasher, clocks: seq<Clock>, st: Store, es: seq<Event>, msg: Value, level: string)
    requires h.settings.recordType == Embedded
    requires |es| >= 1 && |clocks| == |es|
    requires Repeats(es, msg, level) && CheckKeys(msg).Ok? && !Storable(CheckKeys(msg).value)
    requires Str(Fingerprint(hasher, CheckKeys(msg).value, level)) !in st.docs
    ensures ReplayEmits(h, hasher, clocks, st, es) == Step(st, Some(InvalidDocument))
    decreases |es|
  {
    var n := |es|;
    assert es[n - 1].msg == msg && es[n - 1].levelname == level && !IsInternal(es[n - 1]);
    var prev := ReplayEmits(h, hasher, clocks[..n - 1], st, es[..n - 1]);
    if n == 1 {
      assert prev == Step(st, None);
    } else {
      RepeatsPrefix(es, msg, level, n - 1);
      EmbeddedEmitsRefused(h, hasher, clocks[..n - 1], st, es[..n - 1], msg, level);
    }
    EmitRefused(h, hasher, clocks[n - 1], st, es[n - 1]);
  }

  /** `check_keys` keeps the `$` of a key that also holds a `.`, so the
      sanitised message `{'$a.b': 1}` is still refused. */
  lemma SanitizedStillRefused()
    ensures CheckKeys(Object([Field("$a.b", Int(1))])).Ok?
    ensures !Storable(CheckKeys(Object([Field("$a.b", Int(1))])).value)
  {
    DollarDotKeepsDollar();
    var k := ['$', 'a', FullWidthStop, 'b'];
    assert !ValidKey(k);
  }

  /** `check_keys` looks at names only: an integer beyond 64 bits passes
      it and the driver then refuses the record. */
  lemma OverflowStillRefused()
    ensures CheckKeys(Object([Field("n", Int(0x1_0000_0000_0000_0000))])) == Ok(Object([Field("n", Int(0x1_0000_0000_0000_0000))]))
    ensures !Storable(CheckKeys(Object([Field("n", Int(0x1_0000_0000_0000_0000))])).value)
  {
    PlainEntryKept("n", Int(0x1_0000_0000_0000_0000));
    assert !StorableDoc([Field("n", Int(0x1_0000_0000_0000_0000))]);
  }

  /** A key holding NUL passes `check_keys` unchanged and the driver then
      refuses the record. */
  lemma NulKeyStillRefused()
    ensures CheckKeys(Object([Field(['a', '\0', 'b'], Int(1))])) == Ok(Object([Field(['a', '\0', 'b'], Int(1))]))
    ensures !Storable(CheckKeys(Object([Field(['a', '\0', 'b'], Int(1))])).value)
  {
    var k := ['a', '\0', 'b'];
    assert k[1] == '\0' && '.' !in k && '$' !in k;
    PlainEntryKept(k, Int(1));
    assert !ValidKey(k);
  }
}
