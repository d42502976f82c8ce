/** The two MongoDB collections a handler writes to (handlers.py
    `insert_embedded`, `reference_log_pymongo_2`, `reference_log_pymongo_3`):
    `mongolog`, one document per fingerprint, and `timestamp`, an
    append-only ledger of (uuid, ts) pairs.

    `mongolog` carries a unique index on `uuid` (handlers.py:276), so it is
    a map from fingerprint to document. Every transition returns the store
    it leaves behind together with the exception it raised, if any: a
    reference write that fails after replacing the document keeps the
    replacement. */
module MongoStore {
  import opened Outcomes
  import opened Values

  /** One `timestamp` document: `{'uuid': ..., 'ts': ...}`. */
  datatype Entry = Entry(uuid: Value, ts: Value)

  datatype Store = Store(docs: map<Value, Dict>, ledger: seq<Entry>)

  /** The store after an operation, and what it raised. */
  datatype Step = Step(store: Store, fault: Option<Fault>)

  /** The PyMongo major version the handler was loaded with. */
  datatype Driver = PyMongo2 | PyMongo3

  /** Every stored document sits under its own `uuid`. */
  predicate Keyed(st: Store) {
    forall u :: u in st.docs ==> Find(st.docs[u], "uuid") == Some(u)
  }

  // ---------------------------------------------------------------------
  // Which documents the driver and the server accept

  /** A field name the BSON encoder writes: it neither starts with `$`
      nor holds a `.`, and holds no NUL (BSON names are C strings). */
  predicate ValidKey(k: string) {
    !(|k| > 0 && k[0] == '$') && '.' !in k && '\0' !in k
  }

  /** The BSON integer range: signed 64 bits. */
  predicate FitsInt64(i: int) {
    -0x8000_0000_0000_0000 <= i < 0x8000_0000_0000_0000
  }

  /** A value the driver encodes: every field name, at any depth and
      inside arrays, is valid, and every integer fits in 64 bits. The
      driver checks this before sending, and raises otherwise. */
  predicate Storable(v: Value)
    decreases v, 1
  {
    match v
    case Int(i) => FitsInt64(i)
    case List(items) => StorableItems(items)
    case Object(fields) => StorableDoc(fields)
    case _ => true
  }

  predicate StorableItems(items: seq<Value>)
    decreases items, 0
  {
    items == [] || (Storable(items[0]) && StorableItems(items[1..]))
  }

  /** A document the driver accepts. */
  predicate StorableDoc(d: Dict)
    decreases d, 0
  {
    d == [] || (ValidKey(d[0].key) && Storable(d[0].val) && StorableDoc(d[1..]))
  }

  lemma {:induction false} FindStorable(d: Dict, k: string)
    requires StorableDoc(d) && Find(d, k).Some?
    ensures Storable(Find(d, k).value)
  {
    if d[0].key != k {
      FindStorable(d[1..], k);
    }
  }

  /** A document holding a refused value anywhere is refused. */
  lemma FindUnstorable(d: Dict, k: string)
    requires Find(d, k).Some? && !Storable(Find(d, k).value)
    ensures !StorableDoc(d)
  {
    if StorableDoc(d) {
      FindStorable(d, k);
    }
  }

  lemma {:induction false} PopStorable(d: Dict, k: string)
    requires StorableDoc(d)
    ensures StorableDoc(Pop(d, k))
  {
    if d != [] {
      PopStorable(d[1..], k);
      if d[0].key != k {
        assert Pop(d, k) == [d[0]] + Pop(d[1..], k);
        assert ([d[0]] + Pop(d[1..], k))[1..] == Pop(d[1..], k);
      }
    }
  }

  lemma {:induction false} PutStorable(d: Dict, k: string, v: Value)
    requires StorableDoc(d) && ValidKey(k) && Storable(v)
    ensures StorableDoc(Put(d, k, v))
  {
    if d == [] {
      assert Put(d, k, v)[1..] == [];
    } else if d[0].key == k {
      assert ([Field(k, v)] + d[1..])[1..] == d[1..];
    } else {
      PutStorable(d[1..], k, v);
      assert Put(d, k, v) == [d[0]] + Put(d[1..], k, v);
      assert ([d[0]] + Put(d[1..], k, v))[1..] == Put(d[1..], k, v);
    }
  }

  // ---------------------------------------------------------------------
  // The update operators `insert_embedded` sends

  /** The last `k` items of `xs` (all of them when there are fewer). */
  function Last(xs: seq<Value>, k: nat): (r: seq<Value>)
    ensures |r| == if k < |xs| then k else |xs|
    ensures xs[..|xs| - |r|] + r == xs
  {
    if k < |xs| then xs[|xs| - k..] else xs
  }

  /** MongoDB's `$slice: n` modifier of `$push`: zero empties the array, a
      negative `n` keeps the last `-n` items, a positive one the first `n`. */
  function Slice(xs: seq<Value>, n: int): (r: seq<Value>)
    ensures n == 0 ==> r == []
    ensures n < 0 ==> r == Last(xs, -n)
    ensures n > 0 ==> r == xs[..if n < |xs| then n else |xs|]
  {
    if n == 0 then []
    else if n < 0 then Last(xs, -n)
    else if n < |xs| then xs[..n]
    else xs
  }

  /** Capping twice is capping once: keeping the last `k` of the old items
      and then the last `k` after appending more is the same as keeping the
      last `k` of everything. */
  lemma {:induction false} LastAppend(a: seq<Value>, b: seq<Value>, k: nat)
    ensures Last(Last(a, k) + b, k) == Last(a + b, k)
  {
    var l := Last(a, k);
    if k < |a| {
      assert l == a[|a| - k..];
      if k < |l + b| {
        assert (l + b)[|l + b| - k..] == (a + b)[|a + b| - k..];
      }
    }
  }

  /** `{'$push': {'dates': {'$each': [t], '$slice': n}}}` applied to the
      current value of `dates`: a missing field becomes a new array, an
      array grows and is cut, anything else is a write error. */
  function PushSlice(current: Option<Value>, t: Value, n: int): (r: Result<Value, Fault>)
    ensures current.None? ==> r == Ok(List(Slice([t], n)))
    ensures current.Some? && current.value.List? ==> r == Ok(List(Slice(current.value.items + [t], n)))
    ensures r.Err? <==> current.Some? && !current.value.List?
  {
    match current
    case None => Ok(List(Slice([t], n)))
    case Some(List(xs)) => Ok(List(Slice(xs + [t], n)))
    case Some(_) => Err(WriteError("$push"))
  }

  /** `{'$inc': {'counter': 1}}` on the current value of `counter`: a missing
      field starts at one, an integer goes up by one, anything else is a
      write error. */
  function Inc(current: Option<Value>): (r: Result<Value, Fault>)
    ensures r.Ok? <==> current.None? || current.value.Int?
    ensures r.Ok? ==> r.value.Int? && r.value.i == (if current.None? then 1 else current.value.i + 1)
  {
    match current
    case None => Ok(Int(1))
    case Some(Int(i)) => Ok(Int(i + 1))
    case Some(_) => Err(WriteError("$inc"))
  }

  // ---------------------------------------------------------------------
  // insert_embedded

  /** A first sighting: `time` is renamed to `created` and the counter
      starts at one. */
  function FirstSighting(rec: Dict, t: Value): (d: Dict)
    ensures "time" !in Keys(d)
    ensures Find(d, "created") == Some(t)
    ensures Find(d, "counter") == Some(Int(1))
    ensures forall k :: k != "time" && k != "created" && k != "counter" ==> Find(d, k) == Find(rec, k)
  {
    var popped := Pop(rec, "time");
    var created := Put(popped, "created", t);
    assert "time" !in Keys(created) by { PutKeys(popped, "created", t); }
    var d := Put(created, "counter", Int(1));
    assert "time" !in Keys(d) && "created" != "counter" by { PutKeys(created, "counter", Int(1)); }
    d
  }

  /** A record the driver accepts is still accepted once `time` is renamed
      and the counter added. */
  lemma FirstSightingStorable(rec: Dict, t: Value)
    requires StorableDoc(rec) && Find(rec, "time") == Some(t)
    ensures StorableDoc(FirstSighting(rec, t))
  {
    FindStorable(rec, "time");
    var popped := Pop(rec, "time");
    PopStorable(rec, "time");
    assert ValidKey("created") && ValidKey("counter");
    PutStorable(popped, "created", t);
    PutStorable(Put(popped, "created", t), "counter", Int(1));
  }

  /** A refused value under any key but the three a first sighting
      rewrites stays in the document the insert sends. */
  lemma RefusedWhereHeld(rec: Dict, k: string, t: Value)
    requires Find(rec, k).Some? && !Storable(Find(rec, k).value)
    requires k != "time" && k != "created" && k != "counter"
    ensures !StorableDoc(rec) && !StorableDoc(FirstSighting(rec, t))
  {
    FindUnstorable(rec, k);
    FindUnstorable(FirstSighting(rec, t), k);
  }

  /** A repeat sighting: the one update document both operators belong to.
      It applies as a whole or not at all. */
  function Resighting(doc: Dict, t: Value, maxKeep: int): (r: Result<Dict, Fault>)
    ensures r.Ok? <==> PushSlice(Find(doc, "dates"), t, -maxKeep).Ok? && Inc(Find(doc, "counter")).Ok?
    ensures r.Ok? ==> Find(r.value, "dates") == Some(PushSlice(Find(doc, "dates"), t, -maxKeep).value)
    ensures r.Ok? ==> Find(r.value, "counter") == Some(Inc(Find(doc, "counter")).value)
    ensures r.Ok? ==> forall k :: k != "dates" && k != "counter" ==> Find(r.value, k) == Find(doc, k)
  {
    var dates :- PushSlice(Find(doc, "dates"), t, -maxKeep);
    var counter :- Inc(Find(doc, "counter"));
    Ok(Put(Put(doc, "dates", dates), "counter", counter))
  }

  /** BaseMongoLogHandler.insert_embedded: look the fingerprint up; insert
      a new document the first time, otherwise push the time onto `dates`
      (keeping the last `maxKeep`) and bump `counter`. The ledger is never
      touched. The insert sends the whole record, so the driver refuses a
      record with an invalid field name; the update sends only the time. */
  function InsertEmbedded(st: Store, rec: Dict, maxKeep: int): (s: Step)
    ensures s.store.ledger == st.ledger
    ensures "uuid" !in Keys(rec) ==> s == Step(st, Some(KeyError("uuid")))
    ensures "uuid" in Keys(rec) && "time" !in Keys(rec) ==> s == Step(st, Some(KeyError("time")))
    ensures s.fault.None? <==>
      && "uuid" in Keys(rec) && "time" in Keys(rec)
      && (Get(rec, "uuid").value !in st.docs ==> StorableDoc(FirstSighting(rec, Get(rec, "time").value)))
      && (Get(rec, "uuid").value in st.docs ==>
            Resighting(st.docs[Get(rec, "uuid").value], Get(rec, "time").value, maxKeep).Ok?)
    ensures s.fault == Some(InvalidDocument) <==>
      && "uuid" in Keys(rec) && "time" in Keys(rec)
      && Get(rec, "uuid").value !in st.docs
      && !StorableDoc(FirstSighting(rec, Get(rec, "time").value))
    ensures s.fault.Some? ==> s.store == st
  {
    match Get(rec, "uuid")
    case Err(f) => Step(st, Some(f))
    case Ok(u) =>
      match Get(rec, "time")
      case Err(f) => Step(st, Some(f))
      case Ok(t) =>
        if u !in st.docs then
          var d := FirstSighting(rec, t);
          if StorableDoc(d) then Step(st.(docs := st.docs[u := d]), None)
          else Step(st, Some(InvalidDocument))
        else
          match Resighting(st.docs[u], t, maxKeep)
          case Err(f) => Step(st, Some(f))
          case Ok(d) => Step(st.(docs := st.docs[u := d]), None)
  }

  // ---------------------------------------------------------------------
  // The reference record type

  /** reference_log_pymongo_3: `find_one_and_replace(..., upsert=True)`
      puts the record in place of (or next to) the old one, then the ledger
      gains `{'uuid', 'ts'}`. The server refuses a replacement with an
      invalid field name and nothing changes. Reading `time` for the ledger
      comes after the replacement, so a record without it is stored all the
      same. */
  function ReferencePy3(st: Store, rec: Dict): (s: Step)
    ensures "uuid" !in Keys(rec) ==> s == Step(st, Some(KeyError("uuid")))
    ensures "uuid" in Keys(rec) && !StorableDoc(rec) ==> s == Step(st, Some(InvalidDocument))
    ensures "uuid" in Keys(rec) && StorableDoc(rec) ==> s.store.docs == st.docs[Get(rec, "uuid").value := rec]
    ensures "uuid" in Keys(rec) && StorableDoc(rec) && "time" !in Keys(rec) ==>
      s.fault == Some(KeyError("time")) && s.store.ledger == st.ledger
    ensures s.fault.None? <==> "uuid" in Keys(rec) && StorableDoc(rec) && "time" in Keys(rec)
    ensures s.fault.None? ==>
      s.store.ledger == st.ledger + [Entry(Get(rec, "uuid").value, Get(rec, "time").value)]
  {
    match Get(rec, "uuid")
    case Err(f) => Step(st, Some(f))
    case Ok(u) =>
      if !StorableDoc(rec) then Step(st, Some(InvalidDocument))
      else
        var replaced := st.(docs := st.docs[u := rec]);
        match Get(rec, "time")
        case Err(f) => Step(replaced, Some(f))
        case Ok(t) => Step(replaced.(ledger := st.ledger + [Entry(u, t)]), None)
  }

  /** reference_log_pymongo_2: `find_and_modify(..., remove=True)` drops
      the old document, `insert` adds the record, then the ledger entry.
      A record the driver refuses to insert is lost together with the old
      document. */
  function ReferencePy2(st: Store, rec: Dict): (s: Step)
    ensures "uuid" !in Keys(rec) ==> s == Step(st, Some(KeyError("uuid")))
    ensures "uuid" in Keys(rec) && StorableDoc(rec) ==>
      var u := Get(rec, "uuid").value;
      && u in s.store.docs && s.store.docs[u] == rec
      && (forall u' :: u' != u ==> (u' in s.store.docs <==> u' in st.docs))
    ensures "uuid" in Keys(rec) && !StorableDoc(rec) ==>
      s == Step(st.(docs := st.docs - {Get(rec, "uuid").value}), Some(InvalidDocument))
  {
    match Get(rec, "uuid")
    case Err(f) => Step(st, Some(f))
    case Ok(u) =>
      var removed := st.(docs := st.docs - {u});
      if !StorableDoc(rec) then Step(removed, Some(InvalidDocument))
      else
        var inserted := removed.(docs := removed.docs[u := rec]);
        match Get(rec, "time")
        case Err(f) => Step(inserted, Some(f))
        case Ok(t) => Step(inserted.(ledger := st.ledger + [Entry(u, t)]), None)
  }

  /** Remove-then-insert under PyMongo 2 and upsert-replace under PyMongo 3
      raise the same error and write the same ledger. They leave the same
      store unless the record is refused: then PyMongo 3 keeps the old
      document and PyMongo 2 has already deleted it. */
  lemma ReferenceDriversAgree(st: Store, rec: Dict)
    ensures ReferencePy2(st, rec).fault == ReferencePy3(st, rec).fault
    ensures ReferencePy2(st, rec).store.ledger == ReferencePy3(st, rec).store.ledger
    ensures "uuid" !in Keys(rec) || StorableDoc(rec) ==> ReferencePy2(st, rec) == ReferencePy3(st, rec)
    ensures "uuid" in Keys(rec) && !StorableDoc(rec) ==>
      && ReferencePy3(st, rec).store == st
      && ReferencePy2(st, rec).store.docs == st.docs - {Get(rec, "uuid").value}
  {
    if "uuid" in Keys(rec) {
      var u := Get(rec, "uuid").value;
      assert (st.docs - {u})[u := rec] == st.docs[u := rec];
    }
  }

  /** The reference write under either driver. */
  function Reference(st: Store, rec: Dict, driver: Driver): (s: Step)
    ensures s.fault == ReferencePy3(st, rec).fault && s.store.ledger == ReferencePy3(st, rec).store.ledger
    ensures StorableDoc(rec) ==> s == ReferencePy3(st, rec)
    ensures driver == PyMongo2 && "uuid" in Keys(rec) && !StorableDoc(rec) ==>
      s.store.docs == st.docs - {Get(rec, "uuid").value}
  {
    ReferenceDriversAgree(st, rec);
    match driver
    case PyMongo2 => ReferencePy2(st, rec)
    case PyMongo3 => ReferencePy3(st, rec)
  }

  // ---------------------------------------------------------------------
  // Sequences of writes

  /** The outcome of one write after earlier ones: the store the write
      leaves, and the first exception raised. An exception reaches the
      caller of that one logging call and does not stop the later ones. */
  function Then(prev: Step, next: Step): (s: Step)
    ensures s.store == next.store
    ensures s.fault.None? <==> prev.fault.None? && next.fault.None?
    ensures prev.fault.Some? ==> s.fault == prev.fault
  {
    Step(next.store, if prev.fault.Some? then prev.fault else next.fault)
  }

  /** Embedded writes of `recs`, one after another. */
  function ReplayEmbedded(st: Store, maxKeep: int, recs: seq<Dict>): (s: Step)
    ensures recs == [] ==> s == Step(st, None)
    ensures s.store.ledger == st.ledger
    decreases |recs|
  {
    if recs == [] then Step(st, None)
    else
      var prev := ReplayEmbedded(st, maxKeep, recs[..|recs| - 1]);
      Then(prev, InsertEmbedded(prev.store, recs[|recs| - 1], maxKeep))
  }

  /** Reference writes of `recs`, one after another. */
  function ReplayReference(st: Store, driver: Driver, recs: seq<Dict>): (s: Step)
    ensures recs == [] ==> s == Step(st, None)
    decreases |recs|
  {
    if recs == [] then Step(st, None)
    else
      var prev := ReplayReference(st, driver, recs[..|recs| - 1]);
      Then(prev, Reference(prev.store, recs[|recs| - 1], driver))
  }

  /** The first record of a fingerprint becomes its document. */
  lemma EmbeddedFirst(st: Store, rec: Dict, u: Value, t: Value, maxKeep: int)
    requires u !in st.docs
    requires Find(rec, "uuid") == Some(u) && Find(rec, "time") == Some(t)
    requires StorableDoc(FirstSighting(rec, t))
    ensures InsertEmbedded(st, rec, maxKeep) == Step(st.(docs := st.docs[u := FirstSighting(rec, t)]), None)
  {
  }

  /** The first record of a fingerprint, as the history below sees it. */
  lemma EmbeddedStart(st: Store, rec: Dict, u: Value, t: Value, maxKeep: int)
    requires u !in st.docs
    requires Find(rec, "uuid") == Some(u) && Find(rec, "time") == Some(t)
    requires StorableDoc(rec)
    ensures InsertEmbedded(st, rec, maxKeep).fault.None?
    ensures Collapsed(InsertEmbedded(st, rec, maxKeep).store.docs, u, 1, t, Find(rec, "dates"))
    ensures InsertEmbedded(st, rec, maxKeep).store.docs - {u} == st.docs - {u}
  {
    var d := FirstSighting(rec, t);
    assert Find(d, "dates") == Find(rec, "dates") by {
      assert "dates" != "time" && "dates" != "created" && "dates" != "counter";
    }
    FirstSightingStorable(rec, t);
    EmbeddedFirst(st, rec, u, t, maxKeep);
    UpdateThenRemove(st.docs, u, d);
  }

  /** Pushing onto a document's `dates` and bumping its `counter`, when
      both have the types the operators accept. */
  lemma ResightingOk(doc: Dict, t: Value, maxKeep: int, dates: seq<Value>, count: int)
    requires Find(doc, "counter") == Some(Int(count))
    requires Find(doc, "dates") == Some(List(dates)) || (dates == [] && Find(doc, "dates") == None)
    ensures Resighting(doc, t, maxKeep).Ok?
    ensures Find(Resighting(doc, t, maxKeep).value, "counter") == Some(Int(count + 1))
    ensures Find(Resighting(doc, t, maxKeep).value, "dates") == Some(List(Slice(dates + [t], -maxKeep)))
    ensures Find(Resighting(doc, t, maxKeep).value, "created") == Find(doc, "created")
  {
    if Find(doc, "dates") == None {
      assert dates + [t] == [t];
    }
    var pushed := PushSlice(Find(doc, "dates"), t, -maxKeep);
    assert pushed == Ok(List(Slice(dates + [t], -maxKeep)));
    var inc := Inc(Find(doc, "counter"));
    assert inc == Ok(Int(count + 1));
    var withDates := Put(doc, "dates", pushed.value);
    assert Find(withDates, "created") == Find(doc, "created");
    var r := Put(withDates, "counter", inc.value);
    assert Resighting(doc, t, maxKeep) == Ok(r);
  }

  /** A later record of a fingerprint updates its document in place. */
  lemma EmbeddedAgain(st: Store, rec: Dict, u: Value, t: Value, maxKeep: int)
    requires u in st.docs
    requires Find(rec, "uuid") == Some(u) && Find(rec, "time") == Some(t)
    requires Resighting(st.docs[u], t, maxKeep).Ok?
    ensures InsertEmbedded(st, rec, maxKeep)
         == Step(st.(docs := st.docs[u := Resighting(st.docs[u], t, maxKeep).value]), None)
  {
  }

  lemma UpdateThenRemove(m: map<Value, Dict>, u: Value, d: Dict)
    ensures m[u := d] - {u} == m - {u}
  {
  }

  /** What the history below tracks of the document under `u`. */
  predicate Collapsed(docs: map<Value, Dict>, u: Value, count: int, created: Value, dates: Option<Value>) {
    && u in docs
    && Find(docs[u], "counter") == Some(Int(count))
    && Find(docs[u], "created") == Some(created)
    && Find(docs[u], "dates") == dates
  }

  /** The items of a `dates` field, none when it is missing. */
  function Items(dates: Option<Value>): seq<Value> {
    if dates.Some? && dates.value.List? then dates.value.items else []
  }

  /** One more record of an already stored fingerprint. */
  lemma EmbeddedExtend(
    st: Store, rec: Dict, u: Value, t: Value, maxKeep: int,
    count: int, created: Value, before: Option<Value>)
    requires Find(rec, "uuid") == Some(u) && Find(rec, "time") == Some(t)
    requires Collapsed(st.docs, u, count, created, before)
    requires before.None? || before.value.List?
    ensures InsertEmbedded(st, rec, maxKeep).fault.None?
    ensures Collapsed(InsertEmbedded(st, rec, maxKeep).store.docs, u, count + 1, created,
                      Some(List(Slice(Items(before) + [t], -maxKeep))))
    ensures InsertEmbedded(st, rec, maxKeep).store.docs - {u} == st.docs - {u}
  {
    var doc := st.docs[u];
    ResightingOk(doc, t, maxKeep, Items(before), count);
    EmbeddedAgain(st, rec, u, t, maxKeep);
    UpdateThenRemove(st.docs, u, Resighting(doc, t, maxKeep).value);
  }

  /** The `dates` field the `$push`/`$slice` updates build, record by
      record, from the `dates` the first record brought. */
  function PushedDates(first: Option<Value>, ts: seq<Value>, maxKeep: int): (r: Option<Value>)
    requires |ts| >= 1
    ensures |ts| == 1 ==> r == first
    ensures |ts| > 1 ==> r.Some? && r.value.List?
    decreases |ts|
  {
    if |ts| == 1 then first
    else Some(List(Slice(Items(PushedDates(first, ts[..|ts| - 1], maxKeep)) + [ts[|ts| - 1]], -maxKeep)))
  }

  /** The `dates` an embedded document holds after records stamped `ts`
      arrived, before they are cut to `maxKeep`, when the first record
      brought `init`: a record that brought no `dates` starts the array at
      the second sighting. */
  function Pushed(init: Option<seq<Value>>, ts: seq<Value>): (r: seq<Value>)
    requires |ts| >= 1
  {
    if init.Some? then init.value + ts[1..] else ts[1..]
  }

  function ExpectedDates(init: Option<seq<Value>>, ts: seq<Value>, maxKeep: nat): (r: Option<Value>)
    requires |ts| >= 1
  {
    if init.None? && |ts| == 1 then None else Some(List(Last(Pushed(init, ts), maxKeep)))
  }

  /** How the expected `dates` grow by one time stamp. */
  lemma ExpectedDatesSnoc(init: Option<seq<Value>>, ts: seq<Value>, maxKeep: nat)
    requires |ts| >= 2
    requires init.Some? ==> |init.value| <= maxKeep
    ensures var before := ExpectedDates(init, ts[..|ts| - 1], maxKeep);
      var olds := Last(Pushed(init, ts[..|ts| - 1]), maxKeep);
      && (before == Some(List(olds)) || (olds == [] && before == None))
      && ExpectedDates(init, ts, maxKeep) == Some(List(Last(olds + [ts[|ts| - 1]], maxKeep)))
  {
    var ts' := ts[..|ts| - 1];
    var t := ts[|ts| - 1];
    assert ts[1..] == ts'[1..] + [t];
    var p := Pushed(init, ts');
    assert Pushed(init, ts) == p + [t];
    LastAppend(p, [t], maxKeep);
    if init.None? && |ts'| == 1 {
      assert p == [];
    }
  }

  /** Every record carries fingerprint `u`, and record `i` time `ts[i]`. */
  predicate Stamps(recs: seq<Dict>, u: Value, ts: seq<Value>)
    decreases |recs|
  {
    && |recs| == |ts|
    && (recs != [] ==>
          && Stamps(recs[..|recs| - 1], u, ts[..|ts| - 1])
          && Find(recs[|recs| - 1], "uuid") == Some(u)
          && Find(recs[|recs| - 1], "time") == Some(ts[|ts| - 1]))
  }

  /** `Stamps` from what each record carries. */
  lemma {:induction false} StampsEach(recs: seq<Dict>, u: Value, ts: seq<Value>)
    requires |recs| == |ts|
    requires forall i :: 0 <= i < |recs| ==> Find(recs[i], "uuid") == Some(u) && Find(recs[i], "time") == Some(ts[i])
    ensures Stamps(recs, u, ts)
  {
    if recs != [] {
      var n := |recs|;
      StampsEach(recs[..n - 1], u, ts[..n - 1]);
    }
  }

  lemma StampsLast(recs: seq<Dict>, u: Value, ts: seq<Value>)
    requires |recs| >= 1 && Stamps(recs, u, ts)
    ensures Stamps(recs[..|recs| - 1], u, ts[..|ts| - 1])
    ensures Find(recs[|recs| - 1], "uuid") == Some(u) && Find(recs[|recs| - 1], "time") == Some(ts[|ts| - 1])
  {
  }

  /** `dates` as the first record brought it. */
  function InitDates(init: Option<seq<Value>>): Option<Value> {
    if init.Some? then Some(List(init.value)) else None
  }

  /** The array built by `$push` with `$slice: -maxKeep` is the last
      `maxKeep` of everything pushed. */
  lemma {:induction false} PushedDatesAreLast(init: Option<seq<Value>>, ts: seq<Value>, maxKeep: int)
    requires maxKeep >= 1 && |ts| >= 1
    requires init.Some? ==> |init.value| <= maxKeep
    ensures PushedDates(InitDates(init), ts, maxKeep) == ExpectedDates(init, ts, maxKeep)
  {
    if |ts| == 1 {
      if init.Some? {
        assert Pushed(init, ts) == init.value;
      }
    } else {
      var ts' := ts[..|ts| - 1];
      var t := ts[|ts| - 1];
      var olds := Last(Pushed(init, ts'), maxKeep);
      assert Items(PushedDates(InitDates(init), ts', maxKeep)) == olds by {
        PushedDatesAreLast(init, ts', maxKeep);
        ExpectedDatesSnoc(init, ts, maxKeep);
      }
      assert ExpectedDates(init, ts, maxKeep) == Some(List(Last(olds + [t], maxKeep))) by {
        ExpectedDatesSnoc(init, ts, maxKeep);
      }
      assert PushedDates(InitDates(init), ts, maxKeep) == Some(List(Slice(olds + [t], -maxKeep)));
    }
  }

  /** Replaying records of a fingerprint new to the store, one record at a
      time. */
  lemma {:induction false} EmbeddedReplay(st: Store, recs: seq<Dict>, u: Value, ts: seq<Value>, maxKeep: int)
    requires |recs| >= 1 && |ts| == |recs|
    requires u !in st.docs
    requires Stamps(recs, u, ts)
    requires StorableDoc(recs[0])
    requires Find(recs[0], "dates").None? || Find(recs[0], "dates").value.List?
    ensures ReplayEmbedded(st, maxKeep, recs).fault.None?
    ensures Collapsed(ReplayEmbedded(st, maxKeep, recs).store.docs, u, |recs|, ts[0],
                      PushedDates(Find(recs[0], "dates"), ts, maxKeep))
    ensures ReplayEmbedded(st, maxKeep, recs).store.docs - {u} == st.docs - {u}
  {
    var n := |recs|;
    var prev := ReplayEmbedded(st, maxKeep, recs[..n - 1]);
    StampsLast(recs, u, ts);
    var next := InsertEmbedded(prev.store, recs[n - 1], maxKeep);
    assert ReplayEmbedded(st, maxKeep, recs) == Then(prev, next);
    if n == 1 {
      assert recs[..n - 1] == [];
      EmbeddedStart(st, recs[0], u, ts[0], maxKeep);
    } else {
      assert recs[..n - 1][0] == recs[0] && ts[..n - 1][0] == ts[0];
      EmbeddedReplay(st, recs[..n - 1], u, ts[..n - 1], maxKeep);
      var before := PushedDates(Find(recs[0], "dates"), ts[..n - 1], maxKeep);
      assert before.None? || before.value.List?;
      assert Collapsed(prev.store.docs, u, n - 1, ts[0], before);
      EmbeddedExtend(prev.store, recs[n - 1], u, ts[n - 1], maxKeep, n - 1, ts[0], before);
    }
  }

  /** Records sharing one fingerprint `u` that is new to the store collapse
      into one document: it was created at the first record's time, counts
      the records, and keeps the last `maxKeep` times in `dates`. Other
      documents and the ledger are untouched. */
  lemma EmbeddedHistory(
    st: Store, recs: seq<Dict>, u: Value, ts: seq<Value>, init: Option<seq<Value>>, maxKeep: int)
    requires maxKeep >= 1
    requires |recs| >= 1 && |ts| == |recs|
    requires u !in st.docs
    requires Stamps(recs, u, ts)
    requires StorableDoc(recs[0])
    requires Find(recs[0], "dates") == InitDates(init)
    requires init.Some? ==> |init.value| <= maxKeep
    ensures ReplayEmbedded(st, maxKeep, recs).fault.None?
    ensures Collapsed(ReplayEmbedded(st, maxKeep, recs).store.docs, u, |recs|, ts[0], ExpectedDates(init, ts, maxKeep))
    ensures ReplayEmbedded(st, maxKeep, recs).store.docs - {u} == st.docs - {u}
    ensures ReplayEmbedded(st, maxKeep, recs).store.ledger == st.ledger
  {
    EmbeddedReplay(st, recs, u, ts, maxKeep);
    PushedDatesAreLast(init, ts, maxKeep);
  }

  /** Simple and Base records bring `dates = [time]` themselves, so the
      array holds exactly the last `maxKeep` times. */
  lemma EmbeddedKeepsLastTimes(st: Store, recs: seq<Dict>, u: Value, ts: seq<Value>, maxKeep: int)
    requires maxKeep >= 1
    requires |recs| >= 1 && |ts| == |recs|
    requires u !in st.docs
    requires Stamps(recs, u, ts)
    requires StorableDoc(recs[0])
    requires Find(recs[0], "dates") == Some(List([ts[0]]))
    ensures var s := ReplayEmbedded(st, maxKeep, recs);
      && s.fault.None?
      && Collapsed(s.store.docs, u, |recs|, ts[0], Some(List(Last(ts, maxKeep))))
      && s.store.docs - {u} == st.docs - {u}
      && s.store.ledger == st.ledger
  {
    EmbeddedHistory(st, recs, u, ts, Some([ts[0]]), maxKeep);
    assert [ts[0]] + ts[1..] == ts;
  }

  /** The ledger entries for fingerprint `u` stamped `ts`, in order. */
  function Entries(u: Value, ts: seq<Value>): (es: seq<Entry>)
    ensures |es| == |ts|
    ensures forall i :: 0 <= i < |ts| ==> es[i] == Entry(u, ts[i])
  {
    seq(|ts|, i requires 0 <= i < |ts| => Entry(u, ts[i]))
  }

  lemma EntriesSnoc(u: Value, ts: seq<Value>)
    requires |ts| >= 1
    ensures Entries(u, ts) == Entries(u, ts[..|ts| - 1]) + [Entry(u, ts[|ts| - 1])]
  {
  }

  /** One reference write of a record carrying `uuid` and `time`. */
  lemma ReferenceStep(st: Store, rec: Dict, u: Value, t: Value, driver: Driver)
    requires Find(rec, "uuid") == Some(u) && Find(rec, "time") == Some(t)
    requires StorableDoc(rec)
    ensures Reference(st, rec, driver) == Step(Store(st.docs[u := rec], st.ledger + [Entry(u, t)]), None)
  {
  }

  lemma UpdateTwice(m: map<Value, Dict>, u: Value, a: Dict, b: Dict)
    ensures m[u := a][u := b] == m[u := b]
  {
  }

  /** Reference writes of records sharing one fingerprint leave exactly the
      latest record stored under it and add one ledger entry per record, in
      order. */
  lemma {:induction false} ReferenceHistory(st: Store, recs: seq<Dict>, u: Value, ts: seq<Value>, driver: Driver)
    requires |recs| >= 1
    requires Stamps(recs, u, ts)
    requires forall i :: 0 <= i < |recs| ==> StorableDoc(recs[i])
    ensures ReplayReference(st, driver, recs).fault.None?
    ensures ReplayReference(st, driver, recs).store.docs == st.docs[u := recs[|recs| - 1]]
    ensures ReplayReference(st, driver, recs).store.ledger == st.ledger + Entries(u, ts)
    decreases |recs|, 1
  {
    var n := |recs|;
    var prev := ReplayReference(st, driver, recs[..n - 1]);
    var last := recs[n - 1];
    ReferencePrefix(st, recs, u, ts, driver);
    StampsLast(recs, u, ts);
    assert ReplayReference(st, driver, recs) == Then(prev, Reference(prev.store, last, driver));
    ReferenceAfter(prev, st.docs, last, u, ts[n - 1], driver);
    EntriesSnoc(u, ts);
  }

  /** What the writes before the last one leave, as the last one needs
      it. */
  lemma {:induction false} ReferencePrefix(st: Store, recs: seq<Dict>, u: Value, ts: seq<Value>, driver: Driver)
    requires |recs| >= 1
    requires Stamps(recs, u, ts)
    requires forall i :: 0 <= i < |recs| ==> StorableDoc(recs[i])
    ensures var prev := ReplayReference(st, driver, recs[..|recs| - 1]);
      && prev.fault.None?
      && prev.store.ledger == st.ledger + Entries(u, ts[..|recs| - 1])
      && prev.store.docs[u := recs[|recs| - 1]] == st.docs[u := recs[|recs| - 1]]
    decreases |recs|, 0
  {
    var n := |recs|;
    if n == 1 {
      assert recs[..n - 1] == [];
      assert Entries(u, ts[..0]) == [];
    } else {
      var pre := recs[..n - 1];
      assert forall i :: 0 <= i < n - 1 ==> pre[i] == recs[i];
      ReferenceHistory(st, pre, u, ts[..n - 1], driver);
      var p := ReplayReference(st, driver, pre);
      assert p.store.docs == st.docs[u := recs[n - 2]] by {
        assert pre[|pre| - 1] == recs[n - 2];
      }
      assert p.store.docs[u := recs[n - 1]] == st.docs[u := recs[n - 1]] by {
        UpdateTwice(st.docs, u, recs[n - 2], recs[n - 1]);
      }
    }
  }

  /** One more reference write after earlier ones that all succeeded. */
  lemma ReferenceAfter(prev: Step, docs: map<Value, Dict>, rec: Dict, u: Value, t: Value, driver: Driver)
    requires prev.fault.None? && prev.store.docs[u := rec] == docs[u := rec]
    requires Find(rec, "uuid") == Some(u) && Find(rec, "time") == Some(t) && StorableDoc(rec)
    ensures Then(prev, Reference(prev.store, rec, driver))
         == Step(Store(docs[u := rec], prev.store.ledger + [Entry(u, t)]), None)
  {
    ReferenceStep(prev.store, rec, u, t, driver);
  }

  // ---------------------------------------------------------------------
  // Invariants

  /** Both write paths keep every document under its own `uuid`. */
  lemma WritesKeepKeyed(st: Store, rec: Dict, maxKeep: int, driver: Driver)
    requires Keyed(st)
    ensures Keyed(InsertEmbedded(st, rec, maxKeep).store)
    ensures Keyed(Reference(st, rec, driver).store)
  {
    EmbeddedKeepsKeyed(st, rec, maxKeep);
    ReferenceKeepsKeyed(st, rec, driver);
  }

  lemma EmbeddedKeepsKeyed(st: Store, rec: Dict, maxKeep: int)
    requires Keyed(st)
    ensures Keyed(InsertEmbedded(st, rec, maxKeep).store)
  {
    var s := InsertEmbedded(st, rec, maxKeep);
    if s.fault.None? {
      var u := Get(rec, "uuid").value;
      var t := Get(rec, "time").value;
      if u !in st.docs {
        assert s.store.docs == st.docs[u := FirstSighting(rec, t)];
        assert Find(FirstSighting(rec, t), "uuid") == Some(u);
      } else {
        var d := Resighting(st.docs[u], t, maxKeep).value;
        assert s.store.docs == st.docs[u := d];
        assert Find(d, "uuid") == Find(st.docs[u], "uuid");
      }
    }
  }

  lemma ReferenceKeepsKeyed(st: Store, rec: Dict, driver: Driver)
    requires Keyed(st)
    ensures Keyed(Reference(st, rec, driver).store)
  {
    ReferenceDriversAgree(st, rec);
    if "uuid" in Keys(rec) {
      var u := Get(rec, "uuid").value;
      assert Find(rec, "uuid") == Some(u);
    }
  }
}
