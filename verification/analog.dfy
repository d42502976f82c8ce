/** The `analog` management command (management/commands/analog.py): it
    asks the `mongolog` collection for the latest records through an
    aggregation pipeline and writes each one to the console logger at the
    method its level names.

    The collection and the JSON parser are parameters: `aggregate` answers
    a pipeline with what the driver returns, and `decode` is `json.loads`
    (None when the text is not JSON). Finding "the" handler in the logging
    registry is left out. */
module Analog {
  import opened Outcomes
  import opened Values
  import opened Records

  /** The console logger's methods `print_results` calls. */
  datatype Severity = Info | Warn | Error | Debug | Critical

  /** One call `logger.<severity>(row)`. */
  datatype Line = Line(severity: Severity, row: Value)

  /** What `aggregate` returns: a cursor over rows (PyMongo 3), or the
      reply document of older drivers, whose `result` holds the rows. */
  datatype Results = Cursor(rows: seq<Value>) | Legacy(reply: Dict)

  /** The console output, and the exception that ended it, if any. */
  datatype Printed = Printed(lines: seq<Line>, fault: Option<Fault>)

  /** The levels `print_results` writes out, and the method each goes to. */
  const Routing: map<string, Severity> :=
    map["INFO" := Info, "WARNING" := Warn, "ERROR" := Error, "DEBUG" := Debug, "CRITICAL" := Critical]

  /** `r.get('level', None)` is None: the field is missing or null. */
  predicate NoLevel(r: Value)
    requires r.Object?
  {
    Find(r.fields, "level") == None || Find(r.fields, "level") == Some(Null)
  }

  /** The `if`/`elif` chain of `print_results` on one row: a known level
      picks a logger method, the internal level and a missing one print
      nothing, anything else raises. A row that is not a document has no
      `get`. */
  function Route(r: Value): Result<Option<Severity>, Fault>
  {
    if !r.Object? then Err(AttributeError("get"))
    else
      match Find(r.fields, "level")
      case None => Ok(None)
      case Some(level) =>
        if level.Str? && level.s in Routing then Ok(Some(Routing[level.s]))
        else if level == Str(InternalLevel) || level == Null then Ok(None)
        else Err(LevelNotFound(level))
  }

  /** The routing of `print_results`, level by level: the five standard
      level names go to the logger method of the same name (`warn` for
      WARNING), the internal level and a missing or null level print
      nothing, and every other level raises, naming it; a row that is not
      a document raises on `get`. */
  lemma RouteLevels(r: Value)
    ensures !r.Object? ==> Route(r) == Err(AttributeError("get"))
    ensures r.Object? ==>
      var level := Find(r.fields, "level");
      && (level == Some(Str("INFO")) ==> Route(r) == Ok(Some(Info)))
      && (level == Some(Str("WARNING")) ==> Route(r) == Ok(Some(Warn)))
      && (level == Some(Str("ERROR")) ==> Route(r) == Ok(Some(Error)))
      && (level == Some(Str("DEBUG")) ==> Route(r) == Ok(Some(Debug)))
      && (level == Some(Str("CRITICAL")) ==> Route(r) == Ok(Some(Critical)))
      && (level == Some(Str(InternalLevel)) || level == None || level == Some(Null) ==> Route(r) == Ok(None))
      && (level.Some? && level.value != Null && level.value != Str(InternalLevel)
          && !(level.value.Str? && level.value.s in {"INFO", "WARNING", "ERROR", "DEBUG", "CRITICAL"}) ==>
            Route(r) == Err(LevelNotFound(level.value)))
  {
    assert Routing.Keys == {"INFO", "WARNING", "ERROR", "DEBUG", "CRITICAL"};
  }

  /** How one row is dealt with: a logger method, nothing, or an
      exception. The loop below is stated for any such rule; `Route` is the
      one the command uses. */
  type Router = Value -> Result<Option<Severity>, Fault>

  /** The lines a run of rows prints when none of them raises. */
  function Routed(rows: seq<Value>, route: Router): (lines: seq<Line>)
    ensures |lines| <= |rows|
    ensures forall i :: 0 <= i < |lines| ==> route(lines[i].row) == Ok(Some(lines[i].severity))
    decreases |rows|
  {
    if rows == [] then []
    else
      var rest := Routed(rows[1..], route);
      match route(rows[0])
      case Ok(Some(s)) => [Line(s, rows[0])] + rest
      case _ => rest
  }

  /** Output is taken row by row, in order. */
  lemma {:induction false} RoutedAppend(a: seq<Value>, b: seq<Value>, route: Router)
    ensures Routed(a + b, route) == Routed(a, route) + Routed(b, route)
    decreases |a|
  {
    if a != [] {
      assert (a + b)[0] == a[0] && (a + b)[1..] == a[1..] + b;
      RoutedAppend(a[1..], b, route);
    } else {
      assert a + b == b;
    }
  }

  /** Rows of the internal level, or with no level, print nothing. */
  lemma {:induction false} SilentRows(rows: seq<Value>)
    requires forall i :: 0 <= i < |rows| ==>
      rows[i].Object? && (NoLevel(rows[i]) || Find(rows[i].fields, "level") == Some(Str(InternalLevel)))
    ensures Routed(rows, Route) == []
    decreases |rows|
  {
    if rows != [] {
      assert Route(rows[0]) == Ok(None);
      SilentRows(rows[1..]);
    }
  }

  /** The position of the first row that raises, `|rows|` when none does. */
  function FirstFailure(rows: seq<Value>, route: Router): (k: nat)
    ensures k <= |rows|
    ensures forall j :: 0 <= j < k ==> route(rows[j]).Ok?
    ensures k < |rows| ==> route(rows[k]).Err?
    decreases |rows|
  {
    if rows == [] || route(rows[0]).Err? then 0 else 1 + FirstFailure(rows[1..], route)
  }

  /** The loop of `print_results` over the rows: each row's line is out
      before the next row is looked at, so an exception keeps the lines
      of the rows before it and prints nothing after it. */
  function PrintRows(rows: seq<Value>, route: Router): (p: Printed)
    ensures p.fault.None? <==> forall i :: 0 <= i < |rows| ==> route(rows[i]).Ok?
    ensures p.lines == Routed(rows[..FirstFailure(rows, route)], route)
    ensures p.fault.Some? ==>
      FirstFailure(rows, route) < |rows| && p.fault.value == route(rows[FirstFailure(rows, route)]).error
    decreases |rows|
  {
    if rows == [] then Printed([], None)
    else
      match route(rows[0])
      case Err(f) => Printed([], Some(f))
      case Ok(out) =>
        var rest := PrintRows(rows[1..], route);
        var k := FirstFailure(rows[1..], route);
        var done := rows[1..][..k];
        assert rows[..k + 1] == [rows[0]] + done;
        assert ([rows[0]] + done)[1..] == done;
        if out.Some? then Printed([Line(out.value, rows[0])] + rest.lines, rest.fault) else rest
  }

  /** Where the first exception is. */
  lemma FailureAt(rows: seq<Value>, i: nat, route: Router)
    requires i <= |rows| && (i < |rows| ==> route(rows[i]).Err?)
    requires forall j :: 0 <= j < i ==> route(rows[j]).Ok?
    ensures FirstFailure(rows, route) == i
  {
    var k := FirstFailure(rows, route);
    if k < i {
      assert false;
    } else if k > i {
      assert false;
    }
  }

  /** Printing stops at the first row that raises. */
  lemma PrintRowsStops(rows: seq<Value>, i: nat, route: Router)
    requires i < |rows| && route(rows[i]).Err?
    requires forall j :: 0 <= j < i ==> route(rows[j]).Ok?
    ensures PrintRows(rows, route) == Printed(Routed(rows[..i], route), Some(route(rows[i]).error))
  {
    FailureAt(rows, i, route);
    var p := PrintRows(rows, route);
    assert p.fault.Some?;
  }

  /** Printing rows none of which raises prints every routed row. */
  lemma PrintRowsAll(rows: seq<Value>, route: Router)
    requires forall j :: 0 <= j < |rows| ==> route(rows[j]).Ok?
    ensures PrintRows(rows, route) == Printed(Routed(rows, route), None)
  {
    FailureAt(rows, |rows|, route);
    assert rows[..|rows|] == rows;
  }

  function Reverse<T>(xs: seq<T>): (r: seq<T>)
    ensures |r| == |xs|
    ensures forall i :: 0 <= i < |xs| ==> r[i] == xs[|xs| - 1 - i]
  {
    seq(|xs|, i requires 0 <= i < |xs| => xs[|xs| - 1 - i])
  }

  /** Iterating a string gives its characters. */
  function Chars(s: string): (vs: seq<Value>)
    ensures |vs| == |s|
    ensures forall i :: 0 <= i < |s| ==> vs[i] == Str([s[i]])
  {
    seq(|s|, i requires 0 <= i < |s| => Str([s[i]]))
  }

  /** The rows `print_results` iterates: a legacy reply's `result` list,
      reversed (`list(...)` of a string or dict gives its characters or
      keys). Subscripting a cursor, or calling `list` on something that is
      not iterable, raises `TypeError`, which is caught: the value is then
      iterated as it is, and iterating a reply document gives its keys. A
      reply without `result` raises `KeyError`, which is not caught. */
  function Rows(results: Results): (r: Result<seq<Value>, Fault>)
    ensures results.Cursor? ==> r == Ok(results.rows)
    ensures results.Legacy? && "result" !in Keys(results.reply) ==> r == Err(KeyError("result"))
    ensures results.Legacy? && Find(results.reply, "result").Some? && Find(results.reply, "result").value.List? ==>
      r == Ok(Reverse(Find(results.reply, "result").value.items))
    ensures results.Legacy? ==> (r.Ok? <==> "result" in Keys(results.reply))
  {
    match results
    case Cursor(rows) => Ok(rows)
    case Legacy(reply) =>
      var listed :- Get(reply, "result");
      match listed
      case List(xs) => Ok(Reverse(xs))
      case Str(s) => Ok(Reverse(Chars(s)))
      case Object(fs) => Ok(Reverse(Strs(Keys(fs))))
      case _ => Ok(Strs(Keys(reply)))
  }

  /** `print_results`. */
  function Print(results: Results): (p: Printed)
    ensures Rows(results).Err? ==> p == Printed([], Some(Rows(results).error))
    ensures Rows(results).Ok? ==> p == PrintRows(Rows(results).value, Route)
  {
    match Rows(results)
    case Err(f) => Printed([], Some(f))
    case Ok(rows) => PrintRows(rows, Route)
  }

  /** A legacy reply's rows are printed from the end of its `result` list
      to its start. */
  lemma LegacyReversed(reply: Dict, xs: seq<Value>)
    requires Find(reply, "result") == Some(List(xs))
    ensures Print(Legacy(reply)) == PrintRows(Reverse(xs), Route)
  {
  }

  /** `print_results`: the rows, then the loop over them. */
  method PrintResults(results: Results) returns (p: Printed)
    ensures p == Print(results)
  {
    var listed := Rows(results);
    if listed.Err? {
      return Printed([], Some(listed.error));
    }
    p := PrintLoop(listed.value, Route);
  }

  /** The loop of `print_results`, one row at a time. */
  method PrintLoop(rows: seq<Value>, route: Router) returns (p: Printed)
    ensures p == PrintRows(rows, route)
  {
    var lines: seq<Line> := [];
    var i := 0;
    while i < |rows|
      invariant 0 <= i <= |rows|
      invariant forall j :: 0 <= j < i ==> route(rows[j]).Ok?
      invariant lines == Routed(rows[..i], route)
    {
      var routed := route(rows[i]);
      if routed.Err? {
        PrintRowsStops(rows, i, route);
        return Printed(lines, Some(routed.error));
      }
      RoutedAppend(rows[..i], [rows[i]], route);
      assert rows[..i + 1] == rows[..i] + [rows[i]];
      if routed.value.Some? {
        lines := lines + [Line(routed.value.value, rows[i])];
      }
      i := i + 1;
    }
    PrintRowsAll(rows, route);
    assert rows[..|rows|] == rows;
    p := Printed(lines, None);
  }

  // ---------------------------------------------------------------------
  // fetch_results, tail and handle

  /** `pymongo.DESCENDING` */
  const Descending: int := -1

  /** The stages of an aggregation pipeline this command sends. */
  datatype Stage =
    | Match(query: Value)
    | Project(fields: seq<string>)
    | Sort(key: string, direction: int)
    | Limit(n: int)

  /** The fields the command asks the server to keep. */
  const Projected: seq<string> := ["_id", "level", "msg"]

  /** `fetch_results`: match the query (everything when the query is
      missing or empty), keep `_id`, `level` and `msg`, newest first by
      `created`, at most `limit` rows. */
  function Pipeline(query: Value, limit: int): (ps: seq<Stage>)
    ensures |ps| == 4
    ensures ps[0] == Match(if Truthy(query) then query else Object([]))
    ensures ps[1] == Project(Projected) && ps[2] == Sort("created", Descending) && ps[3] == Limit(limit)
  {
    [Match(if Truthy(query) then query else Object([])),
     Project(Projected),
     Sort("created", Descending),
     Limit(limit)]
  }

  /** An absent or empty query matches everything, whatever form it had. */
  lemma EmptyQueriesAgree(q1: Value, q2: Value, limit: int)
    requires !Truthy(q1) && !Truthy(q2)
    ensures Pipeline(q1, limit) == Pipeline(q2, limit)
    ensures Pipeline(q1, limit)[0] == Match(Object([]))
  {
  }

  /** The command-line options. */
  datatype CommandOptions = CommandOptions(query: Option<string>, limit: int, tail: bool)

  /** `options['query']` as the command leaves it: JSON-decoded when it is
      a non-empty string, untouched (None or `''`) otherwise. */
  function Query(o: CommandOptions, decode: string -> Option<Value>): (r: Result<Value, Fault>)
    ensures o.query.None? ==> r == Ok(Null)
    ensures o.query == Some("") ==> r == Ok(Str(""))
    ensures o.query.Some? && o.query.value != "" ==>
      r == (if decode(o.query.value).Some? then Ok(decode(o.query.value).value) else Err(JsonDecodeError(o.query.value)))
  {
    match o.query
    case None => Ok(Null)
    case Some(text) =>
      if text == "" then Ok(Str(""))
      else if decode(text).Some? then Ok(decode(text).value)
      else Err(JsonDecodeError(text))
  }

  const TailMessage: string := "--tail not finshed"

  /** `tail`: the first batch is printed, then the command gives up. */
  function Tail(query: Value, limit: int, aggregate: seq<Stage> -> Results): (p: Printed)
    ensures p.lines == Print(aggregate(Pipeline(query, limit))).lines
    ensures p.fault.Some?
    ensures Print(aggregate(Pipeline(query, limit))).fault.None? ==> p.fault == Some(NotImplementedError(TailMessage))
  {
    var first := Print(aggregate(Pipeline(query, limit)));
    if first.fault.Some? then first else Printed(first.lines, Some(NotImplementedError(TailMessage)))
  }

  /** `handle`: decode the query if one was given, then print one batch,
      or tail. */
  function Handle(o: CommandOptions, decode: string -> Option<Value>, aggregate: seq<Stage> -> Results): (p: Printed)
    ensures Query(o, decode).Err? ==> p == Printed([], Some(Query(o, decode).error))
    ensures Query(o, decode).Ok? && !o.tail ==> p == Print(aggregate(Pipeline(Query(o, decode).value, o.limit)))
    ensures o.tail ==> p.fault.Some?
    ensures Query(o, decode).Ok? && o.tail ==>
      var first := Print(aggregate(Pipeline(Query(o, decode).value, o.limit)));
      && p.lines == first.lines
      && (first.fault.None? ==> p.fault == Some(NotImplementedError(TailMessage)))
  {
    match Query(o, decode)
    case Err(f) => Printed([], Some(f))
    case Ok(q) =>
      if o.tail then Tail(q, o.limit, aggregate)
      else Print(aggregate(Pipeline(q, o.limit)))
  }

  /** Without a query the JSON parser is never consulted, and every row of
      the collection is asked for. */
  lemma HandleWithoutQuery(
    o: CommandOptions, d1: string -> Option<Value>, d2: string -> Option<Value>, aggregate: seq<Stage> -> Results)
    requires o.query.None? || o.query == Some("")
    ensures Handle(o, d1, aggregate) == Handle(o, d2, aggregate)
    ensures !o.tail ==> Handle(o, d1, aggregate) == Print(aggregate(Pipeline(Object([]), o.limit)))
  {
    EmptyQueriesAgree(Query(o, d1).value, Object([]), o.limit);
  }
}
