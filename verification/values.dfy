/** The values a log record carries once it has been through a JSON round
    trip, plus the datetime stamps the handlers add: a JSON-like tree whose
    objects are Python dicts, modelled as association lists in insertion
    order. Python 2 promises no order for a dict, so the order is this
    model's choice; it fixes the text `str()` gives for a dict, which the
    fingerprint hashes. */
module Values {
  import opened Outcomes

  datatype Value =
    | Null
    | Bool(b: bool)
    | Int(i: int)
    | Str(s: string)
    | Time(stamp: int)            // a datetime, as an abstract instant
    | List(items: seq<Value>)
    | Object(fields: seq<Field>)

  datatype Field = Field(key: string, val: Value)

  /** A Python dict: fields in insertion order. */
  type Dict = seq<Field>

  /** The Python exceptions (and driver errors) the modelled code can raise. */
  datatype Fault =
    | KeyError(key: string)
    | AttributeError(attribute: string)
    | ValueError(message: string)
    | MissingConnectionError
    | WriteError(message: string)
    | LevelNotFound(level: Value)
    | JsonDecodeError(text: string)
    | NotImplementedError(message: string)
    | InvalidDocument

  /** Python truthiness (`if x:`) of a value. */
  predicate Truthy(v: Value) {
    match v
    case Null => false
    case Bool(b) => b
    case Int(i) => i != 0
    case Str(s) => s != ""
    case Time(_) => true
    case List(xs) => xs != []
    case Object(fs) => fs != []
  }

  /** `d.keys()`, in insertion order. */
  function Keys(d: Dict): (r: seq<string>)
    ensures |r| == |d|
    ensures forall i :: 0 <= i < |d| ==> r[i] == d[i].key
  {
    if d == [] then [] else [d[0].key] + Keys(d[1..])
  }

  /** `d.get(k)`: the value stored under `k`, if any. */
  function Find(d: Dict, k: string): Option<Value>
  {
    if d == [] then None
    else if d[0].key == k then Some(d[0].val)
    else Find(d[1..], k)
  }

  /** A lookup succeeds exactly on the dict's keys. */
  lemma {:induction false} FindKeys(d: Dict, k: string)
    ensures Find(d, k).Some? <==> k in Keys(d)
  {
    if d != [] {
      assert Keys(d) == [d[0].key] + Keys(d[1..]);
      FindKeys(d[1..], k);
    }
  }

  /** `d[k]`: a `KeyError` when `k` is missing. */
  function Get(d: Dict, k: string): (r: Result<Value, Fault>)
    ensures r.Ok? <==> k in Keys(d)
    ensures r.Ok? ==> Find(d, k) == Some(r.value)
    ensures r.Err? ==> r.error == KeyError(k)
  {
    FindKeys(d, k);
    match Find(d, k)
    case Some(v) => Ok(v)
    case None => Err(KeyError(k))
  }

  /** `del d[k]`: the entry under `k` disappears, every other entry stays
      where it was. */
  function Pop(d: Dict, k: string): (r: Dict)
    ensures k !in Keys(r)
    ensures forall k' :: k' != k ==> Find(r, k') == Find(d, k')
    ensures forall k' :: k' in Keys(r) <==> k' in Keys(d) && k' != k
  {
    if d == [] then []
    else if d[0].key == k then Pop(d[1..], k)
    else [d[0]] + Pop(d[1..], k)
  }

  /** `d[k] = v`: an existing key keeps its position, a new key goes last. */
  function Put(d: Dict, k: string, v: Value): (r: Dict)
    ensures Find(r, k) == Some(v)
    ensures forall k' :: k' != k ==> Find(r, k') == Find(d, k')
  {
    if d == [] then [Field(k, v)]
    else if d[0].key == k then [Field(k, v)] + d[1..]
    else [d[0]] + Put(d[1..], k, v)
  }

  /** Assigning over a key keeps the length; a new key is appended. */
  lemma {:induction false} PutShape(d: Dict, k: string, v: Value)
    ensures k in Keys(d) ==> |Put(d, k, v)| == |d|
    ensures k !in Keys(d) ==> Put(d, k, v) == d + [Field(k, v)]
  {
    if d != [] && d[0].key != k {
      assert Keys(d) == [d[0].key] + Keys(d[1..]);
      PutShape(d[1..], k, v);
    }
  }

  /** Assigning keeps the key order, appending a new key at the end. */
  lemma {:induction false} PutKeys(d: Dict, k: string, v: Value)
    ensures Keys(Put(d, k, v)) == if k in Keys(d) then Keys(d) else Keys(d) + [k]
  {
    if d != [] && d[0].key != k {
      assert Keys(d) == [d[0].key] + Keys(d[1..]);
      PutKeys(d[1..], k, v);
    }
  }

  /** The dict with keys `ks` and values `vs`, pairwise, in order. */
  function Zip(ks: seq<string>, vs: seq<Value>): (d: Dict)
    requires |ks| == |vs|
    ensures |d| == |ks| && Keys(d) == ks
    ensures forall i :: 0 <= i < |d| ==> d[i] == Field(ks[i], vs[i])
  {
    seq(|ks|, i requires 0 <= i < |ks| => Field(ks[i], vs[i]))
  }

  lemma KeysAppend(d: Dict, f: Field)
    ensures Keys(d + [f]) == Keys(d) + [f.key]
  {
    KeysConcat(d, [f]);
    assert Keys([f]) == [f.key];
  }

  /** `d[k] = v` for a key `d` does not hold yet: the entry goes last and
      every earlier lookup is unchanged. */
  function WithField(d: Dict, k: string, v: Value): (r: Dict)
    requires k !in Keys(d)
    ensures r == Put(d, k, v)
    ensures Keys(r) == Keys(d) + [k]
    ensures Find(r, k) == Some(v)
    ensures forall k' :: k' != k ==> Find(r, k') == Find(d, k')
  {
    var f := Field(k, v);
    PutShape(d, k, v);
    KeysAppend(d, f);
    FindPastPrefix(d, [f], k);
    d + [f]
  }

  /** `d[k] = v` only when `c` holds, for a key `d` does not hold yet. */
  function WithOptional(d: Dict, k: string, v: Value, c: bool): (r: Dict)
    requires k !in Keys(d)
    ensures Keys(r) == Keys(d) + (if c then [k] else [])
    ensures Find(r, k) == (if c then Some(v) else None)
    ensures forall k' :: k' != k ==> Find(r, k') == Find(d, k')
  {
    FindKeys(d, k);
    if c then WithField(d, k, v) else d
  }

  /** Looking up the key at position `i`, when no earlier entry has it. */
  lemma {:induction false} FindAt(d: Dict, i: nat)
    requires i < |d| && forall j :: 0 <= j < i ==> d[j].key != d[i].key
    ensures Find(d, d[i].key) == Some(d[i].val)
  {
    if i > 0 {
      assert d[0].key != d[i].key;
      assert d[1..][i - 1] == d[i];
      FindAt(d[1..], i - 1);
    }
  }


  /** Looking up a key of a zipped dict, when no earlier key repeats it. */
  lemma FindZip(ks: seq<string>, vs: seq<Value>, i: nat)
    requires |ks| == |vs| && i < |ks| && ks[i] !in ks[..i]
    ensures Find(Zip(ks, vs), ks[i]) == Some(vs[i])
  {
    var d := Zip(ks, vs);
    forall j | 0 <= j < i
      ensures d[j].key != d[i].key
    {
      assert ks[..i][j] == ks[j];
    }
    FindAt(d, i);
  }

  lemma KeysConcat(a: Dict, b: Dict)
    ensures Keys(a + b) == Keys(a) + Keys(b)
  {
  }

  /** Looking a key up past a prefix that does not hold it. */
  lemma {:induction false} FindPastPrefix(a: Dict, b: Dict, k: string)
    requires k !in Keys(a)
    ensures Find(a + b, k) == Find(b, k)
  {
    if a != [] {
      assert (a + b)[0] == a[0] && (a + b)[1..] == a[1..] + b;
      assert Keys(a) == [a[0].key] + Keys(a[1..]);
      assert a[0].key != k;
      FindPastPrefix(a[1..], b, k);
    } else {
      assert a + b == b;
    }
  }

  /** Assigning a key that the first `n` entries do not hold leaves those
      entries where they are. */
  lemma {:induction false} PutKeepsPrefix(d: Dict, n: nat, k: string, v: Value)
    requires n <= |d| && forall i :: 0 <= i < n ==> d[i].key != k
    ensures |Put(d, k, v)| >= n
    ensures forall i :: 0 <= i < n ==> Put(d, k, v)[i] == d[i]
  {
    if n > 0 {
      assert d[0].key != k;
      assert forall i :: 0 <= i < n - 1 ==> d[1..][i] == d[i + 1];
      PutKeepsPrefix(d[1..], n - 1, k, v);
      assert Put(d, k, v) == [d[0]] + Put(d[1..], k, v);
    }
  }

  /** Deleting a key that is absent changes nothing. */
  lemma {:induction false} PopAbsent(d: Dict, k: string)
    requires k !in Keys(d)
    ensures Pop(d, k) == d
  {
    if d != [] {
      assert d[0].key == Keys(d)[0];
      PopAbsent(d[1..], k);
    }
  }

  /** Deleting the first key of a dict whose other keys differ from it. */
  lemma PopHead(f: Field, rest: Dict)
    requires f.key !in Keys(rest)
    ensures Pop([f] + rest, f.key) == rest
  {
    assert ([f] + rest)[1..] == rest;
    PopAbsent(rest, f.key);
  }

  /** Overwriting the last key in place. */
  lemma {:induction false} PutLast(a: Dict, k: string, x: Value, y: Value)
    requires k !in Keys(a)
    ensures Put(a + [Field(k, x)], k, y) == a + [Field(k, y)]
  {
    if a != [] {
      var d := a + [Field(k, x)];
      assert d[0] == a[0] && d[1..] == a[1..] + [Field(k, x)];
      assert Keys(a) == [a[0].key] + Keys(a[1..]);
      PutLast(a[1..], k, x, y);
      assert Put(d, k, y) == [a[0]] + (a[1..] + [Field(k, y)]);
      assert [a[0]] + (a[1..] + [Field(k, y)]) == a + [Field(k, y)];
    }
  }
}
