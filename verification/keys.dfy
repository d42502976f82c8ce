/** Key sanitising before a record reaches MongoDB (handlers.py `new_key`
    and `check_keys`): `.` and `$` in a key become their full-width forms,
    applied to the keys of the `msg` dict and to the keys of its dict-valued
    entries, two levels and no deeper.

    The loops are modelled over a snapshot of the keys taken before the loop
    starts (what `dict.items()` / `dict.keys()` return under Python 2); each
    step is `d[new_key(k)] = d.pop(k)`. In the insertion order the model
    keeps, the renamed entry is appended. */
module KeyRewrite {
  import opened Outcomes
  import opened Values

  const FullWidthStop: char := '\U{FF0E}'
  const FullWidthDollar: char := '\U{FF04}'

  /** `s.replace(from, to)` for a single character. */
  function Replace(s: string, from: char, to: char): (r: string)
    ensures |r| == |s|
    ensures forall i :: 0 <= i < |s| ==> r[i] == (if s[i] == from then to else s[i])
  {
    if s == [] then [] else [if s[0] == from then to else s[0]] + Replace(s[1..], from, to)
  }

  /** `new_key`: a key holding `.` has every `.` replaced and keeps any `$`
      (the `elif`); otherwise every `$` is replaced. */
  function NewKey(k: string): (r: string)
    ensures |r| == |k|
    ensures '.' !in r
    ensures '.' in k ==>
      forall i :: 0 <= i < |k| ==> r[i] == (if k[i] == '.' then FullWidthStop else k[i])
    ensures '.' !in k ==>
      forall i :: 0 <= i < |k| ==> r[i] == (if k[i] == '$' then FullWidthDollar else k[i])
    ensures '.' in k && '$' in k ==> '$' in r
    ensures '.' !in k ==> '$' !in r
    ensures '.' !in k && '$' !in k ==> r == k
  {
    if '.' in k then Replace(k, '.', FullWidthStop)
    else if '$' in k then Replace(k, '$', FullWidthDollar)
    else k
  }

  /** The inverse substitution: full-width forms back to `.` and `$`. */
  function RestoreKey(k: string): (r: string)
    ensures |r| == |k|
  {
    Replace(Replace(k, FullWidthStop, '.'), FullWidthDollar, '$')
  }

  /** The rewrite loses nothing: a key that did not already use the
      full-width forms is recovered from its rewritten form. */
  lemma RestoreNewKey(k: string)
    requires FullWidthStop !in k && FullWidthDollar !in k
    ensures RestoreKey(NewKey(k)) == k
  {
    var r := RestoreKey(NewKey(k));
    forall i | 0 <= i < |k|
      ensures r[i] == k[i]
    {
      assert k[i] != FullWidthStop && k[i] != FullWidthDollar;
    }
  }

  /** `new_key` is idempotent exactly on keys that do not hold both `.` and
      `$`: a second pass rewrites the `$` the first pass kept. */
  lemma NewKeyIdempotentIff(k: string)
    ensures NewKey(NewKey(k)) == NewKey(k) <==> !('.' in k && '$' in k)
  {
    var r := NewKey(k);
    if '.' in k && '$' in k {
      var i :| 0 <= i < |r| && r[i] == '$';
      assert NewKey(r)[i] == FullWidthDollar;
    }
  }

  /** A concrete key on which a second pass changes the result. */
  lemma NotIdempotentExample()
    ensures NewKey("a.$") == ['a', FullWidthStop, '$']
    ensures NewKey(NewKey("a.$")) == ['a', FullWidthStop, FullWidthDollar]
  {
    assert "a.$"[1] == '.';
    var once := ['a', FullWidthStop, '$'];
    assert NewKey("a.$") == once;
    assert '.' !in once && once[2] == '$';
  }

  /** `d[new_key(k)] = d.pop(k)`: a missing key raises `KeyError`. */
  function RenameStep(d: Dict, k: string): (r: Result<Dict, Fault>)
    ensures r.Err? <==> k !in Keys(d)
    ensures r.Err? ==> r.error == KeyError(k)
    ensures r.Ok? ==> Find(r.value, NewKey(k)) == Find(d, k)
    ensures r.Ok? ==> forall k' :: k' != k && k' != NewKey(k) ==> Find(r.value, k') == Find(d, k')
    ensures r.Ok? && NewKey(k) != k ==> Find(r.value, k) == None && k !in Keys(r.value)
  {
    var v :- Get(d, k);
    var popped := Pop(d, k);
    var r := Put(popped, NewKey(k), v);
    assert NewKey(k) != k ==> k !in Keys(r) by {
      PutKeys(popped, NewKey(k), v);
    }
    FindKeys(r, k);
    Ok(r)
  }

  /** The inner loop over a snapshot of keys. */
  function RenameAll(d: Dict, ks: seq<string>): Result<Dict, Fault>
    decreases |ks|
  {
    if ks == [] then Ok(d)
    else
      var d' :- RenameStep(d, ks[0]);
      RenameAll(d', ks[1..])
  }

  /** The keys of the dict stored under `at` are renamed in turn; a value
      that is not a dict has no `keys()`. */
  function RenameNested(d: Dict, at: string): Result<Dict, Fault>
  {
    var inner :- Get(d, at);
    if !inner.Object? then Err(AttributeError("keys"))
    else
      var renamed :- RenameAll(inner.fields, Keys(inner.fields));
      Ok(Put(d, at, Object(renamed)))
  }

  /** The outer loop of `check_keys` over the snapshot of `msg.items()`.
      After renaming `k`, a dict-valued entry is re-read under `k` itself
      when `rereadRenamed` is false (the code as written) and under
      `new_key(k)`, where the entry now lives, when it is true. */
  function SanitizeFields(d: Dict, snapshot: Dict, rereadRenamed: bool): Result<Dict, Fault>
    decreases |snapshot|
  {
    if snapshot == [] then Ok(d)
    else
      var k := snapshot[0].key;
      var d1 :- RenameStep(d, k);
      var d2 :- if snapshot[0].val.Object? then RenameNested(d1, if rereadRenamed then NewKey(k) else k) else Ok(d1);
      SanitizeFields(d2, snapshot[1..], rereadRenamed)
  }

  /** `check_keys` as written: the nested dict is looked up under the old
      key, which no longer exists once that key has been renamed. */
  function CheckKeysAsWritten(msg: Value): (r: Result<Value, Fault>)
    ensures !msg.Object? ==> r == Ok(msg)
    ensures r.Ok? ==> r.value.Object? == msg.Object?
  {
    if !msg.Object? then Ok(msg)
    else
      var fs :- SanitizeFields(msg.fields, msg.fields, false);
      Ok(Object(fs))
  }

  /** `check_keys` with the nested dict looked up where it was moved to. */
  function CheckKeys(msg: Value): (r: Result<Value, Fault>)
    ensures !msg.Object? ==> r == Ok(msg)
    ensures r.Ok? ==> r.value.Object? == msg.Object?
  {
    if !msg.Object? then Ok(msg)
    else
      var fs :- SanitizeFields(msg.fields, msg.fields, true);
      Ok(Object(fs))
  }

  // ---------------------------------------------------------------------
  // The intended result, defined pointwise

  /** Every key renamed in place, values untouched. */
  function RenameShallow(d: Dict): (r: Dict)
    ensures |r| == |d|
  {
    seq(|d|, i requires 0 <= i < |d| => Field(NewKey(d[i].key), d[i].val))
  }

  /** Top-level keys renamed, and the keys (only) of dict-valued entries. */
  function Sanitized(d: Dict): (r: Dict)
    ensures |r| == |d|
  {
    seq(|d|, i requires 0 <= i < |d| =>
      Field(NewKey(d[i].key), if d[i].val.Object? then Object(RenameShallow(d[i].val.fields)) else d[i].val))
  }

  /** No renamed key collides with another key's new name or with another
      original key; otherwise the in-place loop overwrites entries and its
      result depends on iteration order. */
  predicate RenameSafe(d: Dict) {
    forall i, j :: 0 <= i < |d| && 0 <= j < |d| && i != j ==>
      NewKey(d[i].key) != NewKey(d[j].key) && NewKey(d[i].key) != d[j].key
  }

  predicate SafeToSanitize(d: Dict) {
    && RenameSafe(d)
    && forall i :: 0 <= i < |d| && d[i].val.Object? ==> RenameSafe(d[i].val.fields)
  }

  /** Renaming the head entry of a dict in which neither its key nor its
      new key occurs again moves it, renamed, to the end. */
  lemma RenameHead(f: Field, rest: Dict)
    requires f.key !in Keys(rest) && NewKey(f.key) !in Keys(rest)
    ensures RenameStep([f] + rest, f.key) == Ok(rest + [Field(NewKey(f.key), f.val)])
  {
    PopHead(f, rest);
    PutShape(rest, NewKey(f.key), f.val);
  }

  /** Part-way through the loop, the entry about to be visited clashes with
      no other key, old or new. */
  lemma NextIsFresh(fs: Dict, i: nat, done: Dict)
    requires i < |fs| && RenameSafe(fs)
    requires |done| == i && forall j :: 0 <= j < i ==> done[j].key == NewKey(fs[j].key)
    ensures fs[i].key !in Keys(fs[i+1..] + done) && NewKey(fs[i].key) !in Keys(fs[i+1..] + done)
  {
    var k := fs[i].key;
    var rest := fs[i+1..] + done;
    forall j | 0 <= j < |rest|
      ensures rest[j].key != k && rest[j].key != NewKey(k)
    {
      if j < |fs| - (i + 1) {
        assert rest[j] == fs[i + 1 + j];
      } else {
        assert rest[j] == done[j - (|fs| - (i + 1))];
      }
    }
  }

  lemma ConcatAssoc<T>(a: seq<T>, b: seq<T>, c: seq<T>)
    ensures (a + b) + c == a + (b + c)
  {
  }

  lemma ShallowSnoc(fs: Dict, i: nat)
    requires i < |fs|
    ensures RenameShallow(fs[..i+1]) == RenameShallow(fs[..i]) + [Field(NewKey(fs[i].key), fs[i].val)]
  {
  }

  /** The dict part-way through the loop: unvisited entries first, renamed
      ones after them in visiting order. */
  lemma {:induction false} RenameAllFrom(fs: Dict, i: nat)
    requires i <= |fs| && RenameSafe(fs)
    ensures RenameAll(fs[i..] + RenameShallow(fs[..i]), Keys(fs)[i..]) == Ok(RenameShallow(fs))
    decreases |fs| - i
  {
    if i == |fs| {
      assert fs[..i] == fs;
      assert fs[i..] + RenameShallow(fs[..i]) == RenameShallow(fs);
      assert Keys(fs)[i..] == [];
    } else {
      var done := RenameShallow(fs[..i]);
      var rest := fs[i+1..] + done;
      var ks := Keys(fs)[i..];
      assert fs[i..] + done == [fs[i]] + rest;
      assert ks[0] == fs[i].key && ks[1..] == Keys(fs)[i+1..];
      NextIsFresh(fs, i, done);
      RenameHead(fs[i], rest);
      var x := Field(NewKey(fs[i].key), fs[i].val);
      var next := rest + [x];
      assert RenameAll([fs[i]] + rest, ks) == RenameAll(next, ks[1..]);
      ShallowSnoc(fs, i);
      ConcatAssoc(fs[i+1..], done, [x]);
      RenameAllFrom(fs, i + 1);
    }
  }

  /** The inner loop renames every key of a collision-free dict in place. */
  lemma RenameAllShallow(fs: Dict)
    requires RenameSafe(fs)
    ensures RenameAll(fs, Keys(fs)) == Ok(RenameShallow(fs))
  {
    assert fs[0..] + RenameShallow(fs[..0]) == fs;
    RenameAllFrom(fs, 0);
  }

  lemma SanitizedSnoc(fs: Dict, i: nat)
    requires i < |fs|
    ensures Sanitized(fs[..i+1]) == Sanitized(fs[..i]) + [Sanitized(fs[..i+1])[i]]
  {
  }

  /** The nested step on the entry just moved to the end. */
  lemma NestedAtEnd(rest: Dict, k: string, v: Value)
    requires k !in Keys(rest) && v.Object? && RenameSafe(v.fields)
    ensures RenameNested(rest + [Field(k, v)], k) == Ok(rest + [Field(k, Object(RenameShallow(v.fields)))])
  {
    FindPastPrefix(rest, [Field(k, v)], k);
    RenameAllShallow(v.fields);
    PutLast(rest, k, v, Object(RenameShallow(v.fields)));
  }

  lemma {:induction false} SanitizeFrom(fs: Dict, i: nat)
    requires i <= |fs| && SafeToSanitize(fs)
    ensures SanitizeFields(fs[i..] + Sanitized(fs[..i]), fs[i..], true) == Ok(Sanitized(fs))
    decreases |fs| - i
  {
    if i == |fs| {
      assert fs[..i] == fs;
      assert fs[i..] + Sanitized(fs[..i]) == Sanitized(fs);
    } else {
      var k := fs[i].key;
      var v := fs[i].val;
      var done := Sanitized(fs[..i]);
      var rest := fs[i+1..] + done;
      assert fs[i..] + done == [fs[i]] + rest;
      assert fs[i..][0] == fs[i] && fs[i..][1..] == fs[i+1..];
      NextIsFresh(fs, i, done);
      RenameHead(fs[i], rest);
      var d1 := rest + [Field(NewKey(k), v)];
      var y := Sanitized(fs[..i+1])[i];
      SanitizedSnoc(fs, i);
      ConcatAssoc(fs[i+1..], done, [y]);
      assert SanitizeFields([fs[i]] + rest, fs[i..], true)
          == SanitizeFields(rest + [y], fs[i+1..], true) by {
        if v.Object? {
          NestedAtEnd(rest, NewKey(k), v);
        } else {
          assert d1 == rest + [y];
        }
      }
      SanitizeFrom(fs, i + 1);
    }
  }

  /** `check_keys` (with the nested lookup under the new key) renames the
      top-level keys of `msg` and the keys of its dict-valued entries, in
      place and in order, keeps every value, and leaves deeper levels alone. */
  lemma CheckKeysRenames(msg: Value)
    requires msg.Object? && SafeToSanitize(msg.fields)
    ensures CheckKeys(msg) == Ok(Object(Sanitized(msg.fields)))
  {
    var fs := msg.fields;
    assert fs[0..] + Sanitized(fs[..0]) == fs;
    SanitizeFrom(fs, 0);
  }

  /** The code as written agrees with the corrected loop whenever no
      dict-valued entry has its key renamed. */
  lemma {:induction false} AsWrittenAgrees(d: Dict, snapshot: Dict)
    requires forall i :: 0 <= i < |snapshot| && snapshot[i].val.Object? ==> NewKey(snapshot[i].key) == snapshot[i].key
    ensures SanitizeFields(d, snapshot, false) == SanitizeFields(d, snapshot, true)
    decreases |snapshot|
  {
    if snapshot != [] {
      var k := snapshot[0].key;
      match RenameStep(d, k)
      case Err(_) =>
      case Ok(d1) =>
        var d2 := if snapshot[0].val.Object? then RenameNested(d1, k) else Ok(d1);
        if d2.Ok? {
          AsWrittenAgrees(d2.value, snapshot[1..]);
        }
    }
  }

  lemma CheckKeysAsWrittenAgrees(msg: Value)
    requires msg.Object?
    requires forall i :: 0 <= i < |msg.fields| && msg.fields[i].val.Object? ==>
      NewKey(msg.fields[i].key) == msg.fields[i].key
    ensures CheckKeysAsWritten(msg) == CheckKeys(msg)
  {
    AsWrittenAgrees(msg.fields, msg.fields);
  }

  /** A message whose dict-valued key holds a `.`: the code as written
      raises `KeyError` on it. */
  lemma AsWrittenRejectsRenamedNested()
    ensures CheckKeysAsWritten(Object([Field("a.b", Object([Field("c", Int(1))]))])) == Err(KeyError("a.b"))
  {
    var inner := [Field("c", Int(1))];
    var fs := [Field("a.b", Object(inner))];
    assert "a.b"[1] == '.';
    var renamed := ['a', FullWidthStop, 'b'];
    assert NewKey("a.b") == renamed;
    var d1 := [Field(renamed, Object(inner))];
    assert RenameStep(fs, "a.b") == Ok(d1) by {
      PopHead(fs[0], []);
    }
    assert Keys(d1) == [renamed];
    assert "a.b" !in Keys(d1);
    assert RenameNested(d1, "a.b") == Err(KeyError("a.b"));
    assert SanitizeFields(fs, fs, false) == Err(KeyError("a.b"));
  }

  /** The same message under the corrected loop: both levels renamed. */
  lemma CorrectedRenamesNested()
    ensures CheckKeys(Object([Field("a.b", Object([Field("c", Int(1))]))]))
         == Ok(Object([Field(['a', FullWidthStop, 'b'], Object([Field("c", Int(1))]))]))
  {
    var inner := [Field("c", Int(1))];
    var fs := [Field("a.b", Object(inner))];
    assert "a.b"[1] == '.';
    assert NewKey("a.b") == ['a', FullWidthStop, 'b'];
    assert NewKey("c") == "c";
    assert RenameShallow(inner) == inner by {
      assert RenameShallow(inner)[0] == Field(NewKey("c"), Int(1));
    }
    assert Sanitized(fs) == [Field(['a', FullWidthStop, 'b'], Object(inner))] by {
      assert Sanitized(fs)[0] == Field(NewKey("a.b"), Object(RenameShallow(inner)));
    }
    assert SafeToSanitize(fs);
    CheckKeysRenames(Object(fs));
  }

  /** A key holding both `.` and `$` keeps its `$`. */
  lemma DollarDotKeepsDollar()
    ensures CheckKeys(Object([Field("$a.b", Int(1))])) == Ok(Object([Field(['$', 'a', FullWidthStop, 'b'], Int(1))]))
  {
    var fs := [Field("$a.b", Int(1))];
    assert "$a.b"[2] == '.';
    assert NewKey("$a.b") == ['$', 'a', FullWidthStop, 'b'];
    assert Sanitized(fs) == [Field(['$', 'a', FullWidthStop, 'b'], Int(1))] by {
      assert Sanitized(fs)[0] == Field(NewKey("$a.b"), Int(1));
    }
    assert SafeToSanitize(fs);
    CheckKeysRenames(Object(fs));
  }

  /** A one-entry message whose key holds neither `.` nor `$`, and whose
      value is not a dict, passes `check_keys` unchanged. */
  lemma PlainEntryKept(k: string, v: Value)
    requires '.' !in k && '$' !in k && !v.Object?
    ensures CheckKeys(Object([Field(k, v)])) == Ok(Object([Field(k, v)]))
  {
    var fs := [Field(k, v)];
    assert Sanitized(fs) == fs by {
      assert Sanitized(fs)[0] == Field(NewKey(k), v);
    }
    assert SafeToSanitize(fs);
    CheckKeysRenames(Object(fs));
  }
}
