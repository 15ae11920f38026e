/** The dictionaries the `to_dict` methods return, as JSON values.
    Objects keep their fields in insertion order, as Python dictionaries do,
    because the order of keys is part of the emitted documents. */
module Json {
  import opened Wrappers

  datatype Json =
    | JNull
    | JBool(b: bool)
    | JInt(i: int)
    | JNum(r: real)
    | JStr(s: string)
    | JArr(items: seq<Json>)
    | JObj(fields: seq<(string, Json)>)

  /** The keys of an object, in order; no keys for any other value. */
  function Keys(j: Json): (ks: seq<string>)
    ensures j.JObj? ==> |ks| == |j.fields|
    ensures j.JObj? ==> forall i :: 0 <= i < |ks| ==> ks[i] == j.fields[i].0
    ensures !j.JObj? ==> ks == []
  {
    if j.JObj? then seq(|j.fields|, i requires 0 <= i < |j.fields| => j.fields[i].0) else []
  }

  /** A dictionary read `d[key]`: the value of the first field named `key`,
      or None when the object has no such field (or `j` is not an object). */
  function Get(j: Json, key: string): Option<Json> {
    if j.JObj? then Find(j.fields, key) else None
  }

  function Find(fields: seq<(string, Json)>, key: string): (r: Option<Json>)
    ensures r.Some? <==> exists i :: 0 <= i < |fields| && fields[i].0 == key
  {
    if |fields| == 0 then None
    else if fields[0].0 == key then Some(fields[0].1)
    else
      var r := Find(fields[1..], key);
      assert forall i :: 1 <= i < |fields| ==> fields[i] == fields[1..][i - 1];
      r
  }

  predicate HasKey(j: Json, key: string) {
    Get(j, key).Some?
  }

  /** No key occurs twice. */
  predicate NoDup(ks: seq<string>) {
    forall i, k :: 0 <= i < k < |ks| ==> ks[i] != ks[k]
  }

  /** No two entries share a key, as in every Python dictionary. */
  predicate DistinctKeys(entries: seq<(string, Option<Json>)>) {
    NoDup(EntryKeys(entries))
  }

  /** The fields of a dictionary filled from `entries`, where an entry whose
      value is None is skipped (the `if x is not None: data[k] = x` pattern):
      the present entries, in order. */
  function Present(entries: seq<(string, Option<Json>)>): (fields: seq<(string, Json)>)
    ensures |fields| <= |entries|
  {
    if |entries| == 0 then []
    else
      (if entries[0].1.Some? then [(entries[0].0, entries[0].1.value)] else [])
      + Present(entries[1..])
  }

  /** In a dictionary filled from entries with distinct keys, reading the key
      of an entry gives that entry's value, or nothing if it was skipped. */
  lemma {:induction false} PresentFind(entries: seq<(string, Option<Json>)>)
    requires DistinctKeys(entries)
    ensures forall i :: 0 <= i < |entries| ==> Find(Present(entries), entries[i].0) == entries[i].1
    decreases |entries|
  {
    if |entries| > 0 {
      var rest := Present(entries[1..]);
      assert DistinctKeys(entries[1..]) by {
        forall i, k | 0 <= i < k < |entries[1..]|
          ensures entries[1..][i].0 != entries[1..][k].0
        {
          assert entries[1..][i] == entries[i + 1] && entries[1..][k] == entries[k + 1];
        }
      }
      PresentFind(entries[1..]);
      forall f | 0 <= f < |rest|
        ensures rest[f].0 != entries[0].0
      {
        PresentKeysComeFromEntries(entries[1..], f);
        var i :| 0 <= i < |entries[1..]| && entries[1..][i].0 == rest[f].0;
        assert entries[1..][i] == entries[i + 1];
      }
      var head := if entries[0].1.Some? then [(entries[0].0, entries[0].1.value)] else [];
      assert Present(entries) == head + rest;
      forall i | 0 <= i < |entries|
        ensures Find(head + rest, entries[i].0) == entries[i].1
      {
        if |head| == 1 {
          assert (head + rest)[1..] == rest;
        } else {
          assert head + rest == rest;
        }
        if i > 0 {
          assert entries[i] == entries[1..][i - 1];
        }
      }
    }
  }

  /** Every field of `Present(entries)` carries the key of some entry. */
  lemma {:induction false} PresentKeysComeFromEntries(entries: seq<(string, Option<Json>)>, f: int)
    requires 0 <= f < |Present(entries)|
    ensures exists i :: 0 <= i < |entries| && entries[i].0 == Present(entries)[f].0
    decreases |entries|
  {
    var rest := Present(entries[1..]);
    if entries[0].1.Some? {
      if f == 0 {
        assert entries[0].0 == Present(entries)[f].0;
      } else {
        assert Present(entries)[f] == rest[f - 1];
        PresentKeysComeFromEntries(entries[1..], f - 1);
        var i :| 0 <= i < |entries[1..]| && entries[1..][i].0 == rest[f - 1].0;
        assert entries[i + 1].0 == Present(entries)[f].0;
      }
    } else {
      assert Present(entries) == rest;
      PresentKeysComeFromEntries(entries[1..], f);
      var i :| 0 <= i < |entries[1..]| && entries[1..][i].0 == rest[f].0;
      assert entries[i + 1].0 == Present(entries)[f].0;
    }
  }

  /** The keys of the entries, present or not. */
  function EntryKeys(entries: seq<(string, Option<Json>)>): (ks: seq<string>)
    ensures |ks| == |entries|
    ensures forall i :: 0 <= i < |ks| ==> ks[i] == entries[i].0
  {
    seq(|entries|, i requires 0 <= i < |entries| => entries[i].0)
  }

  /** When every entry is present, the object has exactly the entry keys in order. */
  lemma {:induction false} PresentAll(entries: seq<(string, Option<Json>)>)
    requires forall i :: 0 <= i < |entries| ==> entries[i].1.Some?
    ensures Keys(JObj(Present(entries))) == EntryKeys(entries)
    decreases |entries|
  {
    if |entries| > 0 {
      PresentAll(entries[1..]);
      assert Present(entries) == [(entries[0].0, entries[0].1.value)] + Present(entries[1..]);
    }
  }

  /** Pairs every key with its optional value. */
  function Zip(keys: seq<string>, vals: seq<Option<Json>>): (entries: seq<(string, Option<Json>)>)
    requires |keys| == |vals|
    ensures EntryKeys(entries) == keys
    ensures forall i :: 0 <= i < |entries| ==> entries[i] == (keys[i], vals[i])
  {
    seq(|keys|, i requires 0 <= i < |keys| => (keys[i], vals[i]))
  }

  /** Builds a dictionary as a `to_dict` does, from its key layout and the
      optional value of each key: the keys whose value is present, in layout
      order, each with its value. `ObjGet` and `ObjKeys` state
      what a reader of the dictionary sees. */
  function Obj(keys: seq<string>, vals: seq<Option<Json>>): (j: Json)
    requires |keys| == |vals|
    ensures j.JObj?
  {
    JObj(Present(Zip(keys, vals)))
  }

  /** With distinct keys, reading any key of the layout gives its value, or
      nothing when the value was absent and the key was skipped. */
  lemma ObjGet(keys: seq<string>, vals: seq<Option<Json>>)
    requires |keys| == |vals| && NoDup(keys)
    ensures forall i :: 0 <= i < |keys| ==> Get(Obj(keys, vals), keys[i]) == vals[i]
  {
    PresentFind(Zip(keys, vals));
  }

  /** When every value is present the object has exactly the layout's keys,
      in the layout's order. */
  lemma ObjKeys(keys: seq<string>, vals: seq<Option<Json>>)
    requires |keys| == |vals|
    requires forall i :: 0 <= i < |vals| ==> vals[i].Some?
    ensures Keys(Obj(keys, vals)) == keys
  {
    PresentAll(Zip(keys, vals));
  }

  /** When the first `n` values are present, the object starts with the
      first `n` keys of the layout, whatever follows. */
  lemma ObjPrefix(keys: seq<string>, vals: seq<Option<Json>>, n: nat)
    requires |keys| == |vals| && n <= |keys|
    requires forall i :: 0 <= i < n ==> vals[i].Some?
    ensures |Keys(Obj(keys, vals))| >= n && Keys(Obj(keys, vals))[..n] == keys[..n]
  {
    PresentPrefix(Zip(keys, vals), n);
  }

  lemma {:induction false} PresentPrefix(entries: seq<(string, Option<Json>)>, n: nat)
    requires n <= |entries|
    requires forall i :: 0 <= i < n ==> entries[i].1.Some?
    ensures |Present(entries)| >= n
    ensures forall i :: 0 <= i < n ==> Present(entries)[i].0 == entries[i].0
    decreases n
  {
    if n > 0 {
      var rest := Present(entries[1..]);
      PresentPrefix(entries[1..], n - 1);
      assert Present(entries) == [(entries[0].0, entries[0].1.value)] + rest;
      forall i | 0 < i < n
        ensures Present(entries)[i].0 == entries[i].0
      {
        assert Present(entries)[i] == rest[i - 1];
        assert entries[1..][i - 1] == entries[i];
      }
    }
  }

  /** The value of a key that is always emitted. */
  function Req(value: Json): Option<Json> {
    Some(value)
  }

  /** The value of a key emitted only when the field is not None. */
  function Opt<T>(value: Option<T>, enc: T -> Json): Option<Json> {
    if value.Some? then Some(enc(value.value)) else None
  }

  function Float(x: real): Json {
    JNum(x)
  }

  function Str(s: string): Json {
    JStr(s)
  }

  /** A JSON array holding the encoding of every element, in order. */
  function Arr<T>(xs: seq<T>, enc: T -> Json): (j: Json)
    ensures j.JArr? && |j.items| == |xs|
  {
    JArr(seq(|xs|, i requires 0 <= i < |xs| => enc(xs[i])))
  }

  function Strs(xs: seq<string>): Json {
    Arr(xs, Str)
  }

  function Nums(xs: seq<real>): Json {
    Arr(xs, Float)
  }

  // Decoding: how a consumer of the documents reads each value back.

  function AsNum(j: Json): Option<real> {
    if j.JNum? then Some(j.r) else None
  }

  function AsInt(j: Json): Option<int> {
    if j.JInt? then Some(j.i) else None
  }

  function AsStr(j: Json): Option<string> {
    if j.JStr? then Some(j.s) else None
  }

  function AsBool(j: Json): Option<bool> {
    if j.JBool? then Some(j.b) else None
  }

  /** Any value at all: the decoder of opaque payloads. */
  function AsAny(j: Json): Option<Json> {
    Some(j)
  }

  /** Reads a required field. */
  function Field<T>(j: Json, key: string, dec: Json -> Option<T>): Option<T> {
    var v :- Get(j, key);
    dec(v)
  }

  /** Reads an optional field: a missing key reads as None, a present key
      must decode. */
  function OptField<T>(j: Json, key: string, dec: Json -> Option<T>): Option<Option<T>> {
    match Get(j, key)
    case None => Some(None)
    case Some(v) =>
      var x :- dec(v);
      Some(Some(x))
  }

  /** Decodes every element of an array, failing if any element fails. */
  function DecodeArr<T>(j: Json, dec: Json -> Option<T>): Option<seq<T>> {
    if j.JArr? then DecodeAll(j.items, dec) else None
  }

  function DecodeAll<T>(items: seq<Json>, dec: Json -> Option<T>): Option<seq<T>> {
    if |items| == 0 then Some([])
    else
      var x :- dec(items[0]);
      var xs :- DecodeAll(items[1..], dec);
      Some([x] + xs)
  }

  function AsStrs(j: Json): Option<seq<string>> {
    DecodeArr(j, AsStr)
  }

  function AsNums(j: Json): Option<seq<real>> {
    DecodeArr(j, AsNum)
  }

  /** Decoding an encoded array gives back the original elements, provided
      each element decodes back to itself. */
  lemma {:induction false} ArrRoundTrip<T>(xs: seq<T>, enc: T -> Json, dec: Json -> Option<T>)
    requires forall x :: x in xs ==> dec(enc(x)) == Some(x)
    ensures DecodeArr(Arr(xs, enc), dec) == Some(xs)
    decreases |xs|
  {
    var items := Arr(xs, enc).items;
    if |xs| > 0 {
      assert items[0] == enc(xs[0]);
      assert items[1..] == Arr(xs[1..], enc).items;
      ArrRoundTrip(xs[1..], enc, dec);
      assert [xs[0]] + xs[1..] == xs;
    }
  }

  lemma StrsRoundTrip(xs: seq<string>)
    ensures AsStrs(Strs(xs)) == Some(xs)
  {
    ArrRoundTrip(xs, Str, AsStr);
  }

  lemma NumsRoundTrip(xs: seq<real>)
    ensures AsNums(Nums(xs)) == Some(xs)
  {
    ArrRoundTrip(xs, Float, AsNum);
  }
}
