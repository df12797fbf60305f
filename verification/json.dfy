/** The Python values that flow through the cache and the JSON helpers. */
module Json {
  import opened Wrappers

  /** `Obj` keeps the insertion order of a Python dict; `Opaque` is any object
      that `json.dumps` refuses, and `picklable` says whether `pickle.dumps`
      accepts it. `Null` is Python's `None`. */
  datatype Value =
    | Null
    | Bool(b: bool)
    | Num(n: real)
    | Str(s: string)
    | Arr(items: seq<Value>)
    | Obj(fields: seq<Field>)
    | Opaque(name: string, picklable: bool)

  datatype Field = Field(key: string, val: Value)

  /** Python truthiness (`if value:`). */
  predicate Truthy(v: Value) {
    match v
    case Null => false
    case Bool(b) => b
    case Num(n) => n != 0.0
    case Str(s) => |s| > 0
    case Arr(items) => |items| > 0
    case Obj(fields) => |fields| > 0
    case Opaque(_, _) => true
  }

  /** `json.dumps(v)` succeeds. */
  predicate Encodable(v: Value)
    decreases v
  {
    match v
    case Arr(items) => forall i :: 0 <= i < |items| ==> Encodable(items[i])
    case Obj(fields) => forall i :: 0 <= i < |fields| ==> Encodable(fields[i].val)
    case Opaque(_, _) => false
    case _ => true
  }

  /** `pickle.dumps(v)` succeeds. */
  predicate Picklable(v: Value)
    decreases v
  {
    match v
    case Arr(items) => forall i :: 0 <= i < |items| ==> Picklable(items[i])
    case Obj(fields) => forall i :: 0 <= i < |fields| ==> Picklable(fields[i].val)
    case Opaque(_, p) => p
    case _ => true
  }

  /** `d.get(key)` on a dict. */
  function Get(fields: seq<Field>, key: string): Option<Value>
    decreases |fields|
  {
    if |fields| == 0 then None
    else if fields[0].key == key then Some(fields[0].val)
    else Get(fields[1..], key)
  }

  predicate HasKey(fields: seq<Field>, key: string) {
    Get(fields, key).Some?
  }

  /** `d[key] = v`: overwrite in place, or append a new key. */
  function Put(fields: seq<Field>, key: string, v: Value): seq<Field>
    decreases |fields|
  {
    if |fields| == 0 then [Field(key, v)]
    else if fields[0].key == key then [Field(key, v)] + fields[1..]
    else [fields[0]] + Put(fields[1..], key, v)
  }

  lemma {:induction false} PutGet(fields: seq<Field>, key: string, v: Value, other: string)
    ensures Get(Put(fields, key, v), key) == Some(v)
    ensures other != key ==> Get(Put(fields, key, v), other) == Get(fields, other)
    decreases |fields|
  {
    if |fields| > 0 && fields[0].key != key {
      PutGet(fields[1..], key, v, other);
    }
  }

  /** A key that no field carries reads as absent. */
  lemma {:induction false} GetAbsent(fields: seq<Field>, key: string)
    requires forall i :: 0 <= i < |fields| ==> fields[i].key != key
    ensures Get(fields, key) == None
    decreases |fields|
  {
    if |fields| > 0 {
      GetAbsent(fields[1..], key);
    }
  }

  /** Writing a key its current value leaves the dict as it was. */
  lemma {:induction false} PutSame(fields: seq<Field>, key: string, v: Value)
    requires Get(fields, key) == Some(v)
    ensures Put(fields, key, v) == fields
    decreases |fields|
  {
    if fields[0].key != key {
      PutSame(fields[1..], key, v);
    }
  }

  /** A write never removes a key. */
  lemma {:induction false} PutKeepsKeys(fields: seq<Field>, key: string, v: Value, other: string)
    requires HasKey(fields, other)
    ensures HasKey(Put(fields, key, v), other)
  {
    PutGet(fields, key, v, other);
  }

  /** Keys appear at most once, as in a Python dict. */
  predicate DistinctKeys(fields: seq<Field>) {
    forall i, j :: 0 <= i < j < |fields| ==> fields[i].key != fields[j].key
  }

  /** In a dict every field is found under its own key. */
  lemma {:induction false} GetAt(fields: seq<Field>, i: nat)
    requires DistinctKeys(fields) && i < |fields|
    ensures Get(fields, fields[i].key) == Some(fields[i].val)
    decreases i
  {
    if i > 0 {
      assert fields[0].key != fields[i].key;
      assert DistinctKeys(fields[1..]) by {
        forall a, b | 0 <= a < b < |fields| - 1
          ensures fields[1..][a].key != fields[1..][b].key
        {
          assert fields[1..][a] == fields[a + 1] && fields[1..][b] == fields[b + 1];
        }
      }
      GetAt(fields[1..], i - 1);
      assert fields[1..][i - 1] == fields[i];
    }
  }

  /** Looking a key up in `a + b` finds it in `a` first. */
  lemma {:induction false} GetAppend(a: seq<Field>, b: seq<Field>, key: string)
    ensures Get(a + b, key) == if HasKey(a, key) then Get(a, key) else Get(b, key)
    decreases |a|
  {
    if |a| == 0 {
      assert a + b == b;
    } else {
      assert (a + b)[1..] == a[1..] + b;
      GetAppend(a[1..], b, key);
    }
  }

  /** `dict.update(overlay)` on an insertion-ordered dict. */
  function Update(cfg: seq<Field>, overlay: seq<Field>): seq<Field>
    decreases |overlay|
  {
    if |overlay| == 0 then cfg
    else Update(Put(cfg, overlay[0].key, overlay[0].val), overlay[1..])
  }

  /** After an update, a key reads the overlay's value if the overlay has it and
      the old value otherwise. */
  lemma {:induction false} UpdateGet(cfg: seq<Field>, overlay: seq<Field>, k: string)
    requires DistinctKeys(overlay)
    ensures Get(Update(cfg, overlay), k) == if HasKey(overlay, k) then Get(overlay, k) else Get(cfg, k)
    decreases |overlay|
  {
    if |overlay| > 0 {
      var c1 := Put(cfg, overlay[0].key, overlay[0].val);
      assert DistinctKeys(overlay[1..]) by {
        forall i, j | 0 <= i < j < |overlay[1..]| ensures overlay[1..][i].key != overlay[1..][j].key {
          assert overlay[1..][i] == overlay[i + 1] && overlay[1..][j] == overlay[j + 1];
        }
      }
      UpdateGet(c1, overlay[1..], k);
      PutGet(cfg, overlay[0].key, overlay[0].val, k);
      if overlay[0].key != k && HasKey(overlay[1..], k) {
        assert Get(overlay, k) == Get(overlay[1..], k);
      }
      if overlay[0].key == k {
        NotInRest(overlay, k);
      }
    }
  }

  lemma NotInRest(overlay: seq<Field>, k: string)
    requires |overlay| > 0 && DistinctKeys(overlay) && overlay[0].key == k
    ensures !HasKey(overlay[1..], k)
  {
    if HasKey(overlay[1..], k) {
      var i := GetIndex(overlay[1..], k);
    }
  }

  lemma {:induction false} GetIndex(fields: seq<Field>, k: string) returns (i: int)
    requires HasKey(fields, k)
    ensures 0 <= i < |fields| && fields[i].key == k
    decreases |fields|
  {
    if fields[0].key == k {
      i := 0;
    } else {
      var j := GetIndex(fields[1..], k);
      i := j + 1;
    }
  }

  /** Whatever `json.dumps` accepts, `pickle.dumps` accepts too. */
  lemma EncodableIsPicklable(v: Value)
    ensures Encodable(v) ==> Picklable(v)
  {
  }
}
