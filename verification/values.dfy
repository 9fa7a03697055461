/** The values that flow through the reshaping engine: the data being reshaped, the
    `undefined` sentinel that marks "no such path", and the errors the engine raises. */
module Values {

  /** A Python value as far as the engine can tell values apart. `Undefined` is the
      module-private sentinel `undefined`, distinct from `Null` (Python's `None`).
      Lists, tuples and sets are all `List`; a dict is an insertion-ordered
      association list from string keys to values. */
  datatype Value =
    | Undefined
    | Null
    | Bool(b: bool)
    | Num(n: int)
    | Str(s: string)
    | List(items: seq<Value>)
    | Dict(entries: seq<(string, Value)>)

  /** Caller data: a value in which the `undefined` sentinel occurs nowhere. */
  predicate Plain(v: Value) {
    match v
    case Undefined => false
    case List(xs) => forall i :: 0 <= i < |xs| ==> Plain(xs[i])
    case Dict(kvs) => forall i :: 0 <= i < |kvs| ==> Plain(kvs[i].1)
    case _ => true
  }

  /** Every value of a dict is caller data. */
  predicate PlainEntries(kvs: seq<(string, Value)>) {
    Plain(Dict(kvs))
  }

  /** The keys of a dict, in insertion order. */
  function Keys<T>(kvs: seq<(string, T)>): (ks: seq<string>)
    ensures |ks| == |kvs| && forall i :: 0 <= i < |kvs| ==> ks[i] == kvs[i].0
  {
    if kvs == [] then [] else [kvs[0].0] + Keys(kvs[1..])
  }

  /** `k in d` */
  predicate HasKey(kvs: seq<(string, Value)>, k: string) {
    k in Keys(kvs)
  }

  /** `d[k]`: the value stored under the first occurrence of `k`. */
  function Lookup(kvs: seq<(string, Value)>, k: string): (v: Value)
    requires HasKey(kvs, k)
    ensures exists i :: 0 <= i < |kvs| && kvs[i] == (k, v)
  {
    if kvs[0].0 == k then kvs[0].1 else Lookup(kvs[1..], k)
  }

  /** `d[k] = v`: an existing key keeps its position and gets the new value, a new key goes at the end. */
  function Put(kvs: seq<(string, Value)>, k: string, v: Value): seq<(string, Value)> {
    if kvs == [] then [(k, v)]
    else if kvs[0].0 == k then [(k, v)] + kvs[1..]
    else [kvs[0]] + Put(kvs[1..], k, v)
  }

  /** After `d[k] = v` the dict has the keys it had, in the same order, plus `k` at the
      end if it was new. */
  lemma {:induction false} PutKeys(kvs: seq<(string, Value)>, k: string, v: Value)
    ensures HasKey(kvs, k) ==> Keys(Put(kvs, k, v)) == Keys(kvs)
    ensures !HasKey(kvs, k) ==> Keys(Put(kvs, k, v)) == Keys(kvs) + [k]
  {
    if kvs != [] {
      assert Keys(kvs) == [kvs[0].0] + Keys(kvs[1..]);
      if kvs[0].0 != k {
        PutKeys(kvs[1..], k, v);
        assert Keys(Put(kvs, k, v)) == [kvs[0].0] + Keys(Put(kvs[1..], k, v));
      }
    }
  }

  /** After `d[k] = v`, `d[k]` is `v` and every other key keeps its value. */
  lemma {:induction false} PutLookup(kvs: seq<(string, Value)>, k: string, v: Value)
    ensures HasKey(Put(kvs, k, v), k) && Lookup(Put(kvs, k, v), k) == v
    ensures forall x :: x != k && HasKey(kvs, x) ==> HasKey(Put(kvs, k, v), x) && Lookup(Put(kvs, k, v), x) == Lookup(kvs, x)
  {
    PutKeys(kvs, k, v);
    if kvs != [] && kvs[0].0 != k {
      PutLookup(kvs[1..], k, v);
      forall x | x != k && HasKey(kvs, x)
        ensures Lookup(Put(kvs, k, v), x) == Lookup(kvs, x)
      {
        if x != kvs[0].0 {
          assert Keys(kvs) == [kvs[0].0] + Keys(kvs[1..]);
        }
      }
    }
  }

  /** Storing caller data in a dict of caller data gives a dict of caller data. */
  lemma {:induction false} PutPlain(kvs: seq<(string, Value)>, k: string, v: Value)
    requires PlainEntries(kvs) && Plain(v)
    ensures PlainEntries(Put(kvs, k, v))
  {
    if kvs != [] && kvs[0].0 != k {
      PutPlain(kvs[1..], k, v);
      var r := Put(kvs, k, v);
      assert r == [kvs[0]] + Put(kvs[1..], k, v);
      forall i | 0 <= i < |r| ensures Plain(r[i].1) {
        if i > 0 { assert r[i] == Put(kvs[1..], k, v)[i - 1]; }
      }
    }
  }

  /** Storing under a key the dict does not have yet appends the pair. */
  lemma {:induction false} PutNew(kvs: seq<(string, Value)>, k: string, v: Value)
    requires !HasKey(kvs, k)
    ensures Put(kvs, k, v) == kvs + [(k, v)]
  {
    if kvs != [] {
      assert Keys(kvs) == [kvs[0].0] + Keys(kvs[1..]);
      PutNew(kvs[1..], k, v);
    }
  }

  /** No key occurs twice. */
  predicate DistinctKeys<T>(kvs: seq<(string, T)>) {
    forall i, j :: 0 <= i < j < |kvs| ==> kvs[i].0 != kvs[j].0
  }

  /** Python's `len(v)`, a `TypeError` for values that have no length. */
  function Len(v: Value): (r: Result<nat>)
    ensures r.Ok? <==> v.Str? || v.List? || v.Dict?
    ensures v.Str? ==> r == Ok(|v.s|)
    ensures v.List? ==> r == Ok(|v.items|)
    ensures v.Dict? ==> r == Ok(|v.entries|)
  {
    match v
    case Str(s) => Ok(|s|)
    case List(xs) => Ok(|xs|)
    case Dict(kvs) => Ok(|kvs|)
    case _ => Err(TypeMismatch)
  }

  /** What a `SchemaPathError` complains about. */
  datatype PathFault =
    | NoMoreParents      // `../` on a node that has no parent
    | BrokenPath         // a lookup nobody can answer
    | PathDoesNotExist   // a required path led to `undefined`

  /** The exceptions the engine raises or lets escape. */
  datatype Error =
    | SchemaPathError(fault: PathFault, path: string)
    | ListInTemplate     // `ValueError`: a list, tuple or set used as a template entry
    | NotADict           // `ValueError`: `_SchemaData` built from something other than a dict
    | TypeMismatch       // a Python `TypeError` or `AttributeError` the code does not catch

  datatype Result<T> = Ok(value: T) | Err(error: Error)

  datatype Option<T> = None | Some(value: T)
}
