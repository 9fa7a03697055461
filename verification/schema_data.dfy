/** `_SchemaData`: a dict wrapped so that it can answer slash-separated path lookups
    (src/scammer.py:31-53). */
module SchemaData {
  import opened PyText
  import opened Values

  /** What one step of the descent found: the field is absent, or present with a value. */
  datatype Found = Absent | Present(v: Value)

  /** A dict wrapped for path lookups. It never changes after construction. */
  datatype SchemaData = SchemaData(data: seq<(string, Value)>) {

    /** `_SchemaData.get`: strip `/` from both ends, split on `/`, and walk down,
        returning `undefined` at the first absent field. */
    method Get(path: string) returns (r: Result<Value>)
      ensures r == DataGet(data, path)
    {
      var fields := Fields(path);
      var value := Dict(data);
      var i := 0;
      while i < |fields|
        invariant 0 <= i <= |fields|
        invariant Descend(value, fields[i..]) == DataGet(data, path)
      {
        assert fields[i..][1..] == fields[i + 1..];
        var step := Step(value, fields[i]);
        match step {
          case Err(e) =>
            return Err(e);
          case Ok(Absent) =>
            return Ok(Undefined);
          case Ok(Present(w)) =>
            value := w;
        }
        i := i + 1;
      }
      r := Ok(value);
    }
  }

  /** The constructor: anything but a dict is a `ValueError`. */
  function New(v: Value): (r: Result<SchemaData>)
    ensures r.Ok? <==> v.Dict?
    ensures r.Ok? ==> r.value.data == v.entries
    ensures r.Err? ==> r.error == NotADict
  {
    if v.Dict? then Ok(SchemaData(v.entries)) else Err(NotADict)
  }

  /** `field in value` followed by `value[field]`, as Python evaluates them on each kind
      of value: a dict looks the key up; a string tests for a substring and cannot be
      indexed by one; a list tests membership and cannot be indexed by a string; any
      other value does not support `in`. */
  function Step(v: Value, field: string): (r: Result<Found>)
    ensures r == Ok(Absent) ==> !(v.Dict? && HasKey(v.entries, field))
    ensures v.Dict? ==> r.Ok? && (r.value.Present? <==> HasKey(v.entries, field))
    ensures v.Dict? && HasKey(v.entries, field) ==> r == Ok(Present(Lookup(v.entries, field)))
    ensures v.Str? ==> r == if Contains(v.s, field) then Err(TypeMismatch) else Ok(Absent)
    ensures v.List? ==> r == if Str(field) in v.items then Err(TypeMismatch) else Ok(Absent)
    ensures !(v.Dict? || v.Str? || v.List?) ==> r == Err(TypeMismatch)
  {
    match v
    case Dict(kvs) => if HasKey(kvs, field) then Ok(Present(Lookup(kvs, field))) else Ok(Absent)
    case Str(s) => if Contains(s, field) then Err(TypeMismatch) else Ok(Absent)
    case List(xs) => if Str(field) in xs then Err(TypeMismatch) else Ok(Absent)
    case _ => Err(TypeMismatch)
  }

  /** The loop of `_SchemaData.get` from `value` over `fields`. */
  function Descend(v: Value, fields: seq<string>): Result<Value>
    decreases |fields|
  {
    if fields == [] then Ok(v)
    else
      match Step(v, fields[0])
      case Err(e) => Err(e)
      case Ok(Absent) => Ok(Undefined)
      case Ok(Present(w)) => Descend(w, fields[1..])
  }

  /** `path.strip('/').split('/')` */
  function Fields(path: string): seq<string> {
    Split(Strip(path, "/"), '/')
  }

  /** What `_SchemaData(data).get(path)` returns. */
  function DataGet(data: seq<(string, Value)>, path: string): Result<Value> {
    Descend(Dict(data), Fields(path))
  }

  /** Walking down caller data never invents `undefined` except for an absent field:
      the result is `undefined`, caller data, or an error. */
  lemma {:induction false} DescendPlain(v: Value, fields: seq<string>)
    requires Plain(v)
    ensures Descend(v, fields).Ok? ==> Descend(v, fields).value == Undefined || Plain(Descend(v, fields).value)
    decreases |fields|
  {
    if fields != [] {
      match Step(v, fields[0]) {
        case Err(_) =>
        case Ok(Absent) =>
        case Ok(Present(w)) =>
          var i :| 0 <= i < |v.entries| && v.entries[i] == (fields[0], w);
          assert Plain(v.entries[i].1);
          DescendPlain(w, fields[1..]);
      }
    }
  }

  /** Walking `a + b` is walking `a` and then, from where that ended, walking `b`;
      a walk that stopped at an absent field stays stopped. */
  lemma {:induction false} DescendConcat(v: Value, a: seq<string>, b: seq<string>)
    requires Plain(v)
    ensures Descend(v, a + b) ==
      match Descend(v, a)
      case Err(e) => Err(e)
      case Ok(w) => if w == Undefined then Ok(Undefined) else Descend(w, b)
    decreases |a|
  {
    if a == [] {
      assert a + b == b;
    } else {
      assert (a + b)[0] == a[0];
      assert (a + b)[1..] == a[1..] + b;
      match Step(v, a[0]) {
        case Err(_) =>
        case Ok(Absent) =>
        case Ok(Present(w)) =>
          var i :| 0 <= i < |v.entries| && v.entries[i] == (a[0], w);
          assert Plain(v.entries[i].1);
          DescendConcat(w, a[1..], b);
      }
    }
  }

  /** The walk returns `undefined` as soon as it reaches a dict that lacks the next field,
      whatever fields come after it. */
  lemma FirstMissingField(data: seq<(string, Value)>, fields: seq<string>, i: nat, inner: seq<(string, Value)>)
    requires PlainEntries(data) && i < |fields|
    requires Descend(Dict(data), fields[..i]) == Ok(Dict(inner))
    requires !HasKey(inner, fields[i])
    ensures Descend(Dict(data), fields) == Ok(Undefined)
  {
    assert fields == fields[..i] + fields[i..];
    DescendConcat(Dict(data), fields[..i], fields[i..]);
  }

  /** A key without slashes is looked up directly, with or without a slash on either side. */
  lemma DataGetKey(data: seq<(string, Value)>, k: string)
    requires k != "" && '/' !in k
    ensures DataGet(data, k) == (if HasKey(data, k) then Ok(Lookup(data, k)) else Ok(Undefined))
    ensures DataGet(data, "/" + k) == DataGet(data, k)
    ensures DataGet(data, k + "/") == DataGet(data, k)
  {
    assert k[0] in k && k[|k| - 1] in k;
    StripFixed(k, "/");
    SplitNoSeparator(k, '/');
    assert Fields(k) == [k];
    assert [k][1..] == [];
    if HasKey(data, k) {
      assert Step(Dict(data), k) == Ok(Present(Lookup(data, k)));
      assert Descend(Dict(data), [k]) == Descend(Lookup(data, k), []);
    }
    StripLeading('/', k, "/");
    assert "/" + k == ['/'] + k;
    RStripTrailing(k, '/', "/");
    assert LStrip(k + "/", "/") == k + "/";
    SplitNoSeparator(k, '/');
  }

  /** A lookup of `p/q` is the lookup of `p` followed by a walk of `q` from there. */
  lemma DataGetNested(data: seq<(string, Value)>, p: string, q: string)
    requires PlainEntries(data)
    requires p != "" && p[0] != '/' && p[|p| - 1] != '/'
    requires q != "" && q[0] != '/' && q[|q| - 1] != '/'
    ensures DataGet(data, p + "/" + q) ==
      match DataGet(data, p)
      case Err(e) => Err(e)
      case Ok(w) => if w == Undefined then Ok(Undefined) else Descend(w, Fields(q))
  {
    var s := p + "/" + q;
    assert s[0] == p[0] && s[|s| - 1] == q[|q| - 1];
    StripFixed(s, "/");
    StripFixed(p, "/");
    StripFixed(q, "/");
    SplitConcat(p, '/', q);
    DescendConcat(Dict(data), Split(p, '/'), Split(q, '/'));
  }
}
