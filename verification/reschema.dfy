/** The two reshapers and their common `reschema`/`set_parent` protocol
    (src/scammer.py:150-231), and the entry points `reschema_dict` and `reschema_list`
    (src/scammer.py:234-269), as functions of the chain of scopes above the node.

    The class `Nodes.ReSchemaNode` runs the same algorithm on objects and is proved
    equal to these functions; the properties of the engine are proved here. */
module Reschema {
  import opened PyText
  import opened Values
  import opened SchemaData
  import opened Scopes

  /** The four keyword options, all `False` by default. */
  datatype Flags = Flags(addEmptyDict: bool, addEmptyLists: bool, addMissingKeys: bool, raiseMissingKeys: bool)

  const Defaults := Flags(false, false, false, false)

  /** `_ReSchemaDict` or `_ReSchemaList` */
  datatype Kind = DictKind | ListKind

  /** What a template maps a key to: a path string, a nested dict template (resolved in
      the same scope), a list, tuple or set (refused), an embedded node, or any other
      value (a number, `None`, ...), which has no `startswith`. */
  datatype Entry =
    | Path(path: string)
    | Sub(template: Template)
    | Sequence
    | Embedded(node: NodeSpec)
    | Scalar

  /** A dict template, in insertion order. */
  datatype Template = Template(fields: seq<(string, Entry)>)

  /** A node as its constructor received it: which reshaper, its data argument (a dict,
      a list, or a path string to be resolved against the parent), its template and
      its options. */
  datatype NodeSpec = NodeSpec(kind: Kind, source: Value, template: Template, flags: Flags)

  /** What `reschema()` returns: the node itself while it waits for a parent, or a value. */
  datatype Outcome = Unresolved(node: NodeSpec) | Resolved(value: Value)

  /** `_schema_path`: the data argument when it is a string (src/scammer.py:93-99). */
  function PathOf(source: Value): (p: Option<string>)
    ensures p.Some? <==> source.Str?
    ensures source.Str? ==> p == Some(source.s)
  {
    if source.Str? then Some(source.s) else None
  }

  /** The scope a node has after `set_parent(parent)` (src/scammer.py:150-159): a node
      with a non-empty path resolves `'../' + path` against itself, now that it has a
      parent, and keeps the raw result; any other node keeps its scope. */
  function AttachScope(parent: seq<Scope>, own: Scope, schemaPath: Option<string>, raise: bool): (r: Result<Scope>)
    requires |parent| > 0
    ensures (schemaPath.None? || schemaPath.value == "") ==> r == Ok(own)
    ensures r.Ok? && r.value.Wrapped? ==> r.value == own
    ensures schemaPath.Some? && schemaPath.value != "" ==>
      r == (match Get(parent + [own], |parent| - 1, schemaPath.value, raise, Some(|parent|))
            case Err(e) => Err(e)
            case Ok(v) => Ok(Raw(v)))
  {
    if schemaPath.Some? && schemaPath.value != "" then
      var path := "../" + schemaPath.value;
      assert StartsWith(path, "../") && path[3..] == schemaPath.value;
      match Get(parent + [own], |parent|, path, raise, None)
      case Err(e) => Err(e)
      case Ok(v) => Ok(Raw(v))
    else
      Ok(own)
  }

  /** The omission policy applied to each resolved value (src/scammer.py:195-206). */
  function Policy(flags: Flags, v: Value): (r: Value)
    ensures r == Undefined <==>
      || (v == Undefined && !flags.addMissingKeys)
      || (v == List([]) && !flags.addEmptyLists)
      || (v == Dict([]) && !flags.addEmptyDict)
    ensures r != Undefined ==> r == v || (v == Undefined && r == Null)
  {
    if v == Undefined && flags.addMissingKeys then Null
    else if (v.List? && |v.items| == 0 && !flags.addEmptyLists) || (v.Dict? && |v.entries| == 0 && !flags.addEmptyDict) then Undefined
    else v
  }

  /** `for o in self.schema_data` on a list node: a list yields its items, a string its
      characters, a dict its keys; a wrapped dict and every other value are not
      iterable. */
  function Elements(s: Scope): (r: Result<seq<Value>>)
    ensures r.Ok? <==> s.Raw? && (s.v.List? || s.v.Str? || s.v.Dict?)
    ensures s.Raw? && s.v.List? ==> r == Ok(s.v.items)
    ensures s.Raw? && s.v.Str? ==>
      r.Ok? && |r.value| == |s.v.s| && forall i :: 0 <= i < |s.v.s| ==> r.value[i] == Str([s.v.s[i]])
    ensures s.Raw? && s.v.Dict? ==>
      r.Ok? && |r.value| == |s.v.entries| && forall i :: 0 <= i < |s.v.entries| ==> r.value[i] == Str(s.v.entries[i].0)
  {
    match s
    case Wrapped(_) => Err(TypeMismatch)
    case Raw(v) =>
      match v
      case List(xs) => Ok(xs)
      case Str(cs) => Ok(seq(|cs|, i requires 0 <= i < |cs| => Str([cs[i]])))
      case Dict(kvs) => Ok(seq(|kvs|, i requires 0 <= i < |kvs| => Str(kvs[i].0)))
      case _ => Err(TypeMismatch)
  }

  /** The value one template entry resolves to, before the omission policy, for the dict
      node whose chain is `chain` (src/scammer.py:184-193). */
  function FieldValue(chain: seq<Scope>, e: Entry, flags: Flags): Result<Value>
    requires |chain| > 0
    decreases e, 0, 0
  {
    match e
    case Sequence => Err(ListInTemplate)
    case Scalar => Err(TypeMismatch)
    case Sub(t) =>
      (match DictFields(chain, t, flags, |t.fields|)
       case Err(x) => Err(x)
       case Ok(kvs) => Ok(Dict(kvs)))
    case Embedded(node) => Attached(chain, node.kind, node.source, node.template, node.flags)
    case Path(p) => Get(chain, |chain| - 1, p, flags.raiseMissingKeys, None)
  }

  /** The dict `_ReSchemaDict._reschema` has built after the first `n` entries of the
      template (src/scammer.py:177-210). */
  function DictFields(chain: seq<Scope>, t: Template, flags: Flags, n: nat): Result<seq<(string, Value)>>
    requires |chain| > 0 && n <= |t.fields|
    decreases t, 0, n
  {
    if n == 0 then Ok([])
    else
      match DictFields(chain, t, flags, n - 1)
      case Err(x) => Err(x)
      case Ok(acc) =>
        match FieldValue(chain, t.fields[n - 1].1, flags)
        case Err(x) => Err(x)
        case Ok(v) =>
          var d := Policy(flags, v);
          Ok(if d == Undefined then acc else Put(acc, t.fields[n - 1].0, d))
  }

  /** The list `_ReSchemaList._reschema` has built after the first `n` elements
      (src/scammer.py:214-231): each element becomes a dict node over that element,
      attached to the list node, and its result is kept when `len` of it is not zero
      or empty dicts are wanted. */
  function ListElements(chain: seq<Scope>, t: Template, flags: Flags, elems: seq<Value>, n: nat): Result<seq<Value>>
    requires |chain| > 0 && n <= |elems|
    decreases t, 3, n
  {
    if n == 0 then Ok([])
    else
      match ListElements(chain, t, flags, elems, n - 1)
      case Err(x) => Err(x)
      case Ok(acc) =>
        match Attached(chain, DictKind, elems[n - 1], t, flags)
        case Err(x) => Err(x)
        case Ok(r) =>
          match Len(r)
          case Err(x) => Err(x)
          case Ok(len) => Ok(if len != 0 || flags.addEmptyDict then acc + [r] else acc)
  }

  /** `reschema()` of a node that is not waiting for a parent, whose chain (ancestors
      and then itself) is `chain` (src/scammer.py:168-170). */
  function Reschemed(chain: seq<Scope>, kind: Kind, t: Template, flags: Flags): Result<Value>
    requires |chain| > 0
    decreases t, if kind == DictKind then 1 else 4, 0
  {
    var own := chain[|chain| - 1];
    if own == Raw(Undefined) then Ok(Undefined)
    else
      match kind
      case DictKind =>
        (match DictFields(chain, t, flags, |t.fields|)
         case Err(x) => Err(x)
         case Ok(kvs) => Ok(Dict(kvs)))
      case ListKind =>
        match Elements(own)
        case Err(x) => Err(x)
        case Ok(elems) =>
          match ListElements(chain, t, flags, elems, |elems|)
          case Err(x) => Err(x)
          case Ok(xs) => Ok(List(xs))
  }

  /** `node.set_parent(p); node.reschema()` for a node freshly built from `source`,
      where `parent` is the chain of `p` (src/scammer.py:190-191, 226-227). */
  function Attached(parent: seq<Scope>, kind: Kind, source: Value, t: Template, flags: Flags): Result<Value>
    requires |parent| > 0
    decreases t, if kind == DictKind then 2 else 5, 0
  {
    match AttachScope(parent, ScopeOf(source), PathOf(source), flags.raiseMissingKeys)
    case Err(x) => Err(x)
    case Ok(s) => Reschemed(parent + [s], kind, t, flags)
  }

  /** `reschema_dict(data, template, ...)` and `reschema_list(data, template, ...)`: a
      root node built over `data`; a string `data` makes a node that waits for a parent
      and is returned itself, ready to be embedded in another template. */
  function EntryPoint(kind: Kind, data: Value, t: Template, flags: Flags): (r: Result<Outcome>)
    ensures data.Str? ==> r == Ok(Unresolved(NodeSpec(kind, data, t, flags)))
    ensures data == Undefined ==> r == Ok(Resolved(Undefined))
    ensures r.Ok? && r.value.Unresolved? ==> data.Str?
  {
    if data.Str? then Ok(Unresolved(NodeSpec(kind, data, t, flags)))
    else
      match Reschemed([ScopeOf(data)], kind, t, flags)
      case Err(x) => Err(x)
      case Ok(v) => Ok(Resolved(v))
  }

  /** One step of the dict walk, spelt out. */
  lemma DictFieldsStep(chain: seq<Scope>, t: Template, flags: Flags, n: nat, acc: seq<(string, Value)>, v: Value)
    requires |chain| > 0 && 0 < n <= |t.fields|
    requires DictFields(chain, t, flags, n - 1) == Ok(acc)
    requires FieldValue(chain, t.fields[n - 1].1, flags) == Ok(v)
    ensures var p := Policy(flags, v);
      DictFields(chain, t, flags, n) == Ok(if p == Undefined then acc else Put(acc, t.fields[n - 1].0, p))
  {
  }

  /** An error stops the dict walk: once the first `m` entries fail, so do the first `n`. */
  lemma {:induction false} DictFieldsSticks(chain: seq<Scope>, t: Template, flags: Flags, m: nat, n: nat)
    requires |chain| > 0 && m <= n <= |t.fields|
    requires DictFields(chain, t, flags, m).Err?
    ensures DictFields(chain, t, flags, n) == DictFields(chain, t, flags, m)
    decreases n
  {
    if n > m {
      DictFieldsSticks(chain, t, flags, m, n - 1);
    }
  }

  /** An error stops the list walk: once the first `m` elements fail, so do the first `n`. */
  lemma {:induction false} ListElementsSticks(chain: seq<Scope>, t: Template, flags: Flags, elems: seq<Value>, m: nat, n: nat)
    requires |chain| > 0 && m <= n <= |elems|
    requires ListElements(chain, t, flags, elems, m).Err?
    ensures ListElements(chain, t, flags, elems, n) == ListElements(chain, t, flags, elems, m)
    decreases n
  {
    if n > m {
      ListElementsSticks(chain, t, flags, elems, m, n - 1);
    }
  }

  /** A list, tuple or set among the template entries is refused as soon as the walk
      reaches it. */
  lemma ListEntryRefused(chain: seq<Scope>, t: Template, flags: Flags, j: nat)
    requires |chain| > 0 && j < |t.fields| && t.fields[j].1 == Sequence
    requires DictFields(chain, t, flags, j).Ok?
    ensures DictFields(chain, t, flags, |t.fields|) == Err(ListInTemplate)
  {
    DictFieldsSticks(chain, t, flags, j + 1, |t.fields|);
  }

  /** `out` pairs, in order, every position `j` of `vals` whose value is not
      `undefined` with the key at position `j` of `fields` and that value, and holds
      nothing else; `idx` gives the position of each entry of `out`. */
  predicate Selection<T>(fields: seq<(string, T)>, vals: seq<Value>, out: seq<(string, Value)>, idx: seq<nat>)
    requires |vals| <= |fields|
  {
    && |idx| == |out|
    && (forall k :: 0 <= k < |idx| ==> idx[k] < |vals|)
    && (forall k, l :: 0 <= k < l < |idx| ==> idx[k] < idx[l])
    && (forall k :: 0 <= k < |idx| ==> out[k] == (fields[idx[k]].0, vals[idx[k]]))
    && (forall j :: 0 <= j < |vals| ==> (j in idx <==> vals[j] != Undefined))
  }

  /** One more value: `undefined` leaves the selection as it is, and any other value
      is appended under its key, which, the keys being distinct, is not there yet. */
  lemma SelectionExtend<T>(fields: seq<(string, T)>, vals: seq<Value>, out: seq<(string, Value)>, idx: seq<nat>, d: Value)
    requires |vals| < |fields| && DistinctKeys(fields) && Selection(fields, vals, out, idx)
    ensures d == Undefined ==> Selection(fields, vals + [d], out, idx)
    ensures d != Undefined ==>
      && !HasKey(out, fields[|vals|].0)
      && Selection(fields, vals + [d], out + [(fields[|vals|].0, d)], idx + [|vals|])
  {
    var n := |vals|;
    var k := fields[n].0;
    var vs := vals + [d];
    if d != Undefined {
      assert !HasKey(out, k) by {
        forall m | 0 <= m < |out| ensures Keys(out)[m] != k {
          assert out[m].0 == fields[idx[m]].0;
        }
      }
      var out' := out + [(k, d)];
      var idx' := idx + [n];
      forall m | 0 <= m < |idx'|
        ensures out'[m] == (fields[idx'[m]].0, vs[idx'[m]])
      {
        if m < |idx| {
          assert idx'[m] == idx[m] && out'[m] == out[m];
        }
      }
      forall j | 0 <= j < |vs|
        ensures j in idx' <==> vs[j] != Undefined
      {
        assert j in idx' <==> j in idx || j == n;
      }
    } else {
      forall j | 0 <= j < |vs|
        ensures j in idx <==> vs[j] != Undefined
      {
        assert j < n ==> vs[j] == vals[j];
      }
    }
  }

  /** What a dict node builds (src/scammer.py:183-209), for a template whose keys are
      distinct, as a Python dict's are: every entry resolves without error, `vals` holds
      each entry's value after the omission policy, and the output lists, in template
      order, exactly the entries whose value in `vals` is not `undefined`, each with
      that value. */
  lemma {:induction false} DictFieldsSelect(chain: seq<Scope>, t: Template, flags: Flags, n: nat) returns (vals: seq<Value>, idx: seq<nat>)
    requires |chain| > 0 && n <= |t.fields| && DistinctKeys(t.fields)
    requires DictFields(chain, t, flags, n).Ok?
    ensures |vals| == n
    ensures forall j :: 0 <= j < n ==>
      FieldValue(chain, t.fields[j].1, flags).Ok? && vals[j] == Policy(flags, FieldValue(chain, t.fields[j].1, flags).value)
    ensures Selection(t.fields, vals, DictFields(chain, t, flags, n).value, idx)
    decreases n
  {
    if n == 0 {
      vals, idx := [], [];
    } else {
      var pv, prev := DictFieldsSelect(chain, t, flags, n - 1);
      var acc := DictFields(chain, t, flags, n - 1).value;
      var d := Policy(flags, FieldValue(chain, t.fields[n - 1].1, flags).value);
      SelectionExtend(t.fields, pv, acc, prev, d);
      vals := pv + [d];
      forall j | 0 <= j < n
        ensures FieldValue(chain, t.fields[j].1, flags).Ok? && vals[j] == Policy(flags, FieldValue(chain, t.fields[j].1, flags).value)
      {
        if j < n - 1 {
          assert vals[j] == pv[j];
        }
      }
      if d == Undefined {
        assert DictFields(chain, t, flags, n) == Ok(acc);
        idx := prev;
      } else {
        var k := t.fields[n - 1].0;
        PutNew(acc, k, d);
        assert DictFields(chain, t, flags, n) == Ok(acc + [(k, d)]);
        idx := prev + [n - 1];
      }
    }
  }

  /** A dict node's answer, when it succeeds, is `undefined` (its data resolved to
      `undefined`) or a dict. */
  lemma AttachedDictShape(parent: seq<Scope>, source: Value, t: Template, flags: Flags)
    requires |parent| > 0
    ensures var r := Attached(parent, DictKind, source, t, flags);
      r.Ok? ==> r.value == Undefined || r.value.Dict?
  {
  }

  /** What a list node builds (src/scammer.py:218-231): every element, reshaped by a
      dict node over that element attached to the list node, yields a dict, and the
      output is the order-preserving selection of those dicts that leaves out exactly
      the empty ones, unless empty dicts are wanted. `idx` gives the element position
      of each output dict; the output is never longer than the input. */
  lemma {:induction false} ListElementsSelect(chain: seq<Scope>, t: Template, flags: Flags, elems: seq<Value>, n: nat) returns (idx: seq<nat>)
    requires |chain| > 0 && n <= |elems|
    requires ListElements(chain, t, flags, elems, n).Ok?
    ensures var out := ListElements(chain, t, flags, elems, n).value;
      && |idx| == |out| <= n
      && (forall k :: 0 <= k < |idx| ==> idx[k] < n)
      && (forall k, l :: 0 <= k < l < |idx| ==> idx[k] < idx[l])
      && (forall j :: 0 <= j < n ==>
            Attached(chain, DictKind, elems[j], t, flags).Ok? && Attached(chain, DictKind, elems[j], t, flags).value.Dict?)
      && (forall k :: 0 <= k < |idx| ==> out[k] == Attached(chain, DictKind, elems[idx[k]], t, flags).value)
      && (forall j :: 0 <= j < n ==>
            (j in idx <==> flags.addEmptyDict || Attached(chain, DictKind, elems[j], t, flags).value != Dict([])))
    decreases n
  {
    if n == 0 {
      idx := [];
    } else {
      var prev := ListElementsSelect(chain, t, flags, elems, n - 1);
      AttachedDictShape(chain, elems[n - 1], t, flags);
      var r := Attached(chain, DictKind, elems[n - 1], t, flags).value;
      if flags.addEmptyDict || r != Dict([]) {
        idx := prev + [n - 1];
      } else {
        idx := prev;
      }
    }
  }

  /** With `add_empty_dict` every element's dict is kept, in order. */
  lemma ListKeepsAllWithEmptyDicts(chain: seq<Scope>, t: Template, flags: Flags, elems: seq<Value>)
    requires |chain| > 0 && flags.addEmptyDict
    requires ListElements(chain, t, flags, elems, |elems|).Ok?
    ensures var out := ListElements(chain, t, flags, elems, |elems|).value;
      && |out| == |elems|
      && forall j :: 0 <= j < |elems| ==>
           Attached(chain, DictKind, elems[j], t, flags).Ok? && out[j] == Attached(chain, DictKind, elems[j], t, flags).value
  {
    var idx := ListElementsSelect(chain, t, flags, elems, |elems|);
    IncreasingIsIdentity(idx, |elems|);
  }

  /** A strictly increasing sequence of positions below `n` that contains every one of
      them is `0, 1, ..., n - 1`. */
  lemma {:induction false} IncreasingIsIdentity(idx: seq<nat>, n: nat)
    requires forall k :: 0 <= k < |idx| ==> idx[k] < n
    requires forall k, l :: 0 <= k < l < |idx| ==> idx[k] < idx[l]
    requires forall j :: 0 <= j < n ==> j in idx
    ensures |idx| == n && forall k :: 0 <= k < n ==> idx[k] == k
    decreases n
  {
    assert |idx| > 0 ==> idx[0] < n;
    if n > 0 {
      assert n - 1 in idx;
      var last := |idx| - 1;
      assert idx[last] == n - 1 by {
        var p :| 0 <= p < |idx| && idx[p] == n - 1;
        assert idx[p] <= idx[last];
      }
      forall j | 0 <= j < n - 1 ensures j in idx[..last] {
        assert j in idx;
        var p :| 0 <= p < |idx| && idx[p] == j;
        assert p != last;
        assert idx[..last][p] == j;
      }
      IncreasingIsIdentity(idx[..last], n - 1);
      forall k | 0 <= k < n ensures idx[k] == k {
        if k < last { assert idx[k] == idx[..last][k]; }
      }
    }
  }

  /** Re-attachment (src/scammer.py:150-159): a node built from `source` and attached
      once to `p1`, then attached again to `p2`, ends with the scope it would have had
      if it had been attached to `p2` only. A path is resolved afresh each time, and a
      node built from data keeps its data. */
  lemma ReattachResolvesAfresh(p1: seq<Scope>, p2: seq<Scope>, source: Value, raise: bool)
    requires |p1| > 0 && |p2| > 0
    requires AttachScope(p1, ScopeOf(source), PathOf(source), raise).Ok?
    ensures AttachScope(p2, AttachScope(p1, ScopeOf(source), PathOf(source), raise).value, PathOf(source), raise)
         == AttachScope(p2, ScopeOf(source), PathOf(source), raise)
  {
    var path := PathOf(source);
    if path.Some? && path.value != "" {
      var s1 := AttachScope(p1, ScopeOf(source), path, raise).value;
      GetIgnoresRawContent(p2 + [s1], p2 + [ScopeOf(source)], |p2|, |p2| - 1, path.value, raise, Some(|p2|));
    }
  }

  /** Every embedded node of a template is built from caller data, and so are the
      embedded nodes of its own template and of nested dict templates. */
  predicate TemplatePlain(t: Template)
    decreases t, 1
  {
    forall i :: 0 <= i < |t.fields| ==> EntryPlain(t.fields[i].1)
  }

  predicate EntryPlain(e: Entry)
    decreases e, 0
  {
    match e
    case Sub(t) => TemplatePlain(t)
    case Embedded(node) => Plain(node.source) && TemplatePlain(node.template)
    case _ => true
  }

  /** Every node of the chain holds caller data, or `undefined` for a path that led nowhere. */
  predicate ChainPlain(chain: seq<Scope>) {
    forall k :: 0 <= k < |chain| ==>
      match chain[k]
      case Wrapped(data) => PlainEntries(data)
      case Raw(v) => v == Undefined || Plain(v)
  }

  /** Iterating caller data yields caller data. */
  lemma ElementsPlain(s: Scope)
    requires s.Raw? && Plain(s.v) && Elements(s).Ok?
    ensures forall j :: 0 <= j < |Elements(s).value| ==> Plain(Elements(s).value[j])
  {
  }

  /** `undefined` never leaks into what the engine builds from caller data: a template
      entry resolves to `undefined` or caller data, ... */
  lemma {:induction false} FieldValuePlain(chain: seq<Scope>, e: Entry, flags: Flags)
    requires |chain| > 0 && ChainPlain(chain) && EntryPlain(e)
    ensures var r := FieldValue(chain, e, flags); r.Ok? ==> r.value == Undefined || Plain(r.value)
    decreases e, 0, 0
  {
    match e
    case Sub(t) => DictFieldsPlain(chain, t, flags, |t.fields|);
    case Embedded(node) => AttachedPlain(chain, node.kind, node.source, node.template, node.flags);
    case Path(p) => GetPlain(chain, |chain| - 1, p, flags.raiseMissingKeys, None);
    case _ =>
  }

  /** ... a dict node's output holds no `undefined` at any depth, ... */
  lemma {:induction false} DictFieldsPlain(chain: seq<Scope>, t: Template, flags: Flags, n: nat)
    requires |chain| > 0 && n <= |t.fields| && ChainPlain(chain) && TemplatePlain(t)
    ensures var r := DictFields(chain, t, flags, n); r.Ok? ==> PlainEntries(r.value)
    decreases t, 0, n
  {
    if n > 0 {
      DictFieldsPlain(chain, t, flags, n - 1);
      var e := t.fields[n - 1].1;
      assert EntryPlain(e);
      FieldValuePlain(chain, e, flags);
      var r := DictFields(chain, t, flags, n - 1);
      var v := FieldValue(chain, e, flags);
      if r.Ok? && v.Ok? && Policy(flags, v.value) != Undefined {
        PutPlain(r.value, t.fields[n - 1].0, Policy(flags, v.value));
      }
    }
  }

  /** ... a list node's output neither, ... */
  lemma {:induction false} ListElementsPlain(chain: seq<Scope>, t: Template, flags: Flags, elems: seq<Value>, n: nat)
    requires |chain| > 0 && n <= |elems| && ChainPlain(chain) && TemplatePlain(t)
    requires forall j :: 0 <= j < |elems| ==> Plain(elems[j])
    ensures var r := ListElements(chain, t, flags, elems, n); r.Ok? ==> Plain(List(r.value))
    decreases t, 3, n
  {
    if n > 0 {
      ListElementsPlain(chain, t, flags, elems, n - 1);
      AttachedPlain(chain, DictKind, elems[n - 1], t, flags);
    }
  }

  /** ... a node that is not waiting for a parent answers `undefined` or caller data, ... */
  lemma {:induction false} ReschemedPlain(chain: seq<Scope>, kind: Kind, t: Template, flags: Flags)
    requires |chain| > 0 && ChainPlain(chain) && TemplatePlain(t)
    ensures var r := Reschemed(chain, kind, t, flags); r.Ok? ==> r.value == Undefined || Plain(r.value)
    decreases t, if kind == DictKind then 1 else 4, 0
  {
    var own := chain[|chain| - 1];
    if own != Raw(Undefined) {
      match kind
      case DictKind =>
        DictFieldsPlain(chain, t, flags, |t.fields|);
      case ListKind =>
        if Elements(own).Ok? {
          ElementsPlain(own);
          var elems := Elements(own).value;
          ListElementsPlain(chain, t, flags, elems, |elems|);
        }
    }
  }

  /** ... and so does an attached node built from caller data, whatever its path
      resolves to. */
  lemma {:induction false} AttachedPlain(parent: seq<Scope>, kind: Kind, source: Value, t: Template, flags: Flags)
    requires |parent| > 0 && ChainPlain(parent) && Plain(source) && TemplatePlain(t)
    ensures var r := Attached(parent, kind, source, t, flags); r.Ok? ==> r.value == Undefined || Plain(r.value)
    decreases t, if kind == DictKind then 2 else 5, 0
  {
    var own := ScopeOf(source);
    var a := AttachScope(parent, own, PathOf(source), flags.raiseMissingKeys);
    if a.Ok? {
      var chain := parent + [own];
      assert ChainPlain(chain);
      if PathOf(source).Some? && PathOf(source).value != "" {
        GetPlain(chain, |parent| - 1, source.s, flags.raiseMissingKeys, Some(|parent|));
      }
      assert ChainPlain(parent + [a.value]);
      ReschemedPlain(parent + [a.value], kind, t, flags);
    }
  }

  /** `reschema_dict` and `reschema_list` on caller data, when they do not raise, return
      caller data or the pending node itself: `undefined` appears nowhere in the result. */
  lemma EntryPointPlain(kind: Kind, data: Value, t: Template, flags: Flags)
    requires Plain(data) && TemplatePlain(t)
    ensures var r := EntryPoint(kind, data, t, flags);
      r.Ok? && r.value.Resolved? ==> Plain(r.value.value)
  {
    if !data.Str? {
      ReschemedPlain([ScopeOf(data)], kind, t, flags);
    }
  }
}
