/** The engine on small inputs: the difference between a missing key and `None`, the
    three options that govern missing keys and empty containers, and a list node whose
    elements reach back to the outermost data. */
module Examples {
  import opened PyText
  import opened Values
  import opened SchemaData
  import opened Scopes
  import opened Reschema

  const Data := Dict([("a", Null), ("tags", List([]))])
  const Plan := Template([("x", Path("a")), ("y", Path("b"))])

  /** A key that starts with neither `/` nor `.` asks for no climbing. */
  lemma CleanKey(k: string)
    requires k != "" && k[0] != '/' && k[0] != '.'
    ensures Clean(k)
  {
    assert k[..1] == [k[0]];
    assert |k| >= 3 ==> k[..3][0] == k[0];
  }

  /** A plain key asked of the outermost node, which wraps a dict, is looked up directly. */
  lemma RootKey(data: seq<(string, Value)>, k: string, required: bool)
    requires k != "" && '/' !in k && '.' !in k
    ensures Get([Wrapped(data)], 0, k, required, None) == Answer(data, k, required)
    ensures DataGet(data, k) == if HasKey(data, k) then Ok(Lookup(data, k)) else Ok(Undefined)
  {
    assert k[0] in k && k[|k| - 1] in k;
    StripFixed(k, "./");
    assert !StartsWith(k, "../") by { assert k[0] != '.'; }
    WrappedAnswers([Wrapped(data)], 0, k, required, None);
    DataGetKey(data, k);
  }

  /** A key the outermost dict has yields its value. */
  lemma RootFound(data: seq<(string, Value)>, k: string, required: bool, v: Value)
    requires k != "" && '/' !in k && '.' !in k
    requires HasKey(data, k) && Lookup(data, k) == v && v != Undefined
    ensures Get([Wrapped(data)], 0, k, required, None) == Ok(v)
  {
    RootKey(data, k, required);
  }

  /** A key the outermost dict lacks yields `undefined`, or the "does not exist" error
      when it is required. */
  lemma RootMissing(data: seq<(string, Value)>, k: string)
    requires k != "" && '/' !in k && '.' !in k && !HasKey(data, k)
    ensures Get([Wrapped(data)], 0, k, false, None) == Ok(Undefined)
    ensures Get([Wrapped(data)], 0, k, true, None) == Err(SchemaPathError(PathDoesNotExist, k))
  {
    RootKey(data, k, false);
    RootKey(data, k, true);
  }

  /** The dict built from a two-entry template whose entries resolve to values the
      omission policy keeps. */
  lemma TwoFields(chain: seq<Scope>, t: Template, flags: Flags, v1: Value, v2: Value)
    requires |chain| > 0 && |t.fields| == 2 && t.fields[0].0 != t.fields[1].0
    requires FieldValue(chain, t.fields[0].1, flags) == Ok(v1) && FieldValue(chain, t.fields[1].1, flags) == Ok(v2)
    requires Policy(flags, v1) != Undefined && Policy(flags, v2) != Undefined
    ensures DictFields(chain, t, flags, 2) == Ok([(t.fields[0].0, Policy(flags, v1)), (t.fields[1].0, Policy(flags, v2))])
  {
    var acc := [(t.fields[0].0, Policy(flags, v1))];
    DictFieldsStep(chain, t, flags, 1, [], v1);
    assert Put([], t.fields[0].0, Policy(flags, v1)) == acc;
    assert Keys(acc) == [t.fields[0].0];
    PutNew(acc, t.fields[1].0, Policy(flags, v2));
    DictFieldsStep(chain, t, flags, 2, acc, v2);
    assert acc + [(t.fields[1].0, Policy(flags, v2))] == [(t.fields[0].0, Policy(flags, v1)), (t.fields[1].0, Policy(flags, v2))];
  }

  /** The dict built from a two-entry template whose second entry the omission policy
      drops. */
  lemma SecondDropped(chain: seq<Scope>, t: Template, flags: Flags, v1: Value, v2: Value)
    requires |chain| > 0 && |t.fields| == 2
    requires FieldValue(chain, t.fields[0].1, flags) == Ok(v1) && FieldValue(chain, t.fields[1].1, flags) == Ok(v2)
    requires Policy(flags, v1) != Undefined && Policy(flags, v2) == Undefined
    ensures DictFields(chain, t, flags, 2) == Ok([(t.fields[0].0, Policy(flags, v1))])
  {
    DictFieldsStep(chain, t, flags, 1, [], v1);
    assert Put([], t.fields[0].0, Policy(flags, v1)) == [(t.fields[0].0, Policy(flags, v1))];
    DictFieldsStep(chain, t, flags, 2, [(t.fields[0].0, Policy(flags, v1))], v2);
  }

  /** A two-entry template whose second entry fails fails with that error. */
  lemma SecondFails(chain: seq<Scope>, t: Template, flags: Flags, v1: Value, e: Error)
    requires |chain| > 0 && |t.fields| == 2
    requires FieldValue(chain, t.fields[0].1, flags) == Ok(v1) && FieldValue(chain, t.fields[1].1, flags) == Err(e)
    ensures DictFields(chain, t, flags, 2) == Err(e)
  {
    DictFieldsStep(chain, t, flags, 1, [], v1);
    var p := Policy(flags, v1);
    DictFieldsFail(chain, t, flags, 2, if p == Undefined then [] else Put([], t.fields[0].0, p), e);
  }

  /** A step of the dict walk that fails fails the walk. */
  lemma DictFieldsFail(chain: seq<Scope>, t: Template, flags: Flags, n: nat, acc: seq<(string, Value)>, e: Error)
    requires |chain| > 0 && 0 < n <= |t.fields|
    requires DictFields(chain, t, flags, n - 1) == Ok(acc)
    requires FieldValue(chain, t.fields[n - 1].1, flags) == Err(e)
    ensures DictFields(chain, t, flags, n) == Err(e)
  {
  }

  /** `reschema_dict` over a dict raises what its template's walk raises. */
  lemma EntryDictFail(d: seq<(string, Value)>, t: Template, flags: Flags, e: Error)
    requires DictFields([Wrapped(d)], t, flags, |t.fields|) == Err(e)
    ensures EntryPoint(DictKind, Dict(d), t, flags) == Err(e)
  {
  }

  /** From the third node of a chain whose first node wraps a dict, `../../k` is `k`
      looked up in that dict. */
  lemma ClimbTwo(chain: seq<Scope>, k: string, required: bool)
    requires |chain| == 3 && chain[0].Wrapped?
    requires k != "" && '/' !in k && '.' !in k
    ensures Get(chain, 2, "../../" + k, required, None) == Answer(chain[0].data, k, required)
  {
    assert k[0] in k && k[|k| - 1] in k;
    CleanKey(k);
    assert Ups(2) == "../../";
    UpsClimb(chain, 2, 2, k, required, None);
    StripFixed(k, "./");
    assert !StartsWith(k, "../");
    WrappedAnswers(chain, 0, k, required, Some(1));
  }

  /** ... and finds there a key the dict has. */
  lemma ClimbTwoFound(chain: seq<Scope>, d: seq<(string, Value)>, k: string, v: Value)
    requires |chain| == 3 && chain[0] == Wrapped(d)
    requires k != "" && '/' !in k && '.' !in k
    requires HasKey(d, k) && Lookup(d, k) == v
    ensures Get(chain, 2, "../../" + k, false, None) == Ok(v)
  {
    ClimbTwo(chain, k, false);
    DataGetKey(d, k);
  }

  /** A node attached to the outermost node, which wraps a dict, with a path naming a
      key of that dict takes the key's value as its raw data. */
  lemma AttachFound(d: seq<(string, Value)>, k: string, v: Value, own: Scope)
    requires own.Raw? && k != "" && '/' !in k && '.' !in k
    requires HasKey(d, k) && Lookup(d, k) == v
    ensures AttachScope([Wrapped(d)], own, Some(k), false) == Ok(Raw(v))
  {
    assert k[0] in k && k[|k| - 1] in k;
    StripFixed(k, "./");
    assert !StartsWith(k, "../") by { assert k[0] != '.'; }
    WrappedAnswers([Wrapped(d), own], 0, k, false, Some(1));
    DataGetKey(d, k);
  }

  /** The dict built from a one-entry template whose entry resolves to `v`. */
  lemma OneField(chain: seq<Scope>, k: string, e: Entry, flags: Flags, v: Value)
    requires |chain| > 0
    requires FieldValue(chain, e, flags) == Ok(v)
    ensures var p := Policy(flags, v);
      DictFields(chain, Template([(k, e)]), flags, 1) == Ok(if p == Undefined then [] else [(k, p)])
  {
  }

  /** `reschema_dict` over a dict with a one-entry template whose path resolves to `v`. */
  lemma RootOneEntry(d: seq<(string, Value)>, key: string, p: string, flags: Flags, v: Value)
    requires Get([Wrapped(d)], 0, p, flags.raiseMissingKeys, None) == Ok(v)
    ensures var q := Policy(flags, v);
      EntryPoint(DictKind, Dict(d), Template([(key, Path(p))]), flags) == Ok(Resolved(Dict(if q == Undefined then [] else [(key, q)])))
  {
    OneField([Wrapped(d)], key, Path(p), flags, v);
  }

  /** `reschema_dict` over a dict returns the dict its template builds. */
  lemma EntryDict(d: seq<(string, Value)>, t: Template, flags: Flags, out: seq<(string, Value)>)
    requires DictFields([Wrapped(d)], t, flags, |t.fields|) == Ok(out)
    ensures EntryPoint(DictKind, Dict(d), t, flags) == Ok(Resolved(Dict(out)))
  {
  }

  /** An attached node built from a dict reshapes in a scope that wraps that dict. */
  lemma AttachedData(parent: seq<Scope>, kind: Kind, d: seq<(string, Value)>, t: Template, flags: Flags)
    requires |parent| > 0
    ensures Attached(parent, kind, Dict(d), t, flags) == Reschemed(parent + [Wrapped(d)], kind, t, flags)
  {
  }

  /** An attached node built from a path reshapes in the scope the path resolved to. */
  lemma AttachedPath(parent: seq<Scope>, kind: Kind, p: string, t: Template, flags: Flags, s: Scope)
    requires |parent| > 0 && AttachScope(parent, Raw(Str(p)), Some(p), flags.raiseMissingKeys) == Ok(s)
    ensures Attached(parent, kind, Str(p), t, flags) == Reschemed(parent + [s], kind, t, flags)
  {
  }

  /** A dict node whose data is not `undefined` returns the dict its template builds. */
  lemma ReschemedDict(chain: seq<Scope>, t: Template, flags: Flags, out: seq<(string, Value)>)
    requires |chain| > 0 && chain[|chain| - 1] != Raw(Undefined)
    requires DictFields(chain, t, flags, |t.fields|) == Ok(out)
    ensures Reschemed(chain, DictKind, t, flags) == Ok(Dict(out))
  {
  }

  /** A list node over a raw list returns the list its elements build. */
  lemma ReschemedList(chain: seq<Scope>, t: Template, flags: Flags, xs: seq<Value>, out: seq<Value>)
    requires |chain| > 0 && chain[|chain| - 1] == Raw(List(xs))
    requires ListElements(chain, t, flags, xs, |xs|) == Ok(out)
    ensures Reschemed(chain, ListKind, t, flags) == Ok(List(out))
  {
  }

  /** One step of the list walk that keeps a non-empty dict. */
  lemma ListStep(chain: seq<Scope>, t: Template, flags: Flags, elems: seq<Value>, n: nat, acc: seq<Value>, r: Value)
    requires |chain| > 0 && 0 < n <= |elems|
    requires ListElements(chain, t, flags, elems, n - 1) == Ok(acc)
    requires Attached(chain, DictKind, elems[n - 1], t, flags) == Ok(r)
    requires r.Dict? && |r.entries| > 0
    ensures ListElements(chain, t, flags, elems, n) == Ok(acc + [r])
  {
  }

  /** In `Data`, `a` holds `None` and `b` is absent. */
  lemma DataLookups(required: bool)
    ensures Get([Wrapped(Data.entries)], 0, "a", required, None) == Ok(Null)
    ensures Get([Wrapped(Data.entries)], 0, "b", false, None) == Ok(Undefined)
    ensures Get([Wrapped(Data.entries)], 0, "b", true, None) == Err(SchemaPathError(PathDoesNotExist, "b"))
  {
    assert Keys(Data.entries) == ["a", "tags"];
    assert Lookup(Data.entries, "a") == Null;
    RootFound(Data.entries, "a", required, Null);
    RootMissing(Data.entries, "b");
  }

  /** A key whose value is `None` is kept as `None`; a key that is absent is left out. */
  lemma MissingKeyOmitted()
    ensures EntryPoint(DictKind, Data, Plan, Defaults) == Ok(Resolved(Dict([("x", Null)])))
  {
    DataLookups(false);
    SecondDropped([Wrapped(Data.entries)], Plan, Defaults, Null, Undefined);
    EntryDict(Data.entries, Plan, Defaults, [("x", Null)]);
  }

  /** With `add_missing_keys` an absent key is kept, as `None`. */
  lemma MissingKeyAsNone()
    ensures EntryPoint(DictKind, Data, Plan, Flags(false, false, true, false))
         == Ok(Resolved(Dict([("x", Null), ("y", Null)])))
  {
    DataLookups(false);
    TwoFields([Wrapped(Data.entries)], Plan, Flags(false, false, true, false), Null, Undefined);
    EntryDict(Data.entries, Plan, Flags(false, false, true, false), [("x", Null), ("y", Null)]);
  }

  /** With `raise_missing_keys` an absent key is a "does not exist" error naming the path. */
  lemma MissingKeyRaises()
    ensures EntryPoint(DictKind, Data, Plan, Flags(false, false, false, true))
         == Err(SchemaPathError(PathDoesNotExist, "b"))
  {
    var flags := Flags(false, false, false, true);
    var e := SchemaPathError(PathDoesNotExist, "b");
    DataLookups(true);
    SecondFails([Wrapped(Data.entries)], Plan, flags, Null, e);
    EntryDictFail(Data.entries, Plan, flags, e);
  }

  /** `tags` holds an empty list. */
  lemma TagsLookup()
    ensures Get([Wrapped(Data.entries)], 0, "tags", false, None) == Ok(List([]))
  {
    assert Keys(Data.entries) == ["a", "tags"];
    assert Lookup(Data.entries, "tags") == List([]);
    RootFound(Data.entries, "tags", false, List([]));
  }

  /** An empty list is left out; the result, an empty dict at the top level, is still
      returned. */
  lemma EmptyListOmitted()
    ensures EntryPoint(DictKind, Data, Template([("t", Path("tags"))]), Defaults) == Ok(Resolved(Dict([])))
  {
    TagsLookup();
    RootOneEntry(Data.entries, "t", "tags", Defaults, List([]));
  }

  /** With `add_empty_lists` an empty list is kept. */
  lemma EmptyListKept()
    ensures EntryPoint(DictKind, Data, Template([("t", Path("tags"))]), Flags(false, true, false, false))
         == Ok(Resolved(Dict([("t", List([]))])))
  {
    TagsLookup();
    RootOneEntry(Data.entries, "t", "tags", Flags(false, true, false, false), List([]));
  }

  /** A string passed as data makes the entry point return the node itself, to be
      embedded in another template. */
  lemma PathDataIsPending()
    ensures EntryPoint(ListKind, Str("items"), Plan, Defaults) == Ok(Unresolved(NodeSpec(ListKind, Str("items"), Plan, Defaults)))
  {
  }

  /** Outer data for the nested example: a shared value and a list of records. */
  const Element := Dict([("n", Num(1))])
  const Outer := Dict([("shared", Num(7)), ("items", List([Element]))])
  /** The template of each record: its own `n`, and `shared` two levels up. */
  const Row := Template([("n", Path("n")), ("s", Path("../../shared"))])
  const Nested := Template([("rows", Embedded(NodeSpec(ListKind, Str("items"), Row, Defaults)))])

  /** The list node embedded in `Nested` resolves `items` against the outer data and
      keeps the list as it is, unwrapped. */
  lemma ItemsAttach()
    ensures AttachScope([Wrapped(Outer.entries)], Raw(Str("items")), Some("items"), false) == Ok(Raw(List([Element])))
  {
    assert Keys(Outer.entries) == ["shared", "items"];
    assert Lookup(Outer.entries, "items") == List([Element]);
    AttachFound(Outer.entries, "items", List([Element]), Raw(Str("items")));
  }

  /** The chain of a record of the nested example: outer data, the list node, the record. */
  const RowChain := [Wrapped(Outer.entries), Raw(List([Element])), Wrapped(Element.entries)]
  /** The chain of the list node of the nested example. */
  const ListChain := [Wrapped(Outer.entries), Raw(List([Element]))]

  /** Inside a record, `n` is the record's own field, ... */
  lemma RowOwnField()
    ensures Get(RowChain, 2, "n", false, None) == Ok(Num(1))
  {
    assert Keys(Element.entries) == ["n"];
    CleanKey("n");
    WrappedAnswers(RowChain, 2, "n", false, None);
    StripFixed("n", "./");
    DataGetKey(Element.entries, "n");
  }

  /** ... and `../../shared` climbs past the list node to the outer data. */
  lemma RowSharedField()
    ensures Get(RowChain, 2, "../../shared", false, None) == Ok(Num(7))
  {
    assert Keys(Outer.entries) == ["shared", "items"];
    assert Lookup(Outer.entries, "shared") == Num(7);
    ClimbTwoFound(RowChain, Outer.entries, "shared", Num(7));
    assert "../../" + "shared" == "../../shared";
  }

  /** The record `{"n": 1}` becomes `{"n": 1, "s": 7}`. */
  lemma RowReshaped()
    ensures Attached(ListChain, DictKind, Element, Row, Defaults) == Ok(Dict([("n", Num(1)), ("s", Num(7))]))
  {
    RowOwnField();
    RowSharedField();
    TwoFields(RowChain, Row, Defaults, Num(1), Num(7));
    ReschemedDict(RowChain, Row, Defaults, [("n", Num(1)), ("s", Num(7))]);
    assert ListChain + [Wrapped(Element.entries)] == RowChain;
    AttachedData(ListChain, DictKind, Element.entries, Row, Defaults);
  }

  /** The embedded list node yields the list of reshaped records. */
  lemma RowsReshaped()
    ensures Attached([Wrapped(Outer.entries)], ListKind, Str("items"), Row, Defaults)
         == Ok(List([Dict([("n", Num(1)), ("s", Num(7))])]))
  {
    var row := Dict([("n", Num(1)), ("s", Num(7))]);
    ItemsAttach();
    RowReshaped();
    assert [Element][0] == Element;
    ListStep(ListChain, Row, Defaults, [Element], 1, [], row);
    assert [] + [row] == [row];
    ReschemedList(ListChain, Row, Defaults, [Element], [row]);
    assert [Wrapped(Outer.entries)] + [Raw(List([Element]))] == ListChain;
    AttachedPath([Wrapped(Outer.entries)], ListKind, "items", Row, Defaults, Raw(List([Element])));
  }

  /** A list node embedded in a dict template reshapes every record with the record's
      own data and data shared further out. */
  lemma NestedListReachesOuterData()
    ensures EntryPoint(DictKind, Outer, Nested, Defaults)
         == Ok(Resolved(Dict([("rows", List([Dict([("n", Num(1)), ("s", Num(7))])]))])))
  {
    var rows := List([Dict([("n", Num(1)), ("s", Num(7))])]);
    RowsReshaped();
    OneField([Wrapped(Outer.entries)], "rows", Nested.fields[0].1, Defaults, rows);
    EntryDict(Outer.entries, Nested, Defaults, [("rows", rows)]);
  }

  /** Below a node that wraps a dict, a node with raw data asks a plain key of that
      dict (src/scammer.py:135-137); here the dict lacks the key. */
  lemma RawAsksParent(d: seq<(string, Value)>, v: Value, f: string)
    requires f != "" && '/' !in f && '.' !in f && !HasKey(d, f)
    ensures Get([Wrapped(d), Raw(v)], 1, f, false, None) == Ok(Undefined)
  {
    var chain := [Wrapped(d), Raw(v)];
    assert f[0] in f && f[|f| - 1] in f;
    CleanKey(f);
    StripFixed(f, "./");
    RawForwardsUp(chain, 1, f, false, None);
    assert !StartsWith(f, "../") by { assert f[0] != '.'; }
    WrappedAnswers(chain, 0, f, false, None);
    DataGetKey(d, f);
  }

  /** A node whose path leads to a dict keeps that dict raw (src/scammer.py:157), so it
      never reads it (src/scammer.py:135): a plain key is asked of its parent instead
      (src/scammer.py:136-137). Here the key is absent there, and the node builds an
      empty dict. */
  lemma EmbeddedPathToDict(d: seq<(string, Value)>, k: string, inner: seq<(string, Value)>, f: string)
    requires k != "" && '/' !in k && '.' !in k && HasKey(d, k) && Lookup(d, k) == Dict(inner)
    requires f != "" && '/' !in f && '.' !in f && !HasKey(d, f)
    ensures Attached([Wrapped(d)], DictKind, Str(k), Template([(f, Path(f))]), Defaults) == Ok(Dict([]))
  {
    var own := Raw(Dict(inner));
    var chain := [Wrapped(d), own];
    AttachFound(d, k, Dict(inner), Raw(Str(k)));
    RawAsksParent(d, Dict(inner), f);
    OneField(chain, f, Path(f), Defaults, Undefined);
    ReschemedDict(chain, Template([(f, Path(f))]), Defaults, []);
    assert [Wrapped(d)] + [own] == chain;
    AttachedPath([Wrapped(d)], DictKind, k, Template([(f, Path(f))]), Defaults, own);
  }

  /** ... and, embedded in a one-entry template over the outer dict, that empty dict is
      left out. */
  lemma EmbeddedPathToDictDropped(d: seq<(string, Value)>, key: string, k: string, inner: seq<(string, Value)>, f: string)
    requires k != "" && '/' !in k && '.' !in k && HasKey(d, k) && Lookup(d, k) == Dict(inner)
    requires f != "" && '/' !in f && '.' !in f && !HasKey(d, f)
    ensures EntryPoint(DictKind, Dict(d), Template([(key, Embedded(NodeSpec(DictKind, Str(k), Template([(f, Path(f))]), Defaults)))]), Defaults)
         == Ok(Resolved(Dict([])))
  {
    var e := Embedded(NodeSpec(DictKind, Str(k), Template([(f, Path(f))]), Defaults));
    EmbeddedPathToDict(d, k, inner, f);
    OneField([Wrapped(d)], key, e, Defaults, Dict([]));
  }

  const Holder := Dict([("sub", Dict([("a", Num(1))]))])
  const Pointer := Template([("s", Embedded(NodeSpec(DictKind, Str("sub"), Template([("a", Path("a"))]), Defaults)))])

  /** An embedded dict reshaper whose path reaches the sub-dict `{"a": 1}` cannot read
      `a` from it: it asks the outer data, which has no `a`, so it builds an empty dict,
      which is then left out. */
  lemma RawDictIsNotRead()
    ensures EntryPoint(DictKind, Holder, Pointer, Defaults) == Ok(Resolved(Dict([])))
  {
    assert Keys(Holder.entries) == ["sub"];
    assert Lookup(Holder.entries, "sub") == Dict([("a", Num(1))]);
    EmbeddedPathToDictDropped(Holder.entries, "s", "sub", [("a", Num(1))], "a");
  }
}
