/** The reshaper objects (src/scammer.py:56-231) and the two entry points
    (src/scammer.py:234-269). A node's fields are updated in place by `set_parent`; its
    two `_reschema` loops build their results step by step. Each method is proved to
    compute what the functions of module `Reschema` specify.

    A node refers to its parent only through the parent's chain of scopes, which is all
    that a lookup reads of it. An embedded template node is described by its
    constructor arguments (`NodeSpec`), and every attachment works on a node built from
    them; `Reschema.ReattachResolvesAfresh` shows that an attachment does not depend on
    any earlier one. */
module Nodes {
  import opened Values
  import opened Scopes
  import opened Reschema

  /** `_ReSchemaDict` and `_ReSchemaList`, told apart by `kind`. */
  class ReSchemaNode {
    const kind: Kind
    const template: Template
    const flags: Flags
    /** `_schema_path`: the data argument when it was a string. */
    const schemaPath: Option<string>
    /** `_schema_data` */
    var schemaData: Scope
    /** `_as_child` */
    var asChild: bool
    /** `_parent`, as the chain of scopes from the outermost node down to the parent. */
    var parent: Option<seq<Scope>>

    /** A node without a parent that calls itself a child was built from a path, and a
        parent's chain is never empty. */
    predicate Valid()
      reads this
    {
      && (asChild && parent.None? ==> schemaPath.Some?)
      && (parent.Some? ==> |parent.value| > 0)
    }

    /** The chain of scopes a lookup on this node walks: the ancestors, then this node. */
    function Chain(): (c: seq<Scope>)
      reads this
      ensures |c| > 0 && c[|c| - 1] == schemaData
    {
      (if parent.Some? then parent.value else []) + [schemaData]
    }

    /** The node waits for a parent before it can resolve anything (src/scammer.py:165). */
    predicate Pending()
      reads this
    {
      asChild && parent.None?
    }

    /** `__init__` (src/scammer.py:70-99): a dict is wrapped, all else is kept as given; a
        string is a path to be resolved once the node has a parent. */
    constructor (kind: Kind, source: Value, template: Template, flags: Flags)
      ensures Valid()
      ensures this.kind == kind && this.template == template && this.flags == flags
      ensures schemaData == ScopeOf(source) && schemaPath == PathOf(source)
      ensures asChild == source.Str? && parent.None?
    {
      this.kind := kind;
      this.template := template;
      this.flags := flags;
      schemaData := ScopeOf(source);
      asChild := source.Str?;
      parent := None;
      schemaPath := PathOf(source);
    }

    /** `set_parent` (src/scammer.py:150-159): the node becomes a child of the node whose
        chain is `p`; a node with a non-empty path replaces its data by what `'../' + path`
        resolves to, with `required` set by `raise_missing_keys`. An error leaves the data
        as it was. */
    method SetParent(p: seq<Scope>) returns (r: Result<()>)
      requires |p| > 0
      modifies this
      ensures Valid()
      ensures asChild && parent == Some(p)
      ensures match AttachScope(p, old(schemaData), schemaPath, flags.raiseMissingKeys)
        case Err(e) => r == Err(e) && schemaData == old(schemaData)
        case Ok(s) => r == Ok(()) && schemaData == s
    {
      asChild := true;
      parent := Some(p);
      r := Ok(());
      if schemaPath.Some? && schemaPath.value != "" {
        var chain := Chain();
        var found := Get(chain, |chain| - 1, "../" + schemaPath.value, flags.raiseMissingKeys, None);
        match found {
          case Err(e) =>
            r := Err(e);
          case Ok(v) =>
            schemaData := Raw(v);
        }
      }
    }

    /** `reschema` (src/scammer.py:161-170): the node's own description while it waits
        for a parent; otherwise `undefined` for data that resolved to `undefined`, and the
        reshaped data in every other case. */
    method Reschema() returns (r: Result<Outcome>)
      requires Valid()
      ensures Pending() ==> r == Ok(Unresolved(NodeSpec(kind, Str(schemaPath.value), template, flags)))
      ensures !Pending() ==> r == match Reschemed(Chain(), kind, template, flags)
        case Err(e) => Err(e)
        case Ok(v) => Ok(Resolved(v))
      decreases template, if kind == DictKind then 1 else 4, 0
    {
      if asChild && parent.None? {
        return Ok(Unresolved(NodeSpec(kind, Str(schemaPath.value), template, flags)));
      }
      if schemaData == Raw(Undefined) {
        return Ok(Resolved(Undefined));
      }
      if kind == DictKind {
        var fields := ReschemaFields(template);
        match fields {
          case Err(e) => r := Err(e);
          case Ok(kvs) => r := Ok(Resolved(Dict(kvs)));
        }
      } else {
        var items := ReschemaElements();
        match items {
          case Err(e) => r := Err(e);
          case Ok(xs) => r := Ok(Resolved(List(xs)));
        }
      }
    }

    /** One entry of `_ReSchemaDict._reschema` (src/scammer.py:184-193): a list, tuple
        or set is refused, a nested template is reshaped in this node's scope, an
        embedded node is attached to this node and reshaped, and a path is looked up
        with `required` set by `raise_missing_keys`. */
    method ResolveEntry(e: Entry) returns (r: Result<Value>)
      ensures r == FieldValue(Chain(), e, flags)
      decreases e, 0, 0
    {
      match e {
        case Sequence =>
          r := Err(ListInTemplate);
        case Scalar =>
          r := Err(TypeMismatch);
        case Sub(sub) =>
          var nested := ReschemaFields(sub);
          match nested {
            case Err(x) => r := Err(x);
            case Ok(kvs) => r := Ok(Dict(kvs));
          }
        case Embedded(node) =>
          var here := Chain();
          var child := new ReSchemaNode(node.kind, node.source, node.template, node.flags);
          var attached := child.SetParent(here);
          if attached.Err? {
            return Err(attached.error);
          }
          assert child.Chain() == here + [child.schemaData];
          var o := child.Reschema();
          match o {
            case Err(x) => r := Err(x);
            case Ok(out) => r := Ok(out.value);
          }
        case Path(p) =>
          var chain := Chain();
          r := Get(chain, |chain| - 1, p, flags.raiseMissingKeys, None);
      }
    }

    /** `_ReSchemaDict._reschema(t)` (src/scammer.py:177-210): the template entries in
        order, each resolved in this node's scope and stored unless the omission policy
        turns it into `undefined`. */
    method ReschemaFields(t: Template) returns (r: Result<seq<(string, Value)>>)
      ensures r == DictFields(Chain(), t, flags, |t.fields|)
      decreases t, 0, 0
    {
      var chain := Chain();
      var out := [];
      var i := 0;
      while i < |t.fields|
        invariant 0 <= i <= |t.fields|
        invariant DictFields(chain, t, flags, i) == Ok(out)
      {
        var (k, e) := t.fields[i];
        var data := ResolveEntry(e);
        if data.Err? {
          DictFieldsSticks(chain, t, flags, i + 1, |t.fields|);
          return Err(data.error);
        }
        var v := Policy(flags, data.value);
        if v != Undefined {
          out := Put(out, k, v);
        }
        i := i + 1;
      }
      r := Ok(out);
    }

    /** `_ReSchemaList._reschema` (src/scammer.py:214-231): for each element of this
        node's data, a dict node over that element with this node's template and options
        is attached to this node and reshaped; its result is kept when it is not empty
        or empty dicts are wanted. */
    method ReschemaElements() returns (r: Result<seq<Value>>)
      ensures r == match Elements(schemaData)
        case Err(e) => Err(e)
        case Ok(elems) => ListElements(Chain(), template, flags, elems, |elems|)
      decreases template, 3, 0
    {
      var elems;
      match Elements(schemaData) {
        case Err(e) => return Err(e);
        case Ok(xs) => elems := xs;
      }
      var chain := Chain();
      var out := [];
      var i := 0;
      while i < |elems|
        invariant 0 <= i <= |elems|
        invariant ListElements(chain, template, flags, elems, i) == Ok(out)
      {
        var reschemed := ReschemaElement(elems[i]);
        if reschemed.Err? {
          ListElementsSticks(chain, template, flags, elems, i + 1, |elems|);
          return Err(reschemed.error);
        }
        var len := Len(reschemed.value);
        if len.Err? {
          ListElementsSticks(chain, template, flags, elems, i + 1, |elems|);
          return Err(len.error);
        }
        if len.value != 0 || flags.addEmptyDict {
          out := out + [reschemed.value];
        }
        i := i + 1;
      }
      r := Ok(out);
    }

    /** One element of `_ReSchemaList._reschema` (src/scammer.py:219-227): a fresh dict
        node over the element, with this node's template and options, attached to this
        node and reshaped. */
    method ReschemaElement(o: Value) returns (r: Result<Value>)
      ensures r == Attached(Chain(), DictKind, o, template, flags)
      decreases template, 2, 0
    {
      var here := Chain();
      var child := new ReSchemaNode(DictKind, o, template, flags);
      var attached := child.SetParent(here);
      if attached.Err? {
        return Err(attached.error);
      }
      assert child.Chain() == here + [child.schemaData];
      var reschemed := child.Reschema();
      match reschemed {
        case Err(x) => r := Err(x);
        case Ok(out) => r := Ok(out.value);
      }
    }
  }

  /** `reschema_dict(data, template, ...)` (src/scammer.py:234-250) */
  method ReschemaDict(data: Value, template: Template, flags: Flags) returns (r: Result<Outcome>)
    ensures r == EntryPoint(DictKind, data, template, flags)
  {
    var node := new ReSchemaNode(DictKind, data, template, flags);
    assert node.Chain() == [ScopeOf(data)];
    r := node.Reschema();
  }

  /** `reschema_list(data, template, ...)` (src/scammer.py:253-269) */
  method ReschemaList(data: Value, template: Template, flags: Flags) returns (r: Result<Outcome>)
    ensures r == EntryPoint(ListKind, data, template, flags)
  {
    var node := new ReSchemaNode(ListKind, data, template, flags);
    assert node.Chain() == [ScopeOf(data)];
    r := node.Reschema();
  }
}
