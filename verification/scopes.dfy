/** `_ReSchemaBase.get` (src/scammer.py:109-148): path lookup with delegation to
    enclosing nodes.

    A node's ancestors form a chain. `chain[0]` is the outermost node (the one without
    a parent) and the parent of `chain[i]` is `chain[i - 1]`. Each entry records what
    the node holds in `_schema_data`, which is all that a lookup reads of it. The
    `_child` argument is the index of a node further down the chain. */
module Scopes {
  import opened PyText
  import opened Values
  import opened SchemaData

  /** What a node holds in `_schema_data`: a wrapped dict, or any other value stored
      as it is (a list, the pending path string, a value resolved from a path, ...). */
  datatype Scope = Wrapped(data: seq<(string, Value)>) | Raw(v: Value)

  /** The scope the constructor makes of its data argument: dicts are wrapped, all
      else is kept as given (src/scammer.py:80-83). */
  function ScopeOf(source: Value): (s: Scope)
    ensures s.Wrapped? <==> source.Dict?
    ensures s.Wrapped? ==> s.data == source.entries
    ensures s.Raw? ==> s.v == source
  {
    if source.Dict? then Wrapped(source.entries) else Raw(source)
  }

  /** A path that asks for no climbing: it starts with neither `/` nor `../`. */
  predicate Clean(path: string) {
    !StartsWith(path, "/") && !StartsWith(path, "../")
  }

  /** The lookup may be asked of node `i` on behalf of `child`, a node below it. */
  predicate ChildBelow(chain: seq<Scope>, i: nat, child: Option<nat>) {
    i < |chain| && (child.Some? ==> i < child.value < |chain|)
  }

  /** After `path.strip('./')` a path asks for no climbing, and stripping `/` again changes nothing. */
  lemma NormalisedIsClean(path: string)
    ensures Clean(Strip(path, "./"))
    ensures Strip(Strip(path, "./"), "/") == Strip(path, "./")
  {
    var p := Strip(path, "./");
    StripShape(path, "./");
    assert p != [] ==> p[0] != '/' && p[0] != '.';
    StripAfterWider(path, "./", "/");
  }

  /** The answer of a node that wraps a dict: its own data, with a `required` path that
      leads to `undefined` turned into an error (src/scammer.py:144-148). */
  function Answer(data: seq<(string, Value)>, path: string, required: bool): (r: Result<Value>)
    ensures required ==> r != Ok(Undefined)
    ensures !required ==> r == DataGet(data, path)
  {
    match DataGet(data, path)
    case Err(e) => Err(e)
    case Ok(v) =>
      if required && v == Undefined then Err(SchemaPathError(PathDoesNotExist, path)) else Ok(v)
  }

  /** `chain[i].get(path, required=required, _child=child)` */
  function Get(chain: seq<Scope>, i: nat, path: string, required: bool, child: Option<nat>): Result<Value>
    requires ChildBelow(chain, i, child)
    decreases if child.None? && Clean(path) then 0 else 1, i
  {
    if (StartsWith(path, "/") || StartsWith(path, "../")) && i > 0 then
      // climb: drop one `../`, or pass a `/`-path on unchanged, naming ourselves as the child
      var rest := if StartsWith(path, "../") then path[3..] else path;
      Get(chain, i - 1, rest, required, Some(i))
    else if StartsWith(path, "../") then
      Err(SchemaPathError(NoMoreParents, path))
    else
      var p := Strip(path, "./");
      NormalisedIsClean(path);
      match chain[i]
      case Wrapped(data) => Answer(data, p, required)
      case Raw(_) =>
        if i > 0 then Get(chain, i - 1, p, required, child)
        else if child.Some? then Get(chain, child.value, Strip(p, "/"), required, None)
        else Err(SchemaPathError(BrokenPath, p))
  }

  /** The four spellings of one relative path that `strip('./')` brings together. */
  lemma StripDotSlashForms(p: string)
    requires p != [] && p[0] !in "./" && p[|p| - 1] !in "./"
    ensures Strip(p, "./") == p
    ensures Strip("/" + p, "./") == p
    ensures Strip("./" + p, "./") == p
    ensures Strip(p + "/", "./") == p
  {
    StripFixed(p, "./");
    assert "/" + p == ['/'] + p;
    StripLeading('/', p, "./");
    assert "./" + p == ['.'] + (['/'] + p);
    StripLeading('.', ['/'] + p, "./");
    var s3 := p + "/";
    assert s3[0] == p[0];
    assert LStrip(s3, "./") == s3;
    RStripTrailing(p, '/', "./");
  }

  /** On a node without a parent that wraps a dict, `a/b`, `/a/b`, `./a/b` and `a/b/`
      name the same thing: `/` climbs only when there is a parent, and `strip('./')`
      trims both ends. */
  lemma RootPathForms(data: seq<(string, Value)>, p: string, required: bool)
    requires p != [] && p[0] !in "./" && p[|p| - 1] !in "./"
    ensures Get([Wrapped(data)], 0, p, required, None) == Answer(data, p, required)
    ensures Get([Wrapped(data)], 0, "/" + p, required, None) == Answer(data, p, required)
    ensures Get([Wrapped(data)], 0, "./" + p, required, None) == Answer(data, p, required)
    ensures Get([Wrapped(data)], 0, p + "/", required, None) == Answer(data, p, required)
  {
    StripDotSlashForms(p);
    assert !StartsWith(p, "../") by { assert p[0] != '.'; }
    assert !StartsWith("/" + p, "../") by { assert ("/" + p)[0] == '/'; }
    assert !StartsWith("./" + p, "../") by { assert ("./" + p)[1] == '/'; }
    assert !StartsWith(p + "/", "../") by { assert (p + "/")[0] == p[0]; }
  }

  /** With a parent, a leading `../` is removed once and the parent is asked, with this
      node as the child (src/scammer.py:116-123). */
  lemma DotDotAsksParent(chain: seq<Scope>, i: nat, path: string, required: bool, child: Option<nat>)
    requires ChildBelow(chain, i, child) && i > 0 && StartsWith(path, "../")
    ensures Get(chain, i, path, required, child) == Get(chain, i - 1, path[3..], required, Some(i))
  {
  }

  /** With a parent, a leading `/` is passed on to the parent unchanged (src/scammer.py:116-123). */
  lemma SlashAsksParent(chain: seq<Scope>, i: nat, path: string, required: bool, child: Option<nat>)
    requires ChildBelow(chain, i, child) && i > 0 && StartsWith(path, "/")
    ensures Get(chain, i, path, required, child) == Get(chain, i - 1, path, required, Some(i))
  {
    assert !StartsWith(path, "../") by { assert path[0] == '/'; }
  }

  /** Without a parent, `../` is an error (src/scammer.py:124-127). */
  lemma DotDotWithoutParent(chain: seq<Scope>, path: string, required: bool, child: Option<nat>)
    requires ChildBelow(chain, 0, child) && StartsWith(path, "../")
    ensures Get(chain, 0, path, required, child) == Err(SchemaPathError(NoMoreParents, path))
  {
  }

  /** A leading `/` climbs all the way up: the outermost node is asked, with the node
      just below it as the child. */
  lemma {:induction false} SlashReachesOutermost(chain: seq<Scope>, i: nat, path: string, required: bool, child: Option<nat>)
    requires ChildBelow(chain, i, child) && i > 0 && StartsWith(path, "/")
    ensures Get(chain, i, path, required, child) == Get(chain, 0, path, required, Some(1))
    decreases i
  {
    SlashAsksParent(chain, i, path, required, child);
    if i > 1 {
      SlashReachesOutermost(chain, i - 1, path, required, Some(i));
    }
  }

  /** `k` copies of `../` */
  function Ups(k: nat): (s: string)
    ensures |s| == 3 * k
    ensures k > 0 ==> StartsWith(s, "../")
  {
    if k == 0 then "" else "../" + Ups(k - 1)
  }

  /** `k` leading `../` climb exactly `k` levels, the last climber becoming the child;
      asking for more levels than there are ancestors is an error at the outermost node. */
  lemma {:induction false} UpsClimb(chain: seq<Scope>, i: nat, k: nat, q: string, required: bool, child: Option<nat>)
    requires ChildBelow(chain, i, child) && k > 0 && Clean(q)
    ensures k <= i ==> Get(chain, i, Ups(k) + q, required, child) == Get(chain, i - k, q, required, Some(i - k + 1))
    ensures k > i ==> Get(chain, i, Ups(k) + q, required, child) == Err(SchemaPathError(NoMoreParents, Ups(k - i) + q))
    decreases k
  {
    var path := Ups(k) + q;
    assert path == "../" + (Ups(k - 1) + q);
    assert StartsWith(path, "../");
    assert path[3..] == Ups(k - 1) + q;
    if i == 0 {
      DotDotWithoutParent(chain, path, required, child);
    } else {
      DotDotAsksParent(chain, i, path, required, child);
      if k > 1 {
        UpsClimb(chain, i - 1, k - 1, q, required, Some(i));
      } else {
        assert Ups(0) + q == q;
      }
    }
  }

  /** A node that wraps a dict and is asked a path that does not climb answers from its
      own data. */
  lemma WrappedAnswers(chain: seq<Scope>, i: nat, path: string, required: bool, child: Option<nat>)
    requires ChildBelow(chain, i, child) && chain[i].Wrapped?
    requires i == 0 || Clean(path)
    requires !StartsWith(path, "../")
    ensures Get(chain, i, path, required, child) == Answer(chain[i].data, Strip(path, "./"), required)
  {
  }

  /** A node whose data is not a wrapped dict never answers itself. With a parent it
      forwards the stripped path upward, passing `_child` on exactly as it received it
      (src/scammer.py:135-137). */
  lemma RawForwardsUp(chain: seq<Scope>, i: nat, path: string, required: bool, child: Option<nat>)
    requires ChildBelow(chain, i, child) && chain[i].Raw? && i > 0 && Clean(path)
    ensures Get(chain, i, path, required, child) == Get(chain, i - 1, Strip(path, "./"), required, child)
  {
  }

  /** Without a parent but with a child, it hands the slash-stripped path back to that
      child, with no child of its own (src/scammer.py:139-141). */
  lemma RawBouncesToChild(chain: seq<Scope>, path: string, required: bool, j: nat)
    requires ChildBelow(chain, 0, Some(j)) && chain[0].Raw? && !StartsWith(path, "../")
    ensures Get(chain, 0, path, required, Some(j)) == Get(chain, j, Strip(path, "./"), required, None)
  {
    NormalisedIsClean(path);
  }

  /** Without a parent and without a child, the path is broken (src/scammer.py:142). */
  lemma RawAloneIsBroken(chain: seq<Scope>, path: string, required: bool)
    requires ChildBelow(chain, 0, None) && chain[0].Raw? && !StartsWith(path, "../")
    ensures Get(chain, 0, path, required, None) == Err(SchemaPathError(BrokenPath, Strip(path, "./")))
  {
  }

  /** When no node of the chain wraps a dict, no lookup succeeds. */
  lemma {:induction false} NoWrappedNoAnswer(chain: seq<Scope>, i: nat, path: string, required: bool, child: Option<nat>)
    requires ChildBelow(chain, i, child)
    requires forall k :: 0 <= k < |chain| ==> chain[k].Raw?
    ensures Get(chain, i, path, required, child).Err?
    decreases if child.None? && Clean(path) then 0 else 1, i
  {
    if (StartsWith(path, "/") || StartsWith(path, "../")) && i > 0 {
      var rest := if StartsWith(path, "../") then path[3..] else path;
      NoWrappedNoAnswer(chain, i - 1, rest, required, Some(i));
    } else if !StartsWith(path, "../") {
      var p := Strip(path, "./");
      NormalisedIsClean(path);
      if i > 0 {
        NoWrappedNoAnswer(chain, i - 1, p, required, child);
      } else if child.Some? {
        NoWrappedNoAnswer(chain, child.value, Strip(p, "/"), required, None);
      }
    }
  }

  /** All wrapped dicts of the chain are caller data. */
  predicate WrappedPlain(chain: seq<Scope>) {
    forall k :: 0 <= k < |chain| && chain[k].Wrapped? ==> PlainEntries(chain[k].data)
  }

  /** A lookup over caller data yields `undefined` or caller data. */
  lemma {:induction false} GetPlain(chain: seq<Scope>, i: nat, path: string, required: bool, child: Option<nat>)
    requires ChildBelow(chain, i, child) && WrappedPlain(chain)
    ensures var r := Get(chain, i, path, required, child);
      r.Ok? ==> r.value == Undefined || Plain(r.value)
    decreases if child.None? && Clean(path) then 0 else 1, i
  {
    if (StartsWith(path, "/") || StartsWith(path, "../")) && i > 0 {
      var rest := if StartsWith(path, "../") then path[3..] else path;
      GetPlain(chain, i - 1, rest, required, Some(i));
    } else if !StartsWith(path, "../") {
      var p := Strip(path, "./");
      NormalisedIsClean(path);
      match chain[i] {
        case Wrapped(data) =>
          DescendPlain(Dict(data), Fields(p));
        case Raw(_) =>
          if i > 0 {
            GetPlain(chain, i - 1, p, required, child);
          } else if child.Some? {
            GetPlain(chain, child.value, Strip(p, "/"), required, None);
          }
      }
    }
  }

  /** `required` only turns an `undefined` answer into a "does not exist" error:
      a found value or an error is the same either way, and a required lookup never
      yields `undefined` (src/scammer.py:144-148). */
  lemma {:induction false} RequiredOnlyRejectsUndefined(chain: seq<Scope>, i: nat, path: string, child: Option<nat>)
    requires ChildBelow(chain, i, child)
    ensures var loose := Get(chain, i, path, false, child);
      var strict := Get(chain, i, path, true, child);
      && (loose.Err? ==> strict == loose)
      && (loose.Ok? && loose.value != Undefined ==> strict == loose)
      && (loose == Ok(Undefined) ==> strict.Err? && strict.error.SchemaPathError? && strict.error.fault == PathDoesNotExist)
      && strict != Ok(Undefined)
    decreases if child.None? && Clean(path) then 0 else 1, i
  {
    if (StartsWith(path, "/") || StartsWith(path, "../")) && i > 0 {
      var rest := if StartsWith(path, "../") then path[3..] else path;
      RequiredOnlyRejectsUndefined(chain, i - 1, rest, Some(i));
    } else if !StartsWith(path, "../") {
      var p := Strip(path, "./");
      NormalisedIsClean(path);
      match chain[i] {
        case Wrapped(data) =>
        case Raw(_) =>
          if i > 0 {
            RequiredOnlyRejectsUndefined(chain, i - 1, p, child);
          } else if child.Some? {
            RequiredOnlyRejectsUndefined(chain, child.value, Strip(p, "/"), None);
          }
      }
    }
  }

  /** What a node holds, when it is not a wrapped dict, is never read by a lookup: two
      chains that differ only in the raw content of one node answer every lookup alike. */
  lemma {:induction false} GetIgnoresRawContent(c1: seq<Scope>, c2: seq<Scope>, j: nat, i: nat, path: string, required: bool, child: Option<nat>)
    requires |c1| == |c2| && j < |c1| && c1[j].Raw? && c2[j].Raw?
    requires forall k :: 0 <= k < |c1| && k != j ==> c1[k] == c2[k]
    requires ChildBelow(c1, i, child)
    ensures Get(c1, i, path, required, child) == Get(c2, i, path, required, child)
    decreases if child.None? && Clean(path) then 0 else 1, i
  {
    if (StartsWith(path, "/") || StartsWith(path, "../")) && i > 0 {
      var rest := if StartsWith(path, "../") then path[3..] else path;
      GetIgnoresRawContent(c1, c2, j, i - 1, rest, required, Some(i));
    } else if !StartsWith(path, "../") {
      var p := Strip(path, "./");
      NormalisedIsClean(path);
      assert c1[i].Raw? <==> c2[i].Raw?;
      if c1[i].Raw? {
        if i > 0 {
          GetIgnoresRawContent(c1, c2, j, i - 1, p, required, child);
        } else if child.Some? {
          GetIgnoresRawContent(c1, c2, j, child.value, Strip(p, "/"), required, None);
        }
      }
    }
  }
}
