# scammer: a verified model of the template-driven reshaping engine

`scammer` reshapes nested dict/list data according to a template. A template is
a dict that maps each output key to one of four things:

- a path string (`"a/b"`, `"../x"`, `"/root_key"`);
- a nested template, resolved in the same scope;
- an embedded reshaper node, with its own data or a path to data in the enclosing scope;
- a list, which is refused.

Two reshapers walk the template:

- `_ReSchemaDict` builds a dict.
- `_ReSchemaList` builds a list. It runs a fresh dict reshaper on every element of its data.

Paths are resolved by `_ReSchemaBase.get`. It climbs to parent nodes for `../` and `/`. A node whose data is not a wrapped dict passes the question up to its parent, or back down to the child that asked. Three options decide what the result keeps:

- empty dicts (`add_empty_dict`);
- empty lists (`add_empty_lists`);
- keys whose path leads nowhere (`add_missing_keys`, stored as `None`).

A fourth makes such paths an error (`raise_missing_keys`).

The Dafny project models all of `src/scammer.py` except what "## Left out" lists:

| file | module | what it holds |
|---|---|---|
| `text.dfy` | `PyText` | `str.startswith`, `strip(chars)`, `split(sep)` and the substring test, with their laws |
| `values.dfy` | `Values` | the value universe, including the `undefined` sentinel apart from `None`; dict lookup and assignment; errors |
| `schema_data.dfy` | `SchemaData` | `_SchemaData`: a datatype with a `Get` method (the loop of the source), proved against the function `DataGet` |
| `scopes.dfy` | `Scopes` | `_ReSchemaBase.get` as a recursive function over the chain of nodes from the outermost one down, and its laws |
| `reschema.dfy` | `Reschema` | `set_parent`, `reschema` and both `_reschema` walks as functions, with the properties of the engine |
| `nodes.dfy` | `Nodes` | the reshaper objects as a class whose fields `set_parent` updates in place, with loop methods proved equal to the functions of `Reschema`; the two entry points |
| `examples.dfy` | `Examples` | the engine on small inputs: a missing key versus `None`, each option, a list nested in a dict that reads outer data, and a node that cannot read the dict its path leads to |

A node's parent is represented by the parent's chain of scopes. A lookup reads nothing else of the parent.

## Behaviour worth knowing

- **The entry points do not check the shape of `data`.**
  - A dict reshaper over a list answers every path that does not start with `../` with "given path is broken" (src/scammer.py:135-142).
  - A path that starts with `../` raises "no more parents" instead (src/scammer.py:124-127).
  - A list reshaper over a dict fails when it iterates the wrapped dict (src/scammer.py:218).
- **A path resolved on attachment keeps its result raw.** `set_parent` stores the value it looks up as it is (src/scammer.py:157).
  - So a node whose path leads to a dict never reads that dict: the dict fails the `_SchemaData` test at src/scammer.py:135.
  - Its lookups go to its parent instead (src/scammer.py:136-137). `Examples.RawDictIsNotRead` shows this on a small input.
- **`set_parent` can run more than once.** Each call resolves the node's path afresh (src/scammer.py:150-159).
- **`_child` is passed on exactly as received.** A node without dict data that forwards a lookup to its parent passes `_child` unchanged, possibly `None` (src/scammer.py:137).
- **A pending path is required only under `raise_missing_keys`.** The lookup made on attachment uses `raise_missing_keys` for `required` (src/scammer.py:157-159).

## Model

| member | source | states |
|---|---|---|
| PyText.StripShape | src/scammer.py:129 | `strip(cs)` keeps a contiguous slice whose ends are not in `cs`, and drops only characters of `cs` on either side |
| PyText.StripIdempotent | src/scammer.py:129 | stripping twice with the same characters is stripping once |
| PyText.StripAfterWider | src/scammer.py:140 | after `strip('./')`, a `strip('/')` changes nothing |
| PyText.SplitJoin | src/scammer.py:46 | `split('/')` loses nothing: joining the pieces with `/` gives the string back |
| PyText.SplitNoSeparator | src/scammer.py:46 | a string without `/` splits into itself alone |
| PyText.SplitConcat | src/scammer.py:46 | splitting `a + '/' + b` gives the pieces of `a` followed by those of `b` |
| Values.Lookup | src/scammer.py:52 | `d[k]` is a value stored under `k` in `d` |
| Values.PutKeys | src/scammer.py:209 | `d[k] = v` keeps the existing keys in order and appends `k` only when it is new |
| Values.PutLookup | src/scammer.py:209 | after `d[k] = v`, `d[k]` is `v` and every other key keeps its value |
| Values.PutNew | src/scammer.py:209 | assigning a new key appends the pair at the end |
| Values.PutPlain | src/scammer.py:209 | assigning caller data into a dict of caller data gives a dict of caller data |
| Values.Len | src/scammer.py:229 | `len` of a string, list or dict is its number of characters, items or entries; any other value is a type error |
| SchemaData.New | src/scammer.py:35-43 | construction succeeds exactly on dicts and keeps the dict; anything else is a `ValueError` |
| SchemaData.SchemaData.Get | src/scammer.py:45-53 | the loop of `get` returns what `DataGet` specifies: strip `/`, split on `/`, descend, `undefined` at the first absent field |
| SchemaData.Step | src/scammer.py:50-52 | on a dict, a key is found with its value and any other field is absent; on a string or list, a field that `in` finds is a type error, as indexing by a string fails; any other value is a type error |
| SchemaData.DescendPlain | src/scammer.py:49-53 | descending caller data yields `undefined`, caller data or an error, never anything else |
| SchemaData.DescendConcat | src/scammer.py:49-53 | descending `a + b` is descending `a`, then `b` from where that ended; an `undefined` stays `undefined` |
| SchemaData.FirstMissingField | src/scammer.py:50-51 | the walk answers `undefined` as soon as a dict lacks the next field, whatever follows |
| SchemaData.DataGetKey | src/scammer.py:45-53 | a slash-free key is a direct lookup, and a leading or trailing `/` makes no difference |
| SchemaData.DataGetNested | src/scammer.py:45-53 | `get("p/q")` is `get("p")` followed by a walk of `q` from there |
| Scopes.ScopeOf | src/scammer.py:80-83 | exactly the dict arguments are wrapped in `_SchemaData`; all else is stored as given |
| Scopes.NormalisedIsClean | src/scammer.py:129 | after `strip('./')` a path neither starts with `/` nor `../`, and is fixed by `strip('/')` |
| Scopes.Answer | src/scammer.py:144-148 | a required answer is never `undefined`; an optional one is exactly the `_SchemaData` lookup |
| Scopes.StripDotSlashForms | src/scammer.py:129 | `p`, `/p`, `./p` and `p/` all normalise to `p` |
| Scopes.RootPathForms | src/scammer.py:116-148 | on a parentless node wrapping a dict, `p`, `/p`, `./p` and `p/` get the same answer |
| Scopes.DotDotAsksParent | src/scammer.py:116-123 | with a parent, one leading `../` is removed and the parent is asked with this node as the child |
| Scopes.SlashAsksParent | src/scammer.py:116-123 | with a parent, a leading `/` is passed to the parent unchanged, with this node as the child |
| Scopes.DotDotWithoutParent | src/scammer.py:124-127 | without a parent, `../` raises "no more parents" with the path |
| Scopes.SlashReachesOutermost | src/scammer.py:116-123 | a leading `/` climbs to the outermost node, with the node just below it as the child |
| Scopes.UpsClimb | src/scammer.py:116-127 | `k` leading `../` climb exactly `k` levels; more than there are ancestors raises "no more parents" |
| Scopes.WrappedAnswers | src/scammer.py:129-148 | a node wrapping a dict, asked a path that does not climb, answers from its own data after `strip('./')` |
| Scopes.RawForwardsUp | src/scammer.py:135-137 | a node without dict data, but with a parent, forwards the stripped path upward with `_child` unchanged |
| Scopes.RawBouncesToChild | src/scammer.py:139-141 | a parentless node without dict data hands the slash-stripped path to the child, which has no child of its own |
| Scopes.RawAloneIsBroken | src/scammer.py:142 | with neither parent nor child, it raises "given path is broken" |
| Scopes.NoWrappedNoAnswer | src/scammer.py:135-142 | if no node of the chain wraps a dict, every lookup fails |
| Scopes.GetPlain | src/scammer.py:109-148 | a lookup over caller data yields `undefined` or caller data |
| Scopes.RequiredOnlyRejectsUndefined | src/scammer.py:146-147 | `required` changes only an `undefined` answer, into "does not exist"; a required lookup never yields `undefined` |
| Scopes.GetIgnoresRawContent | src/scammer.py:135-142 | what a node without dict data holds is never read by a lookup |
| Reschema.PathOf | src/scammer.py:93-99 | a node has a path exactly when its data argument is a string, and the path is that string |
| Reschema.AttachScope | src/scammer.py:150-159 | a node without a non-empty path keeps its scope; otherwise its scope becomes the raw result of `../path` asked of itself with `required = raise_missing_keys` |
| Reschema.Policy | src/scammer.py:195-206 | a value is dropped exactly when it is `undefined` without `add_missing_keys`, or an empty list or dict without its option; a kept value is unchanged except that `undefined` becomes `None` |
| Reschema.Elements | src/scammer.py:218 | iteration succeeds exactly on a raw list, string or dict, and yields the list's items, the string's characters or the dict's keys, in order; a wrapped dict is not iterable |
| Reschema.EntryPoint | src/scammer.py:234-269 | a string argument returns the pending node itself, and a pending node comes only from a string |
| Reschema.DictFieldsSticks | src/scammer.py:183-193 | an exception in one entry ends the dict walk with that exception |
| Reschema.ListElementsSticks | src/scammer.py:218-229 | an exception for one element ends the list walk with that exception |
| Reschema.ListEntryRefused | src/scammer.py:184-185 | a list, tuple or set entry raises `ValueError` when the walk reaches it |
| Reschema.SelectionExtend | src/scammer.py:208-209 | a dropped value leaves the output as it is; a kept value is appended under its key, which is new |
| Reschema.DictFieldsSelect | src/scammer.py:183-209 | every entry resolves, and the output lists exactly the entries the policy keeps, in template order, each with its value after the policy |
| Reschema.AttachedDictShape | src/scammer.py:168-170 | a dict reshaper answers `undefined` or a dict |
| Reschema.ListElementsSelect | src/scammer.py:218-231 | every element yields a dict; the output is an order-preserving selection of these, dropping exactly the empty ones unless `add_empty_dict` |
| Reschema.ListKeepsAllWithEmptyDicts | src/scammer.py:229-230 | with `add_empty_dict`, the output is every element's dict, in order |
| Reschema.ReattachResolvesAfresh | src/scammer.py:150-159 | attaching again gives the scope a single attachment to the new parent gives |
| Reschema.ElementsPlain | src/scammer.py:218 | iterating caller data yields caller data |
| Reschema.FieldValuePlain | src/scammer.py:184-193 | a template entry over caller data resolves to `undefined` or caller data |
| Reschema.DictFieldsPlain | src/scammer.py:195-209 | `undefined` never reaches a dict reshaper's output |
| Reschema.ListElementsPlain | src/scammer.py:218-231 | `undefined` never reaches a list reshaper's output |
| Reschema.ReschemedPlain | src/scammer.py:161-170 | an attached node over caller data answers `undefined` or caller data |
| Reschema.AttachedPlain | src/scammer.py:150-170 | so does a node attached to a parent, whatever its path resolves to |
| Reschema.EntryPointPlain | src/scammer.py:234-269 | a resolved result of either entry point holds no `undefined` at any depth |
| Nodes.ReSchemaNode.constructor | src/scammer.py:70-99 | dict data is wrapped and all else kept; a string argument makes a child-to-be with that path and no parent |
| Nodes.ReSchemaNode.SetParent | src/scammer.py:150-159 | the node becomes a child of `p`; its scope becomes what `AttachScope` gives, and is left unchanged on error |
| Nodes.ReSchemaNode.Reschema | src/scammer.py:161-170 | a node waiting for a parent returns itself; otherwise the result is what `Reschemed` specifies |
| Nodes.ReSchemaNode.ResolveEntry | src/scammer.py:184-193 | one template entry resolves to what `FieldValue` specifies |
| Nodes.ReSchemaNode.ReschemaFields | src/scammer.py:177-210 | the loop over template entries builds what `DictFields` specifies |
| Nodes.ReSchemaNode.ReschemaElements | src/scammer.py:214-231 | the loop over elements builds what `ListElements` specifies, or fails when the data is not iterable |
| Nodes.ReSchemaNode.ReschemaElement | src/scammer.py:219-227 | one element's fresh dict reshaper, attached and reshaped, gives what `Attached` specifies |
| Nodes.ReschemaDict | src/scammer.py:234-250 | `reschema_dict` returns what `EntryPoint` specifies for a dict reshaper |
| Nodes.ReschemaList | src/scammer.py:253-269 | `reschema_list` returns what `EntryPoint` specifies for a list reshaper |
| Examples.DataLookups | src/scammer.py:144-148 | a key holding `None` answers `None`; an absent key answers `undefined`, or "does not exist" when required |
| Examples.MissingKeyOmitted | src/scammer.py:195-209 | by default an absent key is left out, while a key holding `None` is kept |
| Examples.MissingKeyAsNone | src/scammer.py:195-196 | with `add_missing_keys`, an absent key is kept as `None` |
| Examples.MissingKeyRaises | src/scammer.py:146-147 | with `raise_missing_keys`, an absent key raises "does not exist" with the path |
| Examples.TagsLookup | src/scammer.py:144-148 | a key holding an empty list answers that list |
| Examples.EmptyListOmitted | src/scammer.py:197-206 | by default an empty list is left out |
| Examples.EmptyListKept | src/scammer.py:197-206 | with `add_empty_lists`, an empty list is kept |
| Examples.PathDataIsPending | src/scammer.py:161-166 | an entry point given a string returns the node itself |
| Examples.ItemsAttach | src/scammer.py:156-159 | an embedded list node with a path takes the outer data's list, unwrapped |
| Examples.RowOwnField | src/scammer.py:129-148 | inside a list element, a plain key is the element's own field |
| Examples.RowSharedField | src/scammer.py:116-123 | from a list element, `../../shared` climbs past the list node to the outer dict |
| Examples.RowReshaped | src/scammer.py:219-227 | a record's dict reshaper, attached to the list node, combines its own field with the outer one |
| Examples.RowsReshaped | src/scammer.py:214-231 | the embedded list node yields the list of reshaped records |
| Examples.RawAsksParent | src/scammer.py:135-137 | below a node wrapping a dict, a node with raw data asks a plain key of that dict |
| Examples.EmbeddedPathToDict | src/scammer.py:150-159 | an embedded dict reshaper whose path leads to a dict does not read that dict; a key absent from the parent gives an empty dict |
| Examples.EmbeddedPathToDictDropped | src/scammer.py:183-209 | embedded in a one-entry template over the outer dict, that empty dict is left out |
| Examples.RawDictIsNotRead | src/scammer.py:135-159 | `{"s": node("sub", {"a": "a"})}` over `{"sub": {"a": 1}}` yields `{}`: the node cannot read `a` from the sub-dict |
| Examples.NestedListReachesOuterData | src/scammer.py:183-231 | a list node embedded in a dict template reshapes each record from its own fields and fields of the outer data |

## Left out

- The `randint` call in `_ReSchemaList._reschema` (src/scammer.py:216) is left out. It only sets an unused local variable.
- The `pprint` import is left out. It is never used.
- The `schema_data` and `schema_template` properties (src/scammer.py:101-107) are plain field reads and are not modelled separately.
- Exception messages are not modelled. An error records only its kind and, for `SchemaPathError`, the path.
- `TypeError` and `AttributeError` are merged into one error, `TypeMismatch`. The code never catches either.
- Lists, tuples and sets are one kind of value, as the code's `isinstance` checks treat them alike.
  - The iteration order of a set is taken as given.
  - The membership test on a list is the structural test `Str(field) in xs`.
- Dict keys are strings only, and numbers are unbounded integers.
  - Python's recursion limit is not modelled.
  - Nor are floats, `==` between numbers of different types, or dict subclasses.
- A node's `_parent` is the parent's chain of scopes at attachment time, not a reference to the parent object.
  - The parent's scope cannot change while the child resolves: `set_parent` runs only before `reschema`, and the walk is depth-first.
- Each attachment of an embedded node works on a node freshly built from that node's constructor arguments (`NodeSpec`), not on one shared object. `Reschema.ReattachResolvesAfresh` shows that a second attachment yields what a first one to the same parent would.
- A template that contains itself cannot be written as a Dafny value. In the source it recurses without end, so it is not modelled.
- Reschema.DictFieldsSelect: requires the template's keys to be distinct. A Python dict literal cannot hold a key twice.
