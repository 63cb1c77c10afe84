# node-custom-errors, modelled in Dafny

node-custom-errors makes custom exception classes for Node.js. `create`
builds an error constructor from a name, a parent class, a default message,
an abstract flag and an optional construct routine. Each generated class has
`inherit` (make a subclass) and `toString`. A `Block` turns a dictionary of
entries into a family of namespaced error classes, built eagerly or on first
`get`. The library throws two exceptions of its own: `AbstractError` when an
abstract class is instantiated, and `Block.ErrorNotFound` when a block cannot
resolve a name.

The model covers both versions of the library: the current one (`index.js`)
and the older one (`lib/customErrors.js`).

- `ErrorTypes` holds what both versions share:
  - The registry of exception types, a `seq<Descriptor>` indexed by type id.
    It starts with the platform's `Error` and `TypeError`.
  - The `instanceof` relation (`IsA`) along parent links.
  - The generated constructor (`Instantiate`), which returns the instance or
    the `AbstractError` it throws.
  - The stack-trace header.
  - The two library exceptions and their messages.
- `Factory` models `create`, `inherit` and `toString` of the current version.
  Here a type without its own default message or construct routine takes the
  one from its parent's `ce` record.
- `LegacyFactory` models the older `create` and `inherit`. They set no `ce`
  record and do no copying, and the older `inherit` takes no construct
  routine. A type made by the older factory therefore passes nothing on to a
  child made by the current one.
- `BlockResolution` states what a block does as pure functions of its state.
  - `Resolve` is `get`, `ResolveBase` is `getBase` and `ResolveAll` is
    `createAll`.
  - A `Version` parameter selects the current or the older behaviour. The two
    differ in how a `null` base is treated and in whether `get` falls back to
    the base name.
- `ErrorBlock.Block` is the block as an object. Its fields are updated in
  place:
  - `memo`: the classes stored on the block.
  - `base`: the base slot, a name until the base class is made.
  - `created`: the `createAll` flag.
  - `reg`: every type made so far.
  Each method is proved to leave exactly the state, and return exactly the
  result, that the `BlockResolution` functions give.

## Behaviour worth noting

- A record entry's name is always overwritten with `prefix + key`
  (`index.js:170`).
- `ErrorNotFound`'s message reads "Error <name> is not found in block" (`index.js:248`).
- A malformed entry throws `ErrorNotFound` whose `errorname` is already the
  sentence "Error <name> is not found in the block" (`index.js:190`).
- In eager mode the base class is made only when an entry actually refers to
  it (`index.js:184`). A block with no such entry has no base class after
  construction.

## Model

| member | source | states |
|---|---|---|
| ErrorTypes.IsAError | index.js:62-66 | every type, builtin or made by the factory, is a subtype of `Error` |
| ErrorTypes.IsATransitive | index.js:62 | `instanceof` is transitive along prototype links |
| ErrorTypes.IsABelow | index.js:33-62 | an ancestor always exists before its descendants, so the parent links are acyclic |
| ErrorTypes.IsAExtend | index.js:62 | making new types never changes the ancestry of existing ones |
| ErrorTypes.LibraryError.Message | index.js:96-102 | `AbstractError`'s message is "Error <name> is abstract" and `ErrorNotFound`'s is "Error <name> is not found in block" (`index.js:248`), with the `errorname` readable back from either |
| ErrorTypes.Header | index.js:59 | the header is the name alone when the message is falsy, else the name followed by ": " and the message |
| ErrorTypes.Instantiate | index.js:46-61 | fails with `AbstractError(name)` exactly when the type is abstract; otherwise the construct routine decides the message if there is one, else a non-null first argument does, and the default message shows through where nothing was written; name and header follow |
| Factory.Create | index.js:29-84 | the new type's parent is `parent \|\| Error` and its ancestors are itself plus the parent's; an explicit default message or routine is kept, a missing one is copied from a parent that has a `ce` record and stays absent under a parent without one; earlier types are unchanged |
| Factory.CreateFromRecord | index.js:30-32 | the record form equals the positional form with the record's fields |
| Factory.Inherit | index.js:73-79 | `T.inherit(name, ...)` is `create` with parent `T`, so the new type is `instanceof T` |
| Factory.InheritRecord | index.js:74-77 | `T.inherit(record)` overwrites the record's parent with `T`, so the new type is a subtype of `T` |
| Factory.ClassDisplay | index.js:80-82 | `toString` gives "[Error class <name>]", from which the name can be read back |
| Factory.NearestExtend | index.js:68-72 | the nearest declared default message and routine of an existing type do not change when new types are made |
| Factory.CreateKeepsInheritance | index.js:34-45 | every factory-made type carries the default message and routine of its nearest declaring ancestor, and `create` keeps this so |
| Factory.InstanceShowsNearestDefmessage | index.js:65 | with no routine and no argument, an instance shows the nearest declared default message |
| Factory.ConcreteUnderAbstract | index.js:48-50 | a concrete subclass of an abstract class instantiates and is `instanceof` it, while the abstract class still throws `AbstractError` |
| Factory.ChainInstanceOf | test/create_test.js:23-44 | an instance of C in a chain A, B, C built with `inherit` is an instance of C, B, A and `Error` |
| Factory.InheritDefmessageExample | test/create_test.js:55-64 | One "one def", Two inheriting it and Three "three def" show those messages, and an explicit argument wins; a routine declared on One also runs for Two |
| LegacyFactory.Create | lib/customErrors.js:29-62 | parent `parent \|\| Error`, ancestry as in the current version, the default message and routine exactly as given with no copying from the parent, and no `ce` record on the new type |
| LegacyFactory.CreateFromRecord | lib/customErrors.js:30-32 | the record form equals the positional form |
| LegacyFactory.Inherit | lib/customErrors.js:55-57 | `T.inherit(name, defmessage, abstract)` is `create(name, T, ...)` with no routine and yields a subtype of `T`; a record argument becomes a plain `create(record)` |
| LegacyFactory.DefmessageHidden | lib/customErrors.js:52-53 | a subclass made without a default message shows no message, and its header is just its name, although its parent declared one |
| LegacyFactory.NoCopyFromOlderParent | index.js:34-45 | the current `create` under a parent made by the older factory copies neither its default message nor its routine, since that parent has no `ce` record |
| LegacyFactory.InheritRecordDropsReceiver | lib/customErrors.js:55-57 | `T.inherit({name, construct})` with `T` other than `Error` makes a direct child of `Error` whose instances are not `instanceof T` |
| BlockResolution.Decode | index.js:163-178 | a plain entry is the pointer alone; a list supplies the pointer, default message and abstract flag; a record supplies its own fields and a pointer that is its `parent`, or `true` when it has none |
| BlockResolution.Prefix | index.js:128 | the prefix is empty for a missing or empty namespace, and otherwise the namespace followed by "." |
| BlockResolution.NormalizeBase | index.js:118-124 | undefined, true and (current version only) null give the name "Base"; false gives `Error`; a class is kept; anything else becomes its string; the older version turns null into "null" |
| BlockResolution.IndexOf | index.js:157 | finds a position holding the key, or reports that no entry has it |
| BlockResolution.ResolveBase | index.js:232-242 | a resolved base is returned unchanged; a named one is made once as an abstract child of `Error` named prefix + name with default message "", stored under its name and kept as the base |
| BlockResolution.CreateIn | lib/customErrors.js:157 | a block calls the `create` of its own version: the current factory's, or the older one's |
| BlockResolution.BuildEntry | index.js:192-193 | stores, under the key, the type the block's `create` makes: named prefix + key, with the decoded parent, default message, abstract flag and construct routine |
| BlockResolution.Resolve | index.js:145-194 | `get` only grows the registry and the set of stored names, and a success is stored under the requested name |
| BlockResolution.ResolveAll | index.js:213-225 | `createAll` only grows the registry and the stored names |
| BlockResolution.ResolveEntry | index.js:163-193 | for an unstored key: a class entry is stored as is; a malformed entry fails with the doubled not-found text; `true` gives a subtype of the base; `false` gives a direct child of `Error`; a string reference succeeds exactly when the referenced `get` does, giving a subtype of that class, and otherwise passes on its error and state; the name is prefix + key; a record's construct routine is kept; a `true` entry without a default message under a newly made base shows the base's "" in the current version and nothing in the older one |
| BlockResolution.ResolveMissing | index.js:157-161 | an unknown name resolves to the base class when it is the current version's base name, and otherwise fails with `ErrorNotFound(prefix + name)`, changing nothing |
| BlockResolution.LegacyMissingKeyNotFound | lib/customErrors.js:125-127 | in the older version an unknown, unstored name always fails with `ErrorNotFound(prefix + name)`, even when it is the base name |
| BlockResolution.ResolveIdempotent | index.js:150-152 | a second `get` of the same name returns the same class and changes nothing |
| BlockResolution.ResolveBaseOnce | index.js:235-240 | a second `getBase` returns the same class and changes nothing |
| BlockResolution.ResolveReach | index.js:179-192 | `get` stores only the requested name, the names it refers to, and the base name |
| BlockResolution.ResolveKeepsMemo | index.js:150-152 | a class once stored stays stored under its name |
| BlockResolution.ResolveAllCovers | index.js:219-224 | when `createAll` succeeds, every key of the mapping has a stored class |
| BlockResolution.LegacyNullBaseGetFails | lib/customErrors.js:86-93 | older version: an eager `new Block({One: true}, "ns", null)` is built, but `get("Base")` then throws `ErrorNotFound("ns.Base")` |
| BlockResolution.LegacyNullBaseOne | lib/customErrors.js:148-150 | older version: `get("One")` on the `null`-base block stores the base under "null" and One under "One" |
| BlockResolution.CurrentNullBaseOne | index.js:183-185 | current version: `get("One")` on the `null`-base block makes the abstract base "ns.Base", stores it under "Base", and One is a subtype of it |
| BlockResolution.NullBaseGetResolves | index.js:118-119 | current version: the same block gives an abstract class "ns.Base" for `get("Base")`, changes nothing, and One is a subtype of it |
| ErrorBlock.Block.constructor | index.js:117-132 | sets the version, entries, prefix and normalized base; nothing is stored and `created` is false |
| ErrorBlock.Block.New | index.js:117-136 | a lazy block starts empty; an eager one ends in the state of `createAll`, or yields `createAll`'s error instead of a block |
| ErrorBlock.Block.GetBase | index.js:232-242 | updates the block exactly as `ResolveBase` says and returns its class |
| ErrorBlock.Block.Build | index.js:192-193 | updates the block exactly as `BuildEntry` says |
| ErrorBlock.Block.Get | index.js:145-194 | updates the block and answers exactly as `Resolve` says; a stored name is returned with no change |
| ErrorBlock.Block.CreateAll | index.js:213-225 | a created block is left alone; otherwise it ends in `ResolveAll`'s state and is marked created exactly on success, with every key then stored |
| ErrorBlock.Block.Raise | index.js:203-206 | throws `get`'s error, or else a new instance of the class built from `message` |

## Left out

- Stack traces: only the header line (`index.js:59`) is modelled. The frames from the platform's `Error().stack` are not.
- Construct routines are opaque. They appear as a function from (routine, arguments) to the message they leave behind. Other properties they set on the instance are not modelled.
- `parent()` (`index.js:86-94`) is a module-level function that nothing references or exports, and is not modelled. Also not modelled: the `prototype.parent` property that `create` sets to the parent class (`index.js:66`), and what a routine's call `this.parent(...)` does with it, which is to run the parent's whole constructor body on the instance.
- Messages, names and namespaces are strings or absent. JavaScript values of other types, and their coercions, are not modelled. `Truthy` is truthiness for strings only.
- Builtin classes are `Error` and `TypeError`. Their own constructor is approximated by the same rule as a factory class without a routine.
- A block entry that is a class is modelled as a type id. A block with a class as its base reaches that class the same way.
- Object-model details of JavaScript are out of scope:
  - classes are stored on the block object itself, so a key such as "get" would clash with a method;
  - a record entry is mutated in place (`index.js:170`);
  - `for...in` order is taken to be the order of the entries;
  - a top-level `null` entry makes `get` crash with a `TypeError` instead of throwing `ErrorNotFound`.
- Circular string references between block entries make `get` recurse without end in the source. The model requires a rank showing the references are acyclic (`Ranked`), so such blocks are excluded.
- The registry of all types is a field of the block rather than the process-wide set of JavaScript classes. Two blocks sharing classes is not modelled.
- BlockResolution.ResolveKeepsMemo: proved only when the base name is not also an entry key, because `getBase` then overwrites the class stored under that key.
- BlockResolution.Resolve: its own contract states growth and storage only. Its full behaviour per entry form is stated by `ResolveEntry`, `ResolveMissing` and `ResolveIdempotent`.
- src/customErrors.js is an empty stub and is not part of this model. Gruntfile.js is build configuration.

## Findings

| source | as written | input that shows it | evidently intended | confidence | as-written member | corrected member |
|---|---|---|---|---|---|---|
| lib/customErrors.js:55-57 | `inherit` passes a record argument straight to `create`, whose record form then uses the record's own parent (default `Error`) and ignores the receiver | `Two.inherit({name: "Four", construct: f})` with `Two` a subclass of `One`: `new Four(4) instanceof Two` is false, while test/customError_test.js:36 expects true | the receiver becomes the record's parent, as `index.js:74-77` does | not executed | LegacyFactory.InheritRecordDropsReceiver | Factory.InheritRecord |
| lib/customErrors.js:86-93 | a `null` base is not treated like `undefined`, so it becomes the name "null"; `get` has no base-name fallback (lines 125-127) | `new Block({One: true}, "ns", null).get("Base")` throws `ErrorNotFound("ns.Base")`, while test/customError_test.js:278-280 expects a class | `null` selects the default base "Base", which `get` can return, as `index.js:118` and `index.js:158-160` do | not executed | BlockResolution.LegacyNullBaseGetFails | BlockResolution.NullBaseGetResolves |
