/**
 * What a `Block` does, as functions on its state: the entry shapes, base
 * normalization, `get` (with memoization, lazy base synthesis and recursive
 * resolution of string references), `getBase` and `createAll`, for both the
 * current version (index.js) and the older one (lib/customErrors.js).
 */
module BlockResolution {
  import opened Wrappers
  import opened ErrorTypes
  import Factory
  import LegacyFactory

  /** Which copy of the library: index.js, or the older lib/customErrors.js. */
  datatype Version = Current | Legacy

  /** What a block entry (or the head of a list entry, or a record's parent) points at. */
  datatype Pointer =
    | Flag(b: bool)       // true: under the base type; false: under Error
    | Ref(key: string)    // another key of the block, resolved by `get`
    | Func(id: TypeId)    // an existing type, used as it is
    | Malformed           // any other value (a number, undefined, null inside a list or record, ...)

  /** One value of the block's mapping, one variant per shape. */
  datatype Entry =
    | Direct(ptr: Pointer)
    | List(head: Pointer, defmessage: Option<string>, isAbstract: bool)
    | Record(parent: Option<Pointer>, defmessage: Option<string>, isAbstract: bool, construct: Option<RoutineId>)

  /** The arguments `get` hands to `create` for an entry, with the pointer still to resolve. */
  datatype Params = Params(ptr: Pointer, defmessage: Option<string>, isAbstract: bool, construct: Option<RoutineId>)

  /** The `base` argument of the `Block` constructor. */
  datatype BaseArg =
    | Absent                 // undefined
    | NullArg                // null
    | BoolArg(b: bool)
    | FunctionArg(id: TypeId)
    | OtherArg(text: string) // any other value, by its `String(...)` form

  /** The block's base slot: a name still to synthesize, or a type. */
  datatype BaseSlot = Named(name: string) | Resolved(id: TypeId)

  /**
   * The fixed part of a block: version, mapping and name prefix, plus a rank
   * on keys that witnesses that string references are acyclic.
   */
  datatype Config = Config(version: Version, entries: seq<(string, Entry)>, prefix: string, rank: map<string, nat>)

  /** The changing part of a block: the types made so far, the memo table and the base slot. */
  datatype BlockState = BlockState(reg: seq<Descriptor>, memo: map<string, TypeId>, base: BaseSlot)

  /** Reads an entry as the source does: a list supplies defmessage and abstract; a record's parent defaults to `true`. */
  function Decode(e: Entry): (r: Params)
    ensures e.Direct? ==> r == Params(e.ptr, None, false, None)
    ensures e.List? ==> r == Params(e.head, e.defmessage, e.isAbstract, None)
    ensures e.Record? ==> r.defmessage == e.defmessage && r.isAbstract == e.isAbstract && r.construct == e.construct
    ensures e.Record? && e.parent.Some? ==> r.ptr == e.parent.value
    ensures e.Record? && e.parent.None? ==> r.ptr == Flag(true)
  {
    match e
    case Direct(p) => Params(p, None, false, None)
    case List(head, defmessage, isAbstract) => Params(head, defmessage, isAbstract, None)
    case Record(parent, defmessage, isAbstract, construct) =>
      Params(parent.GetOr(Flag(true)), defmessage, isAbstract, construct)
  }

  /** `namespace ? namespace + "." : ""`. */
  function Prefix(namespace: Option<string>): (p: string)
    ensures namespace.None? || namespace.value == "" ==> p == ""
    ensures namespace.Some? && namespace.value != "" ==>
              |p| == |namespace.value| + 1 && p[..|namespace.value|] == namespace.value && p[|p| - 1] == '.'
  {
    if namespace.Some? && namespace.value != "" then namespace.value + "." else ""
  }

  /**
   * The constructor's normalization of `base`: undefined and true (and, in
   * the current version, null) become the name "Base", false becomes `Error`,
   * a type is kept, and anything else becomes its string form.
   */
  function NormalizeBase(version: Version, arg: BaseArg): (slot: BaseSlot)
    ensures slot.Resolved? <==> arg.FunctionArg? || arg == BoolArg(false)
    ensures arg == BoolArg(false) ==> slot == Resolved(ErrorId)
    ensures arg.FunctionArg? ==> slot == Resolved(arg.id)
    ensures arg.OtherArg? ==> slot == Named(arg.text)
    ensures arg == Absent || arg == BoolArg(true) ==> slot == Named("Base")
    ensures arg == NullArg ==> slot == Named(if version == Current then "Base" else "null")
  {
    match arg
    case Absent => Named("Base")
    case NullArg => if version == Current then Named("Base") else Named("null")
    case BoolArg(b) => if b then Named("Base") else Resolved(ErrorId)
    case FunctionArg(id) => Resolved(id)
    case OtherArg(text) => Named(text)
  }

  /** The position of `key` in the mapping (`hasOwnProperty`), if present. */
  function IndexOf(entries: seq<(string, Entry)>, key: string): (r: Option<nat>)
    ensures r.Some? ==> r.value < |entries| && entries[r.value].0 == key
    ensures r.None? ==> forall i :: 0 <= i < |entries| ==> entries[i].0 != key
  {
    if |entries| == 0 then None
    else if entries[0].0 == key then Some(0)
    else match IndexOf(entries[1..], key)
      case Some(i) => Some(i + 1)
      case None => None
  }

  /** An object's keys are distinct. */
  ghost predicate DistinctKeys(entries: seq<(string, Entry)>) {
    forall i, j :: 0 <= i < j < |entries| ==> entries[i].0 != entries[j].0
  }

  /** Every string reference to another key points to a key of lower rank: references are acyclic. */
  ghost predicate Ranked(entries: seq<(string, Entry)>, rank: map<string, nat>) {
    && (forall i :: 0 <= i < |entries| ==> entries[i].0 in rank)
    && (forall i, j :: 0 <= i < |entries| && 0 <= j < |entries| && Decode(entries[i].1).ptr == Ref(entries[j].0) ==>
          rank[entries[j].0] < rank[entries[i].0])
  }

  ghost predicate ConfigOk(cfg: Config) {
    DistinctKeys(cfg.entries) && Ranked(cfg.entries, cfg.rank)
  }

  /** The termination measure of `get`: keys of the mapping by rank, all other names below them. */
  function Measure(cfg: Config, name: string): nat {
    match IndexOf(cfg.entries, name)
    case Some(_) => if name in cfg.rank then cfg.rank[name] + 1 else 0
    case None => 0
  }

  /** Every type an entry names directly is already in the registry. */
  predicate EntriesFit(entries: seq<(string, Entry)>, n: nat) {
    forall i :: 0 <= i < |entries| ==> (Decode(entries[i].1).ptr.Func? ==> Decode(entries[i].1).ptr.id < n)
  }

  /** A block state whose memo table, base slot and entries only name types of its registry. */
  ghost predicate StateValid(cfg: Config, st: BlockState) {
    && Valid(st.reg)
    && (forall k :: k in st.memo ==> st.memo[k] < |st.reg|)
    && (st.base.Resolved? ==> st.base.id < |st.reg|)
    && EntriesFit(cfg.entries, |st.reg|)
  }

  /** `create` of the version the block belongs to. */
  function CreateIn(version: Version, reg: seq<Descriptor>, name: string, parent: Option<TypeId>,
                    defmessage: Option<string>, isAbstract: bool, construct: Option<RoutineId>): (m: Made)
    requires Valid(reg) && Factory.Fits(reg, parent)
    ensures Valid(m.reg) && reg <= m.reg && |m.reg| == |reg| + 1 && m.id == |reg|
    ensures m.reg[m.id].name == name && m.reg[m.id].isAbstract == isAbstract
    ensures m.reg[m.id].parent == Some(Factory.ParentOf(parent))
    ensures defmessage.Some? ==> m.reg[m.id].defmessage == defmessage
    ensures forall u :: IsA(m.reg, m.id, u) <==> u == m.id || IsA(reg, Factory.ParentOf(parent), u)
    ensures version == Current ==> m == Factory.Create(reg, name, parent, defmessage, isAbstract, construct)
    ensures version == Legacy ==> m == LegacyFactory.Create(reg, name, parent, defmessage, isAbstract, construct)
  {
    match version
    case Current => Factory.Create(reg, name, parent, defmessage, isAbstract, construct)
    case Legacy => LegacyFactory.Create(reg, name, parent, defmessage, isAbstract, construct)
  }

  /**
   * `getBase`: while the base slot holds a name, make an abstract type named
   * prefix + name under `Error` with default message "", store it under that
   * name and in the base slot; once the slot holds a type, return it.
   */
  function ResolveBase(cfg: Config, st: BlockState): (out: (BlockState, TypeId))
    requires StateValid(cfg, st)
    ensures StateValid(cfg, out.0) && st.reg <= out.0.reg && st.memo.Keys <= out.0.memo.Keys
    ensures out.0.base == Resolved(out.1) && out.1 < |out.0.reg|
    ensures st.base.Resolved? ==> out == (st, st.base.id)
    ensures st.base.Named? ==>
              && out.1 == |st.reg| && |out.0.reg| == |st.reg| + 1
              && out.0.memo == st.memo[st.base.name := out.1]
              && out.0.reg[out.1].name == cfg.prefix + st.base.name
              && out.0.reg[out.1].isAbstract
              && out.0.reg[out.1].parent == Some(ErrorId)
              && out.0.reg[out.1].defmessage == Some("")
  {
    match st.base
    case Resolved(id) => (st, id)
    case Named(n) =>
      var m := CreateIn(cfg.version, st.reg, cfg.prefix + n, Some(ErrorId), Some(""), true, None);
      (BlockState(m.reg, st.memo[n := m.id], Resolved(m.id)), m.id)
  }

  /** `this[name] = create(params)` with the resolved parent and the name prefix + key. */
  function BuildEntry(cfg: Config, st: BlockState, name: string, parent: Option<TypeId>, p: Params): (out: (BlockState, TypeId))
    requires StateValid(cfg, st) && Factory.Fits(st.reg, parent)
    ensures StateValid(cfg, out.0) && st.reg <= out.0.reg && out.0.base == st.base
    ensures out.1 == |st.reg| && |out.0.reg| == |st.reg| + 1 && out.0.memo == st.memo[name := out.1]
    ensures out.0.reg[out.1].name == cfg.prefix + name && out.0.reg[out.1].isAbstract == p.isAbstract
    ensures out.0.reg[out.1].parent == Some(Factory.ParentOf(parent))
    ensures p.defmessage.Some? ==> out.0.reg[out.1].defmessage == p.defmessage
    ensures forall u :: IsA(out.0.reg, out.1, u) <==> u == out.1 || IsA(st.reg, Factory.ParentOf(parent), u)
    ensures out.0.reg == CreateIn(cfg.version, st.reg, cfg.prefix + name, parent, p.defmessage, p.isAbstract, p.construct).reg
    ensures p.construct.Some? ==> out.0.reg[out.1].construct == p.construct
  {
    var m := CreateIn(cfg.version, st.reg, cfg.prefix + name, parent, p.defmessage, p.isAbstract, p.construct);
    (BlockState(m.reg, st.memo[name := m.id], st.base), m.id)
  }

  /**
   * `get(name)`: a memo hit returns the stored type; a key missing from the
   * mapping is the base (current version only, when it is the base name) or
   * `ErrorNotFound(prefix + name)`; otherwise the entry is decoded, its
   * pointer resolved (an existing type is stored and returned as it is) and
   * a new type made and stored.
   */
  function Resolve(cfg: Config, st: BlockState, name: string): (out: (BlockState, Result<TypeId, LibraryError>))
    requires ConfigOk(cfg) && StateValid(cfg, st)
    ensures StateValid(cfg, out.0) && st.reg <= out.0.reg && st.memo.Keys <= out.0.memo.Keys
    ensures out.1.Success? ==> name in out.0.memo && out.0.memo[name] == out.1.value
    decreases Measure(cfg, name)
  {
    if name in st.memo then (st, Success(st.memo[name]))
    else
      var full := cfg.prefix + name;
      match IndexOf(cfg.entries, name)
      case None =>
        if cfg.version == Current && st.base == Named(name) then
          var (st1, b) := ResolveBase(cfg, st);
          (st1, Success(b))
        else
          (st, Failure(ErrorNotFound(full)))
      case Some(i) =>
        var p := Decode(cfg.entries[i].1);
        match p.ptr
        case Func(t) => (st.(memo := st.memo[name := t]), Success(t))
        case Flag(b) =>
          if b then
            var (st1, base) := ResolveBase(cfg, st);
            var (st2, t) := BuildEntry(cfg, st1, name, Some(base), p);
            (st2, Success(t))
          else
            var (st2, t) := BuildEntry(cfg, st, name, None, p);
            (st2, Success(t))
        case Ref(k) =>
          var (st1, r) := Resolve(cfg, st, k);
          if r.Failure? then (st1, r)
          else
            var (st2, t) := BuildEntry(cfg, st1, name, Some(r.value), p);
            (st2, Success(t))
        case Malformed => (st, Failure(ErrorNotFound("Error " + full + " is not found in the block")))
  }

  /** The loop of `createAll`: `get` on every key in order, stopping at the first exception. */
  function ResolveAll(cfg: Config, st: BlockState, es: seq<(string, Entry)>): (out: (BlockState, Outcome<LibraryError>))
    requires ConfigOk(cfg) && StateValid(cfg, st)
    ensures StateValid(cfg, out.0) && st.reg <= out.0.reg && st.memo.Keys <= out.0.memo.Keys
    decreases |es|
  {
    if es == [] then (st, Pass)
    else
      var (st1, r) := Resolve(cfg, st, es[0].0);
      if r.Failure? then (st1, Fail(r.error)) else ResolveAll(cfg, st1, es[1..])
  }

  /** The names a base slot may still add to the memo table. */
  function BaseKey(slot: BaseSlot): set<string> {
    if slot.Named? then {slot.name} else {}
  }

  /** `name` and the keys its chain of string references passes through. */
  function Reach(cfg: Config, name: string): set<string>
    requires ConfigOk(cfg)
    decreases Measure(cfg, name)
  {
    {name} +
      match IndexOf(cfg.entries, name)
      case Some(i) => (match Decode(cfg.entries[i].1).ptr case Ref(k) => Reach(cfg, k) case _ => {})
      case None => {}
  }

  /**
   * Lazy resolution: `get(name)` stores types only under `name`, the keys of
   * its reference chain and the base name.
   */
  lemma {:induction false} ResolveReach(cfg: Config, st: BlockState, name: string)
    requires ConfigOk(cfg) && StateValid(cfg, st)
    ensures Resolve(cfg, st, name).0.memo.Keys <= st.memo.Keys + Reach(cfg, name) + BaseKey(st.base)
    decreases Measure(cfg, name)
  {
    if name !in st.memo {
      match IndexOf(cfg.entries, name)
      case None =>
      case Some(i) =>
        match Decode(cfg.entries[i].1).ptr
        case Ref(k) => ResolveReach(cfg, st, k);
        case _ =>
    }
  }

  /** The base name is not a key of the mapping and has not been stored yet. */
  ghost predicate NoBaseClash(cfg: Config, st: BlockState) {
    st.base.Named? ==> IndexOf(cfg.entries, st.base.name).None? && st.base.name !in st.memo
  }

  /**
   * Memo identity: what `get` stored once stays stored, so later calls return
   * the identical type (provided the base name is not also a key).
   */
  lemma {:induction false} ResolveKeepsMemo(cfg: Config, st: BlockState, name: string)
    requires ConfigOk(cfg) && StateValid(cfg, st) && NoBaseClash(cfg, st)
    ensures NoBaseClash(cfg, Resolve(cfg, st, name).0)
    ensures forall k :: k in st.memo ==> Resolve(cfg, st, name).0.memo[k] == st.memo[k]
    decreases Measure(cfg, name)
  {
    if name !in st.memo {
      match IndexOf(cfg.entries, name)
      case None =>
      case Some(i) =>
        match Decode(cfg.entries[i].1).ptr
        case Ref(k) => ResolveKeepsMemo(cfg, st, k);
        case _ =>
    }
  }

  /** A second `get` of a name returns the identical type and changes nothing. */
  lemma ResolveIdempotent(cfg: Config, st: BlockState, name: string)
    requires ConfigOk(cfg) && StateValid(cfg, st)
    ensures var (st1, r) := Resolve(cfg, st, name);
            r.Success? ==> Resolve(cfg, st1, name) == (st1, r)
  {
  }

  /** `getBase` makes the base type at most once: a second call returns the same type and changes nothing. */
  lemma ResolveBaseOnce(cfg: Config, st: BlockState)
    requires StateValid(cfg, st)
    ensures var (st1, b) := ResolveBase(cfg, st);
            ResolveBase(cfg, st1) == (st1, b)
  {
  }

  /**
   * A name that is neither stored nor a key: the current version falls back
   * to the base when the name is the base name; otherwise `get` throws
   * `ErrorNotFound` carrying prefix + name and changes nothing.
   */
  lemma ResolveMissing(cfg: Config, st: BlockState, name: string)
    requires ConfigOk(cfg) && StateValid(cfg, st)
    requires name !in st.memo && IndexOf(cfg.entries, name).None?
    ensures var (st1, r) := Resolve(cfg, st, name);
            if cfg.version == Current && st.base == Named(name) then
              && r == Success(|st.reg|) && st1.base == Resolved(|st.reg|)
              && st1.reg[|st.reg|].name == cfg.prefix + name && st1.reg[|st.reg|].isAbstract
              && st1.reg[|st.reg|].parent == Some(ErrorId)
            else
              st1 == st && r == Failure(ErrorNotFound(cfg.prefix + name))
  {
  }

  /**
   * The older version has no base-name fallback: a name that is neither
   * stored nor a key always throws `ErrorNotFound(prefix + name)`, even when
   * it is the base name.
   */
  lemma LegacyMissingKeyNotFound(cfg: Config, st: BlockState, name: string)
    requires ConfigOk(cfg) && StateValid(cfg, st) && cfg.version == Legacy
    requires name !in st.memo && IndexOf(cfg.entries, name).None?
    ensures Resolve(cfg, st, name) == (st, Failure(ErrorNotFound(cfg.prefix + name)))
  {
  }

  /**
   * Entry decoding: an existing type is stored and returned with no new type;
   * a malformed pointer throws `ErrorNotFound`; otherwise a new type named
   * prefix + key is made, under the base for `true`, under `Error` for
   * `false`, and under the referenced key's type for a string.
   */
  lemma ResolveEntry(cfg: Config, st: BlockState, name: string, i: nat)
    requires ConfigOk(cfg) && StateValid(cfg, st)
    requires name !in st.memo && i < |cfg.entries| && cfg.entries[i].0 == name
    ensures var (st1, r) := Resolve(cfg, st, name);
            var p := Decode(cfg.entries[i].1);
            && (p.ptr.Func? ==> r == Success(p.ptr.id) && st1.reg == st.reg)
            && (p.ptr.Malformed? ==>
                  st1 == st && r == Failure(ErrorNotFound("Error " + (cfg.prefix + name) + " is not found in the block")))
            && (p.ptr.Flag? ==> r.Success?)
            && (r.Success? && !p.ptr.Func? ==>
                  && r.value == |st1.reg| - 1 && |st.reg| <= r.value
                  && st1.reg[r.value].name == cfg.prefix + name
                  && st1.reg[r.value].isAbstract == p.isAbstract
                  && (p.defmessage.Some? ==> st1.reg[r.value].defmessage == p.defmessage)
                  && (p.construct.Some? ==> st1.reg[r.value].construct == p.construct))
            && (p.ptr == Flag(true) && st.base.Named? && p.defmessage.None? ==>
                  st1.reg[r.value].defmessage == (if cfg.version == Current then Some("") else None))
            && (p.ptr == Flag(true) ==>
                  st1.base.Resolved? && st1.reg[r.value].parent == Some(st1.base.id)
                  && IsA(st1.reg, r.value, st1.base.id))
            && (p.ptr == Flag(false) ==>
                  && st1.reg[r.value].parent == Some(ErrorId)
                  && st1.base == st.base
                  && (st.base.Resolved? && st.base.id != ErrorId ==> !IsA(st1.reg, r.value, st.base.id)))
            && (p.ptr.Ref? ==>
                  var (stk, rk) := Resolve(cfg, st, p.ptr.key);
                  && (r.Success? <==> rk.Success?)
                  && (rk.Failure? ==> st1 == stk && r == rk))
            && (p.ptr.Ref? && r.Success? ==>
                  && p.ptr.key in st1.memo && st1.reg[r.value].parent == Some(st1.memo[p.ptr.key])
                  && IsA(st1.reg, r.value, st1.memo[p.ptr.key]))
  {
    var p := Decode(cfg.entries[i].1);
    assert IndexOf(cfg.entries, name) == Some(i);
    if p.ptr == Flag(false) && st.base.Resolved? && st.base.id != ErrorId {
      var (st1, r) := Resolve(cfg, st, name);
      assert !IsA(st.reg, ErrorId, st.base.id);
    }
    if p.ptr.Ref? {
      var k := p.ptr.key;
      assert k != name by {
        if IndexOf(cfg.entries, k).Some? {
          var j := IndexOf(cfg.entries, k).value;
          assert cfg.rank[cfg.entries[j].0] < cfg.rank[cfg.entries[i].0];
        }
      }
    }
  }

  /** When `createAll`'s loop completes, every key of the mapping has a stored type. */
  lemma {:induction false} ResolveAllCovers(cfg: Config, st: BlockState, es: seq<(string, Entry)>)
    requires ConfigOk(cfg) && StateValid(cfg, st)
    ensures var (st1, o) := ResolveAll(cfg, st, es);
            o.Pass? ==> forall i :: 0 <= i < |es| ==> es[i].0 in st1.memo
    decreases |es|
  {
    if es != [] {
      var (st1, r) := Resolve(cfg, st, es[0].0);
      if r.Success? {
        ResolveAllCovers(cfg, st1, es[1..]);
        var (st2, o) := ResolveAll(cfg, st1, es[1..]);
        if o.Pass? {
          forall i | 0 <= i < |es| ensures es[i].0 in st2.memo {
            if i > 0 { assert es[i].0 == es[1..][i - 1].0; }
          }
        }
      }
    }
  }

  /** The mapping `{One: true}` under namespace "ns", with base argument `null`, in the given version. */
  function NullBaseConfig(version: Version): Config {
    Config(version, [("One", Direct(Flag(true)))], Prefix(Some("ns")), map["One" := 0])
  }

  /** A fresh block state for `NullBaseConfig`, before `createAll`. */
  function NullBaseStart(version: Version): BlockState {
    BlockState(Builtins(), map[], NormalizeBase(version, NullArg))
  }

  /** In the older version, `get("One")` on the `null`-base block stores the base under "null" and One under "One". */
  lemma LegacyNullBaseOne(cfg: Config, st0: BlockState)
    requires cfg == NullBaseConfig(Legacy) && st0 == NullBaseStart(Legacy)
    ensures ConfigOk(cfg) && StateValid(cfg, st0)
    ensures Resolve(cfg, st0, "One").1.Success? && Resolve(cfg, st0, "One").0.memo.Keys == {"null", "One"}
  {
    assert st0.base == Named("null");
    assert IndexOf(cfg.entries, "One") == Some(0);
    var (sb, b) := ResolveBase(cfg, st0);
    assert sb.memo.Keys == {"null"};
  }

  /**
   * As written in the older version: with base `null` the base is named
   * "null", and after `createAll` a `get("Base")` throws `ErrorNotFound`
   * for "ns.Base", although "One" is built under a synthesized base.
   */
  lemma LegacyNullBaseGetFails(cfg: Config, st0: BlockState)
    requires cfg == NullBaseConfig(Legacy) && st0 == NullBaseStart(Legacy)
    ensures ConfigOk(cfg) && StateValid(cfg, st0) && cfg.prefix == "ns."
    ensures var (st1, o) := ResolveAll(cfg, st0, cfg.entries);
            && o.Pass?
            && Resolve(cfg, st1, "Base").1 == Failure(ErrorNotFound(cfg.prefix + "Base"))
  {
    assert cfg.prefix == "ns.";
    LegacyNullBaseOne(cfg, st0);
    var (st1, r) := Resolve(cfg, st0, "One");
    assert ResolveAll(cfg, st0, cfg.entries) == ResolveAll(cfg, st1, []);
    assert IndexOf(cfg.entries, "Base").None? && "Base" !in st1.memo;
    ResolveMissing(cfg, st1, "Base");
  }

  /**
   * In the current version, `get("One")` on the `null`-base block makes the
   * base "ns.Base", stores it under "Base", and builds One under it.
   */
  lemma CurrentNullBaseOne(cfg: Config, st0: BlockState)
    requires cfg == NullBaseConfig(Current) && st0 == NullBaseStart(Current)
    ensures ConfigOk(cfg) && StateValid(cfg, st0)
    ensures var (st1, r) := Resolve(cfg, st0, "One");
            && r.Success? && "Base" in st1.memo && st1.base == Resolved(st1.memo["Base"])
            && st1.reg[st1.memo["Base"]].name == cfg.prefix + "Base" && st1.reg[st1.memo["Base"]].isAbstract
            && IsA(st1.reg, st1.memo["One"], st1.memo["Base"])
  {
    assert st0.base == Named("Base");
    assert IndexOf(cfg.entries, "One") == Some(0);
    ResolveEntry(cfg, st0, "One", 0);
  }

  /**
   * Corrected (the current version): base `null` means "Base", `get("Base")`
   * returns the synthesized abstract base, and "One" is a subtype of it.
   */
  lemma NullBaseGetResolves(cfg: Config, st0: BlockState)
    requires cfg == NullBaseConfig(Current) && st0 == NullBaseStart(Current)
    ensures ConfigOk(cfg) && StateValid(cfg, st0) && cfg.prefix == "ns."
    ensures var (st1, o) := ResolveAll(cfg, st0, cfg.entries);
            var (st2, r) := Resolve(cfg, st1, "Base");
            && o.Pass? && r.Success? && st2 == st1
            && st1.reg[r.value].name == cfg.prefix + "Base" && st1.reg[r.value].isAbstract
            && IsA(st1.reg, st1.memo["One"], r.value)
  {
    CurrentNullBaseOne(cfg, st0);
    var (st1, r) := Resolve(cfg, st0, "One");
    assert ResolveAll(cfg, st0, cfg.entries) == ResolveAll(cfg, st1, []);
  }
}
