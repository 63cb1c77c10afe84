/**
 * The `Block` object: a mapping of keys to entries, a namespace prefix, a
 * base slot, a memo table filled in place by `get`, and the `created` flag of
 * `createAll`. Every method is proved to do exactly what the functions of
 * `BlockResolution` say.
 */
module ErrorBlock {
  import opened Wrappers
  import opened ErrorTypes
  import opened BlockResolution

  class Block {
    const version: Version
    const entries: seq<(string, Entry)>
    const prefix: string
    /** Witnesses that the string references of `entries` are acyclic. */
    ghost const rank: map<string, nat>
    /** Every type made so far; the block appends the types it makes. */
    var reg: seq<Descriptor>
    var memo: map<string, TypeId>
    var base: BaseSlot
    var created: bool

    ghost function Cfg(): Config {
      Config(version, entries, prefix, rank)
    }

    function State(): BlockState
      reads this
    {
      BlockState(reg, memo, base)
    }

    /** A consistent block; once `created` is set, every key has a stored type. */
    ghost predicate Valid()
      reads this
    {
      && ConfigOk(Cfg()) && StateValid(Cfg(), State())
      && (created ==> forall i :: 0 <= i < |entries| ==> entries[i].0 in memo)
    }

    /** The field set-up of `new Block(errors, namespace, base, lazy)`, before any `createAll`. */
    constructor (version: Version, entries: seq<(string, Entry)>, namespace: Option<string>, baseArg: BaseArg,
                 reg: seq<Descriptor>, ghost rank: map<string, nat>)
      requires ConfigOk(Config(version, entries, Prefix(namespace), rank))
      requires StateValid(Config(version, entries, Prefix(namespace), rank),
                          BlockState(reg, map[], NormalizeBase(version, baseArg)))
      ensures Valid()
      ensures this.version == version && this.entries == entries && this.rank == rank
      ensures prefix == Prefix(namespace) && base == NormalizeBase(version, baseArg)
      ensures this.reg == reg && memo == map[] && !created
    {
      this.version := version;
      this.entries := entries;
      this.prefix := Prefix(namespace);
      this.rank := rank;
      this.reg := reg;
      this.memo := map[];
      this.base := NormalizeBase(version, baseArg);
      this.created := false;
    }

    /**
     * `new Block(errors, namespace, base, lazy)`: a lazy block resolves
     * nothing yet; an eager one runs `createAll`, and an exception there
     * means no block is returned.
     */
    static method New(version: Version, entries: seq<(string, Entry)>, namespace: Option<string>, baseArg: BaseArg,
                      lazy: bool, reg: seq<Descriptor>, ghost rank: map<string, nat>) returns (r: Result<Block, LibraryError>)
      requires ConfigOk(Config(version, entries, Prefix(namespace), rank))
      requires StateValid(Config(version, entries, Prefix(namespace), rank),
                          BlockState(reg, map[], NormalizeBase(version, baseArg)))
      ensures r.Success? ==> fresh(r.value) && r.value.Valid()
      ensures r.Success? ==> r.value.version == version && r.value.entries == entries && r.value.prefix == Prefix(namespace)
      ensures lazy ==> r.Success? && r.value.State() == BlockState(reg, map[], NormalizeBase(version, baseArg))
                       && !r.value.created
      ensures !lazy ==>
                var out := ResolveAll(Config(version, entries, Prefix(namespace), rank),
                                      BlockState(reg, map[], NormalizeBase(version, baseArg)), entries);
                && (r.Success? <==> out.1.Pass?)
                && (r.Success? ==> r.value.State() == out.0 && r.value.created)
                && (r.Failure? ==> r.error == out.1.error)
    {
      var b := new Block(version, entries, namespace, baseArg, reg, rank);
      if !lazy {
        var o := b.CreateAll();
        if o.Fail? {
          return Failure(o.error);
        }
      }
      return Success(b);
    }

    /** `getBase()`: make the base type at most once, then return it. */
    method GetBase() returns (t: TypeId)
      requires Valid()
      modifies this
      ensures Valid() && created == old(created)
      ensures (State(), t) == ResolveBase(Cfg(), old(State()))
    {
      match base {
        case Resolved(id) =>
          t := id;
        case Named(n) =>
          var m := CreateIn(version, reg, prefix + n, Some(ErrorId), Some(""), true, None);
          reg := m.reg;
          memo := memo[n := m.id];
          base := Resolved(m.id);
          t := m.id;
      }
    }

    /** `this[name] = create(params)` once the parent is resolved. */
    method Build(name: string, parent: Option<TypeId>, p: Params) returns (t: TypeId)
      requires Valid() && (parent.Some? ==> parent.value < |reg|)
      modifies this
      ensures Valid() && created == old(created)
      ensures (State(), t) == BuildEntry(Cfg(), old(State()), name, parent, p)
    {
      var m := CreateIn(version, reg, prefix + name, parent, p.defmessage, p.isAbstract, p.construct);
      reg := m.reg;
      memo := memo[name := m.id];
      t := m.id;
    }

    /** `get(name)`, with its memo hit, base fallback, entry decoding and recursive resolution. */
    method Get(name: string) returns (r: Result<TypeId, LibraryError>)
      requires Valid()
      modifies this
      ensures Valid() && created == old(created)
      ensures (State(), r) == Resolve(Cfg(), old(State()), name)
      ensures old(name in memo) ==> r == Success(old(memo[name])) && State() == old(State())
      ensures r.Success? ==> name in memo && memo[name] == r.value
      decreases Measure(Cfg(), name)
    {
      if name in memo {
        return Success(memo[name]);
      }
      var full := prefix + name;
      var idx := IndexOf(entries, name);
      if idx.None? {
        if version == Current && base == Named(name) {
          var b := GetBase();
          return Success(b);
        }
        return Failure(ErrorNotFound(full));
      }
      var p := Decode(entries[idx.value].1);
      match p.ptr {
        case Func(t) =>
          memo := memo[name := t];
          r := Success(t);
        case Flag(b) =>
          var parent: Option<TypeId> := None;
          if b {
            var bt := GetBase();
            parent := Some(bt);
          }
          var t := Build(name, parent, p);
          r := Success(t);
        case Ref(k) =>
          var pr := Get(k);
          if pr.Failure? {
            return pr;
          }
          var t := Build(name, Some(pr.value), p);
          r := Success(t);
        case Malformed =>
          r := Failure(ErrorNotFound("Error " + full + " is not found in the block"));
      }
    }

    /**
     * `createAll()`: nothing once `created` is set; otherwise `get` on every
     * key in order, and `created` is set only when all of them succeeded.
     */
    method CreateAll() returns (o: Outcome<LibraryError>)
      requires Valid()
      modifies this
      ensures Valid()
      ensures old(created) ==> o == Pass && State() == old(State()) && created
      ensures !old(created) ==> (State(), o) == ResolveAll(Cfg(), old(State()), entries) && created == o.Pass?
      ensures o.Pass? ==> forall i :: 0 <= i < |entries| ==> entries[i].0 in memo
    {
      if created {
        return Pass;
      }
      ResolveAllCovers(Cfg(), State(), entries);
      var i := 0;
      while i < |entries|
        invariant 0 <= i <= |entries|
        invariant Valid() && !created
        invariant ResolveAll(Cfg(), old(State()), entries) == ResolveAll(Cfg(), State(), entries[i..])
      {
        var res := Get(entries[i].0);
        if res.Failure? {
          return Fail(res.error);
        }
        i := i + 1;
      }
      created := true;
      return Pass;
    }

    /** `raise(name, message)`: `get`, then throw a new instance built from `message`. */
    method Raise(name: string, message: Arg, routines: Routines) returns (thrown: Result<Instance, LibraryError>)
      requires Valid()
      modifies this
      ensures Valid() && created == old(created)
      ensures var out := Resolve(Cfg(), old(State()), name);
              && State() == out.0
              && thrown == (if out.1.Failure? then Failure(out.1.error)
                            else Instantiate(out.0.reg, out.1.value, [message], routines))
    {
      var r := Get(name);
      if r.Failure? {
        return Failure(r.error);
      }
      thrown := Instantiate(reg, r.value, [message], routines);
    }
  }
}
