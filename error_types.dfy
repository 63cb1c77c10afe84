/**
 * The type universe shared by both versions of the library: exception-type
 * descriptors, the subtype relation ("instanceof"), the constructor that every
 * factory-made type runs when instantiated, and the two exceptions the library
 * itself throws.
 */
module ErrorTypes {
  import opened Wrappers

  /** A type is named by its position in the registry. */
  type TypeId = nat
  /** An opaque user-supplied construct routine. */
  type RoutineId = nat
  /** One constructor argument; `None` is `null` or `undefined`. */
  type Arg = Option<string>
  /**
   * What a construct routine leaves in `this.message` when run on the given
   * arguments; `None` means it did not assign a message.
   */
  type Routines = (RoutineId, seq<Arg>) -> Option<string>

  /**
   * Where a type comes from. Only types made by the current factory carry the
   * `ce` record, and with it the values the caller declared; the platform's
   * builtins and the types made by the older factory have none.
   */
  datatype Origin =
    | Builtin
    | Factory(declaredDefmessage: Option<string>, declaredConstruct: Option<RoutineId>)
    | NoRecord

  /**
   * One exception type: its name, its parent constructor, the default message
   * on its prototype, the abstract flag and the construct routine it runs.
   */
  datatype Descriptor = Descriptor(
    name: string,
    parent: Option<TypeId>,
    defmessage: Option<string>,
    isAbstract: bool,
    construct: Option<RoutineId>,
    origin: Origin)

  /** The argument bundle of `create`, in positional order or as one record. */
  datatype Decl = Decl(
    name: string,
    parent: Option<TypeId>,
    defmessage: Option<string>,
    isAbstract: bool,
    construct: Option<RoutineId>)

  /** The registry after a type was made, and the new type. */
  datatype Made = Made(reg: seq<Descriptor>, id: TypeId)

  const ErrorId: TypeId := 0
  const TypeErrorId: TypeId := 1

  /** The platform's root `Error` and its `TypeError`; neither was made by the factory. */
  const ErrorType := Descriptor("Error", None, Some(""), false, None, Builtin)
  const TypeErrorType := Descriptor("TypeError", Some(ErrorId), Some(""), false, None, Builtin)

  /** The registry every program starts with. */
  function Builtins(): (reg: seq<Descriptor>)
    ensures Valid(reg) && |reg| == 2
  {
    [ErrorType, TypeErrorType]
  }

  /**
   * A well-formed registry: it starts with the builtins, only `Error` has no
   * parent, and every parent was made before its child, so parent links form
   * a tree rooted at `Error`.
   */
  ghost predicate Valid(reg: seq<Descriptor>) {
    && |reg| >= 2
    && reg[ErrorId] == ErrorType && reg[TypeErrorId] == TypeErrorType
    && forall i :: 0 <= i < |reg| ==>
         (reg[i].parent.None? <==> i == 0) && (reg[i].parent.Some? ==> reg[i].parent.value < i)
  }

  /** `u` is `t` or one of its ancestors: an instance of `t` is `instanceof u`. */
  predicate IsA(reg: seq<Descriptor>, t: TypeId, u: TypeId)
    requires Valid(reg) && t < |reg|
    decreases t
  {
    t == u || (reg[t].parent.Some? && IsA(reg, reg[t].parent.value, u))
  }

  /** Every type, builtin or made, is a subtype of `Error`. */
  lemma {:induction false} IsAError(reg: seq<Descriptor>, t: TypeId)
    requires Valid(reg) && t < |reg|
    ensures IsA(reg, t, ErrorId)
    decreases t
  {
    if t != ErrorId {
      IsAError(reg, reg[t].parent.value);
    }
  }

  /** Subtyping is transitive along the parent links. */
  lemma {:induction false} IsATransitive(reg: seq<Descriptor>, a: TypeId, b: TypeId, c: TypeId)
    requires Valid(reg) && a < |reg| && b < |reg|
    requires IsA(reg, a, b) && IsA(reg, b, c)
    ensures IsA(reg, a, c)
    decreases a
  {
    if a != b {
      IsATransitive(reg, reg[a].parent.value, b, c);
    }
  }

  /** Ancestors are made before their descendants. */
  lemma {:induction false} IsABelow(reg: seq<Descriptor>, t: TypeId, u: TypeId)
    requires Valid(reg) && t < |reg| && IsA(reg, t, u)
    ensures u <= t
    decreases t
  {
    if t != u {
      IsABelow(reg, reg[t].parent.value, u);
    }
  }

  /** Making more types never changes the ancestry of the types already made. */
  lemma {:induction false} IsAExtend(reg: seq<Descriptor>, reg': seq<Descriptor>, t: TypeId)
    requires Valid(reg) && Valid(reg') && reg <= reg' && t < |reg|
    ensures forall u :: IsA(reg', t, u) == IsA(reg, t, u)
    decreases t
  {
    assert reg'[t] == reg[t];
    if reg[t].parent.Some? {
      IsAExtend(reg, reg', reg[t].parent.value);
    }
  }

  /** The exceptions the library throws itself, with the name they carry in `errorname`. */
  datatype LibraryError = AbstractError(errorname: string) | ErrorNotFound(errorname: string) {

    /** The message the error's construct routine builds from `errorname`. */
    function Message(): (m: string)
      ensures |m| > 6 + |errorname| && m[..6] == "Error " && m[6..6 + |errorname|] == errorname
      ensures this.AbstractError? ==> m[6 + |errorname|..] == " is abstract"
      ensures this.ErrorNotFound? ==> m[6 + |errorname|..] == " is not found in block"
    {
      match this
      case AbstractError(n) => "Error " + n + " is abstract"
      case ErrorNotFound(n) => "Error " + n + " is not found in block"
    }
  }

  /** A constructed exception object. */
  datatype Instance = Instance(typ: TypeId, name: string, message: Option<string>, header: string)

  /** JavaScript truthiness of a message. */
  predicate Truthy(message: Option<string>) {
    message.Some? && message.value != ""
  }

  /** The first line of the stack trace: the name, then ": message" when the message is truthy. */
  function Header(name: string, message: Option<string>): (h: string)
    ensures |h| >= |name| && h[..|name|] == name
    ensures |h| > |name| <==> Truthy(message)
    ensures Truthy(message) ==> h[|name|..] == ": " + message.value
  {
    if Truthy(message) then name + ": " + message.value else name
  }

  /** The first constructor argument, if any. */
  function FirstArg(args: seq<Arg>): Arg {
    if |args| > 0 then args[0] else None
  }

  /**
   * `new T(args...)`: an abstract type throws `AbstractError` carrying its
   * name and builds nothing; otherwise the construct routine runs if there is
   * one, else a first argument other than null/undefined becomes the message;
   * where nothing was written the prototype's default message shows through.
   */
  function Instantiate(reg: seq<Descriptor>, t: TypeId, args: seq<Arg>, routines: Routines): (r: Result<Instance, LibraryError>)
    requires Valid(reg) && t < |reg|
    ensures r.Failure? <==> reg[t].isAbstract
    ensures r.Failure? ==> r.error == AbstractError(reg[t].name)
    ensures r.Success? ==> r.value.typ == t && r.value.name == reg[t].name
    ensures r.Success? ==> r.value.header == Header(reg[t].name, r.value.message)
    ensures r.Success? && reg[t].construct.None? && FirstArg(args).Some? ==> r.value.message == FirstArg(args)
    ensures r.Success? && reg[t].construct.None? && FirstArg(args).None? ==> r.value.message == reg[t].defmessage
    ensures r.Success? && reg[t].construct.Some? ==>
              r.value.message == (if routines(reg[t].construct.value, args).Some?
                                  then routines(reg[t].construct.value, args) else reg[t].defmessage)
  {
    var d := reg[t];
    if d.isAbstract then
      Failure(AbstractError(d.name))
    else
      var written := match d.construct
        case Some(c) => routines(c, args)
        case None => FirstArg(args);
      var message := if written.Some? then written else d.defmessage;
      Success(Instance(t, d.name, message, Header(d.name, message)))
  }

  /** An instance is `instanceof` every ancestor of its type. */
  predicate InstanceOf(reg: seq<Descriptor>, e: Instance, u: TypeId)
    requires Valid(reg) && e.typ < |reg|
  {
    IsA(reg, e.typ, u)
  }
}
