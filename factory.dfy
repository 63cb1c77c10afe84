/**
 * The error-class factory of the current version (index.js): `create`,
 * `inherit` and `toString`, with the default message and the construct
 * routine copied from a factory-made parent.
 */
module Factory {
  import opened Wrappers
  import opened ErrorTypes

  /** A parent argument the factory can use: absent, or a type already made. */
  predicate Fits(reg: seq<Descriptor>, parent: Option<TypeId>) {
    parent.None? || parent.value < |reg|
  }

  /** `parent || Error`: a missing or falsy parent is the root `Error`. */
  function ParentOf(parent: Option<TypeId>): TypeId {
    parent.GetOr(ErrorId)
  }

  /**
   * The default message a type shows, found by walking up the chain of
   * factory-made types to the nearest one declared with a default message;
   * the walk stops, with no message, at a type without a `ce` record.
   */
  function NearestDefmessage(reg: seq<Descriptor>, t: TypeId): Option<string>
    requires Valid(reg) && t < |reg|
    decreases t
  {
    match reg[t].origin
    case Factory(declared, _) =>
      if declared.Some? then declared else NearestDefmessage(reg, reg[t].parent.value)
    case _ => None
  }

  /** The construct routine a type runs, found by the same walk as `NearestDefmessage`. */
  function NearestConstruct(reg: seq<Descriptor>, t: TypeId): Option<RoutineId>
    requires Valid(reg) && t < |reg|
    decreases t
  {
    match reg[t].origin
    case Factory(_, declared) =>
      if declared.Some? then declared else NearestConstruct(reg, reg[t].parent.value)
    case _ => None
  }

  /** Every factory-made type carries the default message and routine of its nearest declaring ancestor. */
  ghost predicate Inherited(reg: seq<Descriptor>)
    requires Valid(reg)
  {
    forall t :: 0 <= t < |reg| && reg[t].origin.Factory? ==>
      reg[t].defmessage == NearestDefmessage(reg, t) && reg[t].construct == NearestConstruct(reg, t)
  }

  /**
   * `create(name, parent, defmessage, abstract, construct)`: a new type whose
   * parent is `parent || Error`; a missing default message or routine is
   * taken from the parent's `ce` record when the parent has one.
   */
  function Create(reg: seq<Descriptor>, name: string, parent: Option<TypeId>, defmessage: Option<string>,
                  isAbstract: bool, construct: Option<RoutineId>): (m: Made)
    requires Valid(reg) && Fits(reg, parent)
    ensures Valid(m.reg) && reg <= m.reg && |m.reg| == |reg| + 1 && m.id == |reg|
    ensures m.reg[m.id].name == name && m.reg[m.id].isAbstract == isAbstract
    ensures m.reg[m.id].parent == Some(ParentOf(parent))
    ensures m.reg[m.id].origin == Factory(defmessage, construct)
    ensures defmessage.Some? ==> m.reg[m.id].defmessage == defmessage
    ensures defmessage.None? && reg[ParentOf(parent)].origin.Factory? ==>
              m.reg[m.id].defmessage == reg[ParentOf(parent)].defmessage
    ensures defmessage.None? && !reg[ParentOf(parent)].origin.Factory? ==> m.reg[m.id].defmessage.None?
    ensures construct.Some? ==> m.reg[m.id].construct == construct
    ensures construct.None? && reg[ParentOf(parent)].origin.Factory? ==>
              m.reg[m.id].construct == reg[ParentOf(parent)].construct
    ensures construct.None? && !reg[ParentOf(parent)].origin.Factory? ==> m.reg[m.id].construct.None?
    ensures forall u :: IsA(m.reg, m.id, u) <==> u == m.id || IsA(reg, ParentOf(parent), u)
  {
    var p := ParentOf(parent);
    var fromFactory := reg[p].origin.Factory?;
    var dm := if defmessage.Some? then defmessage else if fromFactory then reg[p].defmessage else None;
    var c := if construct.Some? then construct else if fromFactory then reg[p].construct else None;
    var reg' := reg + [Descriptor(name, Some(p), dm, isAbstract, c, Factory(defmessage, construct))];
    IsAExtend(reg, reg', p);
    Made(reg', |reg|)
  }

  /** `create(record)`: the record's fields, read as the positional arguments. */
  function CreateFromRecord(reg: seq<Descriptor>, rec: Decl): (m: Made)
    requires Valid(reg) && Fits(reg, rec.parent)
    ensures m == Create(reg, rec.name, rec.parent, rec.defmessage, rec.isAbstract, rec.construct)
  {
    Create(reg, rec.name, rec.parent, rec.defmessage, rec.isAbstract, rec.construct)
  }

  /** `T.inherit(name, ...)`: `create` with `T` as the parent, so the new type is a subtype of `T`. */
  function Inherit(reg: seq<Descriptor>, t: TypeId, name: string, defmessage: Option<string>,
                   isAbstract: bool, construct: Option<RoutineId>): (m: Made)
    requires Valid(reg) && t < |reg|
    ensures m == Create(reg, name, Some(t), defmessage, isAbstract, construct)
    ensures IsA(m.reg, m.id, t)
  {
    var m := Create(reg, name, Some(t), defmessage, isAbstract, construct);
    assert IsA(reg, t, t);
    m
  }

  /** `T.inherit(record)`: the record's parent is overwritten with `T` before `create` runs. */
  function InheritRecord(reg: seq<Descriptor>, t: TypeId, rec: Decl): (m: Made)
    requires Valid(reg) && t < |reg|
    ensures m == CreateFromRecord(reg, rec.(parent := Some(t)))
    ensures m.reg[m.id].parent == Some(t) && IsA(m.reg, m.id, t)
  {
    var m := CreateFromRecord(reg, rec.(parent := Some(t)));
    assert IsA(reg, t, t);
    m
  }

  /** `T.toString()`: "[Error class <name>]", from which the name can be read back. */
  function ClassDisplay(name: string): (s: string)
    ensures |s| == |name| + 14 && s[..13] == "[Error class " && s[|s| - 1] == ']'
    ensures s[13..|s| - 1] == name
  {
    "[Error class " + name + "]"
  }

  /** The nearest-ancestor lookups do not change when more types are made. */
  lemma {:induction false} NearestExtend(reg: seq<Descriptor>, reg': seq<Descriptor>, t: TypeId)
    requires Valid(reg) && Valid(reg') && reg <= reg' && t < |reg|
    ensures NearestDefmessage(reg', t) == NearestDefmessage(reg, t)
    ensures NearestConstruct(reg', t) == NearestConstruct(reg, t)
    decreases t
  {
    assert reg'[t] == reg[t];
    if reg[t].origin.Factory? {
      NearestExtend(reg, reg', reg[t].parent.value);
    }
  }

  /**
   * `create` keeps the inheritance rule: the nearest ancestor that declared a
   * default message (or a construct routine) supplies it, and an explicit one
   * overrides it.
   */
  lemma {:induction false} CreateKeepsInheritance(reg: seq<Descriptor>, name: string, parent: Option<TypeId>,
                                                  defmessage: Option<string>, isAbstract: bool, construct: Option<RoutineId>)
    requires Valid(reg) && Fits(reg, parent) && Inherited(reg)
    ensures Inherited(Create(reg, name, parent, defmessage, isAbstract, construct).reg)
  {
    var m := Create(reg, name, parent, defmessage, isAbstract, construct);
    var p := ParentOf(parent);
    forall t | 0 <= t < |m.reg| && m.reg[t].origin.Factory?
      ensures m.reg[t].defmessage == NearestDefmessage(m.reg, t)
      ensures m.reg[t].construct == NearestConstruct(m.reg, t)
    {
      if t < |reg| {
        assert m.reg[t] == reg[t];
        NearestExtend(reg, m.reg, t);
      } else {
        NearestExtend(reg, m.reg, p);
      }
    }
  }

  /**
   * With no construct routine and no message argument, an instance of a
   * factory-made concrete type shows the nearest declared default message.
   */
  lemma InstanceShowsNearestDefmessage(reg: seq<Descriptor>, t: TypeId, routines: Routines)
    requires Valid(reg) && Inherited(reg) && t < |reg|
    requires reg[t].origin.Factory? && !reg[t].isAbstract && reg[t].construct.None?
    ensures Instantiate(reg, t, [], routines).Success?
    ensures Instantiate(reg, t, [], routines).value.message == NearestDefmessage(reg, t)
  {
  }

  /**
   * A concrete subtype of an abstract type instantiates normally and is an
   * instance of it, while the abstract type itself still refuses.
   */
  lemma ConcreteUnderAbstract(reg: seq<Descriptor>, p: TypeId, name: string, defmessage: Option<string>,
                              args: seq<Arg>, routines: Routines)
    requires Valid(reg) && p < |reg| && reg[p].isAbstract
    ensures var m := Inherit(reg, p, name, defmessage, false, None);
            && Instantiate(m.reg, m.id, args, routines).Success?
            && InstanceOf(m.reg, Instantiate(m.reg, m.id, args, routines).value, p)
            && Instantiate(m.reg, p, args, routines) == Failure(AbstractError(reg[p].name))
  {
    var m := Inherit(reg, p, name, defmessage, false, None);
    assert m.reg[p] == reg[p];
  }

  /**
   * Chains made with `create` and `inherit` (A, then B under A, then C under
   * B): an instance of C is an instance of C, B, A and `Error`.
   */
  lemma ChainInstanceOf(reg: seq<Descriptor>, a: TypeId, nameB: string, nameC: string, args: seq<Arg>, routines: Routines)
    requires Valid(reg) && a < |reg|
    ensures var mb := Inherit(reg, a, nameB, None, false, None);
            var mc := Inherit(mb.reg, mb.id, nameC, None, false, None);
            var e := Instantiate(mc.reg, mc.id, args, routines);
            && e.Success?
            && InstanceOf(mc.reg, e.value, mc.id) && InstanceOf(mc.reg, e.value, mb.id)
            && InstanceOf(mc.reg, e.value, a) && InstanceOf(mc.reg, e.value, ErrorId)
  {
    var mb := Inherit(reg, a, nameB, None, false, None);
    var mc := Inherit(mb.reg, mb.id, nameC, None, false, None);
    IsAExtend(reg, mb.reg, a);
    IsATransitive(mc.reg, mc.id, mb.id, a);
    IsAError(mc.reg, mc.id);
  }

  /**
   * The inheritance example: One declares "one def", Two inherits it, Three
   * declares "three def"; a routine declared on One also runs for Two.
   */
  lemma InheritDefmessageExample(routine: RoutineId, routines: Routines)
    ensures var one := Create(Builtins(), "One", None, Some("one def"), false, None);
            var two := Inherit(one.reg, one.id, "Two", None, false, None);
            var three := Inherit(two.reg, two.id, "Three", Some("three def"), false, None);
            && Instantiate(three.reg, one.id, [], routines).value.message == Some("one def")
            && Instantiate(three.reg, two.id, [], routines).value.message == Some("one def")
            && Instantiate(three.reg, two.id, [Some("msg")], routines).value.message == Some("msg")
            && Instantiate(three.reg, three.id, [], routines).value.message == Some("three def")
    ensures var one := Create(Builtins(), "One", None, None, false, Some(routine));
            var two := Inherit(one.reg, one.id, "Two", None, false, None);
            two.reg[two.id].construct == Some(routine)
  {
  }
}
