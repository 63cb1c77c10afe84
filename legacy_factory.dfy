/**
 * The error-class factory of the older version (lib/customErrors.js): no
 * default-message or construct-routine inheritance, and an `inherit` that
 * takes only a name, a default message and the abstract flag.
 */
module LegacyFactory {
  import opened Wrappers
  import opened ErrorTypes
  import Factory

  /**
   * `create(name, parent, defmessage, abstract, construct)` of the older
   * version: the parent is `parent || Error`, and the new type keeps exactly
   * the default message and routine it was given, so a missing default
   * message hides the parent's. It sets no `ce` record.
   */
  function Create(reg: seq<Descriptor>, name: string, parent: Option<TypeId>, defmessage: Option<string>,
                  isAbstract: bool, construct: Option<RoutineId>): (m: Made)
    requires Valid(reg) && Factory.Fits(reg, parent)
    ensures Valid(m.reg) && reg <= m.reg && |m.reg| == |reg| + 1 && m.id == |reg|
    ensures m.reg[m.id].name == name && m.reg[m.id].isAbstract == isAbstract
    ensures m.reg[m.id].parent == Some(Factory.ParentOf(parent))
    ensures m.reg[m.id].defmessage == defmessage && m.reg[m.id].construct == construct
    ensures m.reg[m.id].origin == NoRecord
    ensures forall u :: IsA(m.reg, m.id, u) <==> u == m.id || IsA(reg, Factory.ParentOf(parent), u)
  {
    var p := Factory.ParentOf(parent);
    var reg' := reg + [Descriptor(name, Some(p), defmessage, isAbstract, construct, NoRecord)];
    IsAExtend(reg, reg', p);
    Made(reg', |reg|)
  }

  /** `create(record)` of the older version: the record's fields, read as the positional arguments. */
  function CreateFromRecord(reg: seq<Descriptor>, rec: Decl): (m: Made)
    requires Valid(reg) && Factory.Fits(reg, rec.parent)
    ensures m == Create(reg, rec.name, rec.parent, rec.defmessage, rec.isAbstract, rec.construct)
  {
    Create(reg, rec.name, rec.parent, rec.defmessage, rec.isAbstract, rec.construct)
  }

  /** The first argument of the older `inherit`: a name with positional options, or a record. */
  datatype InheritArg =
    | ByName(name: string, defmessage: Option<string>, isAbstract: bool)
    | ByRecord(rec: Decl)

  /**
   * `T.inherit(...)` of the older version: `create(name, T, defmessage,
   * abstract)`. A record is handed to `create` as the first argument, where
   * the record form wins, so its own parent (default `Error`) is used and `T`
   * is dropped.
   */
  function Inherit(reg: seq<Descriptor>, t: TypeId, arg: InheritArg): (m: Made)
    requires Valid(reg) && t < |reg| && (arg.ByRecord? ==> Factory.Fits(reg, arg.rec.parent))
    ensures arg.ByName? ==> m == Create(reg, arg.name, Some(t), arg.defmessage, arg.isAbstract, None)
    ensures arg.ByName? ==> IsA(m.reg, m.id, t)
    ensures arg.ByRecord? ==> m == CreateFromRecord(reg, arg.rec)
  {
    match arg
    case ByName(name, defmessage, isAbstract) =>
      assert IsA(reg, t, t);
      Create(reg, name, Some(t), defmessage, isAbstract, None)
    case ByRecord(rec) =>
      CreateFromRecord(reg, rec)
  }

  /**
   * A child made without a default message shows no message at all when
   * instantiated without arguments, even though its parent declared one.
   */
  lemma DefmessageHidden(reg: seq<Descriptor>, t: TypeId, name: string, routines: Routines)
    requires Valid(reg) && t < |reg| && reg[t].defmessage.Some?
    ensures var m := Inherit(reg, t, ByName(name, None, false));
            && m.reg[m.id].defmessage.None?
            && Instantiate(m.reg, m.id, [], routines).value.message.None?
            && Instantiate(m.reg, m.id, [], routines).value.header == name
  {
  }

  /**
   * As written, `T.inherit({name, construct})` does not make a subtype of `T`
   * when `T` is not `Error`: the new type's only ancestors are itself and
   * `Error`. (The current version's `Factory.InheritRecord` sets the parent.)
   */
  lemma InheritRecordDropsReceiver(reg: seq<Descriptor>, t: TypeId, name: string, construct: Option<RoutineId>,
                                   args: seq<Arg>, routines: Routines)
    requires Valid(reg) && ErrorId < t < |reg|
    ensures var m := Inherit(reg, t, ByRecord(Decl(name, None, None, false, construct)));
            && m.reg[m.id].parent == Some(ErrorId)
            && Instantiate(m.reg, m.id, args, routines).Success?
            && !InstanceOf(m.reg, Instantiate(m.reg, m.id, args, routines).value, t)
  {
    var m := Inherit(reg, t, ByRecord(Decl(name, None, None, false, construct)));
    assert !IsA(reg, ErrorId, t);
  }

  /**
   * A type made by the older factory has no `ce` record, so the current
   * `create` copies neither its default message nor its routine to a child.
   */
  lemma NoCopyFromOlderParent(reg: seq<Descriptor>, name: string, defmessage: Option<string>,
                              construct: Option<RoutineId>, child: string)
    requires Valid(reg)
    ensures var l := Create(reg, name, None, defmessage, false, construct);
            var c := Factory.Create(l.reg, child, Some(l.id), None, false, None);
            && c.reg[c.id].parent == Some(l.id)
            && c.reg[c.id].defmessage.None? && c.reg[c.id].construct.None?
  {
  }
}
