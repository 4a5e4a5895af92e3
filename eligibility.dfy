/**
 * The eligibility rules of ClassChecker (the static predicates of
 * ClassChecker.java): a member that an earlier manipulation pass generated
 * must not be captured again.  Descriptors are read through the JVMS model
 * of the Descriptors module; the manipulation prefix, whose value lives in
 * ClassManipulator and is not part of this model, is a parameter.
 */
module Eligibility {
  import opened Descriptors

  const INSTANCE_MANAGER := "org/apache/felix/ipojo/InstanceManager"
  const COMPONENT_INSTANCE := "org/apache/felix/ipojo/ComponentInstance"

  /** The first argument of `desc` is an InstanceManager. */
  predicate IsFirstArgumentInstanceManager(desc: string)
    requires IsMethodDescriptor(desc)
  {
    var args := ArgumentTypes(desc);
    |args| >= 1 && args[0] == ObjectType(INSTANCE_MANAGER)
  }

  /** A constructor generated by the manipulator: `<init>(InstanceManager, ...)`. */
  predicate IsGeneratedConstructor(name: string, desc: string)
    requires name == "<init>" ==> IsMethodDescriptor(desc)
  {
    name == "<init>" && IsFirstArgumentInstanceManager(desc)
  }

  /** `TYPE __getXXX()`: a generated field getter. */
  predicate IsGetterMethod(name: string, desc: string)
    requires IsMethodDescriptor(desc)
  {
    "__get" <= name && |ArgumentTypes(desc)| == 0 && ReturnType(desc) != VoidDescriptor
  }

  /** `void __setXXX(TYPE)`: a generated field setter. */
  predicate IsSetterMethod(name: string, desc: string)
    requires IsMethodDescriptor(desc)
  {
    "__set" <= name && |ArgumentTypes(desc)| == 1 && ReturnType(desc) == VoidDescriptor
  }

  predicate IsSetInstanceManagerMethod(name: string) {
    "_setInstanceManager" <= name
  }

  predicate IsGetComponentInstanceMethod(name: string, desc: string)
    requires IsMethodDescriptor(desc)
  {
    "getComponentInstance" <= name && ReturnType(desc) == FieldReturn(ObjectType(COMPONENT_INSTANCE))
  }

  /** A method renamed by the manipulator (its name starts with the manipulation prefix). */
  predicate IsManipulatedMethod(name: string, prefix: string) {
    prefix <= name
  }

  /** A method that an earlier manipulation pass generated. */
  predicate IsGeneratedMethod(name: string, desc: string, prefix: string)
    requires IsMethodDescriptor(desc)
  {
    || IsGetterMethod(name, desc)
    || IsSetterMethod(name, desc)
    || IsSetInstanceManagerMethod(name)
    || IsGetComponentInstanceMethod(name, desc)
    || IsManipulatedMethod(name, prefix)
  }

  // ------------------------------------ the rules read on descriptor text

  /** A generated constructor is exactly an `<init>` whose descriptor starts
      with "(Lorg/apache/felix/ipojo/InstanceManager;". */
  lemma GeneratedConstructorIffPrefix(name: string, desc: string)
    requires IsMethodDescriptor(desc)
    ensures IsGeneratedConstructor(name, desc)
            <==> name == "<init>" && "(L" + INSTANCE_MANAGER + ";" <= desc
  {
    InstanceManagerIsClassName();
    FirstArgumentIffPrefix(desc, INSTANCE_MANAGER);
  }

  lemma InstanceManagerIsClassName()
    ensures IsClassName(INSTANCE_MANAGER)
  {
  }

  /** A getter is a `__get` name with a "()" descriptor that does not end in 'V'. */
  lemma GetterIffDescriptorText(name: string, desc: string)
    requires IsMethodDescriptor(desc)
    ensures IsGetterMethod(name, desc)
            <==> "__get" <= name && "()" <= desc && desc[|desc| - 1] != 'V'
  {
    NoArgumentsIffEmptyParens(desc);
    VoidIffEndsWithV(desc);
  }

  /** A setter is a `__set` name whose descriptor is "(" T ")V" for one field type T. */
  lemma SetterIffDescriptorText(name: string, desc: string)
    requires IsMethodDescriptor(desc)
    ensures IsSetterMethod(name, desc)
            <==> "__set" <= name && exists t :: WellFormedField(t) && desc == OneArgumentVoid(t)
  {
    EncodeParseMethod(desc);
    var m := ParseMethod(desc).value;
    if |m.parameters| == 1 && m.result == VoidDescriptor {
      OneArgumentVoidEncodes(m.parameters[0]);
      assert m == MethodType([m.parameters[0]], VoidDescriptor);
    }
    if t :| WellFormedField(t) && desc == OneArgumentVoid(t) {
      OneArgumentVoidEncodes(t);
      ParseEncodeMethod(MethodType([t], VoidDescriptor));
    }
  }

  /** The descriptor of a `void m(T)` method. */
  function OneArgumentVoid(t: FieldType): string {
    "(" + EncodeField(t) + ")V"
  }

  lemma OneArgumentVoidEncodes(t: FieldType)
    ensures OneArgumentVoid(t) == EncodeMethod(MethodType([t], VoidDescriptor))
  {
    assert EncodeParameters([t]) == EncodeField(t) + EncodeParameters([]);
  }

  // ------------------------------------- generated members are recognised

  /** Every getter the manipulator generates, `T __getX()` for any field type,
      is recognised as generated, whatever the manipulation prefix. */
  lemma GeneratedGetterRecognised(name: string, t: FieldType, prefix: string)
    requires "__get" <= name && WellFormedField(t)
    ensures IsMethodDescriptor(EncodeMethod(MethodType([], FieldReturn(t))))
    ensures IsGeneratedMethod(name, EncodeMethod(MethodType([], FieldReturn(t))), prefix)
  {
    ParseEncodeMethod(MethodType([], FieldReturn(t)));
  }

  /** Every setter the manipulator generates, `void __setX(T)`, is recognised. */
  lemma GeneratedSetterRecognised(name: string, t: FieldType, prefix: string)
    requires "__set" <= name && WellFormedField(t)
    ensures IsMethodDescriptor(OneArgumentVoid(t))
    ensures IsGeneratedMethod(name, OneArgumentVoid(t), prefix)
  {
    OneArgumentVoidEncodes(t);
    ParseEncodeMethod(MethodType([t], VoidDescriptor));
  }

  /** Every constructor whose parameters start with an InstanceManager is a
      generated one, and no constructor of another first argument is. */
  lemma GeneratedConstructorsRecognised(ps: seq<FieldType>, r: ReturnDescriptor)
    requires WellFormedMethod(MethodType(ps, r))
    ensures IsMethodDescriptor(EncodeMethod(MethodType(ps, r)))
    ensures IsGeneratedConstructor("<init>", EncodeMethod(MethodType(ps, r)))
            <==> |ps| >= 1 && ps[0] == ObjectType(INSTANCE_MANAGER)
  {
    ParseEncodeMethod(MethodType(ps, r));
  }

  /** A `__get` method that takes an argument, or returns void, is kept. */
  lemma GetterNeedsNoArgumentsAndAValue(prefix: string)
    requires !(prefix <= "__getX")
    ensures IsMethodDescriptor("(I)I") && !IsGeneratedMethod("__getX", "(I)I", prefix)
    ensures IsMethodDescriptor("()V") && !IsGeneratedMethod("__getX", "()V", prefix)
  {
    ParseEncodeMethod(MethodType([BaseType('I')], FieldReturn(BaseType('I'))));
    assert EncodeMethod(MethodType([BaseType('I')], FieldReturn(BaseType('I')))) == "(I)I";
    ParseEncodeMethod(MethodType([], VoidDescriptor));
    assert EncodeMethod(MethodType([], VoidDescriptor)) == "()V";
  }
}
