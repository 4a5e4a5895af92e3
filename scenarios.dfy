/**
 * Concrete passes over the test classes StaticInnerClass and
 * StaticInnerClassWithOutsideFieldAccess, written as the callbacks ASM makes
 * for them, and a pass in which `<clinit>` instantiates an inner class.
 * The field and method prefixes are left as parameters: only what the
 * passes need of them is required.
 */
module Scenarios {
  import opened Wrappers
  import opened Descriptors
  import opened Eligibility
  import opened Checker

  const ACC_PUBLIC: bv32 := 0x0001
  const ACC_PRIVATE: bv32 := 0x0002

  /** The method types of the fixture: `()V`, `()Ljava/util/function/Function;`
      and `(Ljava/lang/String;)I`. */
  const NO_ARGUMENTS := MethodType([], VoidDescriptor)
  const FUNCTION_FACTORY := MethodType([], FieldReturn(ObjectType("java/util/function/Function")))
  const STRING_TO_INT := MethodType([ObjectType("java/lang/String")], FieldReturn(BaseType('I')))

  lemma ClassNameByIndex(s: string)
    requires |s| > 0 && forall i :: 0 <= i < |s| ==> s[i] != ';' && s[i] != '.' && s[i] != '['
    ensures IsClassName(s)
  {
  }

  /** The descriptors of the fixture's methods are valid: `()V`, */
  lemma NoArgumentsIsDescriptor()
    ensures IsMethodDescriptor(EncodeMethod(NO_ARGUMENTS))
  {
    ParseEncodeMethod(NO_ARGUMENTS);
  }

  /** `()Ljava/util/function/Function;` */
  lemma FunctionFactoryIsDescriptor()
    ensures IsMethodDescriptor(EncodeMethod(FUNCTION_FACTORY))
  {
    ClassNameByIndex(FUNCTION_FACTORY.result.fieldType.className);
    ParseEncodeMethod(FUNCTION_FACTORY);
  }

  /** and `(Ljava/lang/String;)I`. */
  lemma StringToIntIsDescriptor()
    ensures IsMethodDescriptor(EncodeMethod(STRING_TO_INT))
  {
    ClassNameByIndex(STRING_TO_INT.parameters[0].className);
    ParseEncodeMethod(STRING_TO_INT);
  }

  lemma NotPrefixByFirst(p: string, s: string)
    requires |p| > 0 && |s| > 0 && p[0] != s[0]
    ensures !(p <= s)
  {
  }

  /** A fixture method whose name starts with neither '<', '_' nor 'g' is
      recorded under its own name. */
  lemma OrdinaryMethodRecorded(access: bv32, name: string, desc: string, prefix: string)
    requires |prefix| > 0 && prefix[0] == '_'
    requires |name| > 0 && name[0] != '<' && name[0] != '_' && name[0] != 'g'
    requires IsMethodDescriptor(desc)
    ensures Admitted<int>(access, name, desc, prefix) == Some(MethodDescriptor(name, desc, IsStatic(access), [], [], []))
  {
    NotPrefixByFirst("<clinit>", name);
    NotPrefixByFirst("<init>", name);
    NotPrefixByFirst(prefix, name);
    NotPrefixByFirst("__get", name);
    NotPrefixByFirst("__set", name);
    NotPrefixByFirst("_setInstanceManager", name);
    NotPrefixByFirst("getComponentInstance", name);
  }

  /** test/StaticInnerClass: the anonymous class created in the static
      method stringToIntStatic ($1) is excluded, the one created in the
      instance method stringToIntNonStatic ($2) is kept.  The result holds
      whatever the (valid) descriptors of the four methods. */
  method StaticInnerClassPass(imField: string, prefix: string, init: string, factory: string, hash: string)
    returns (inners: map<string, seq<MethodDescriptor<int>>>)
    requires |prefix| > 0 && prefix[0] == '_'
    requires IsMethodDescriptor(init) && IsMethodDescriptor(factory) && IsMethodDescriptor(hash)
    ensures inners == map["test/StaticInnerClass$2" := []]
  {
    var c := new ClassChecker<int>(imField, prefix);
    FeedStaticInnerClass(c, init, factory, hash);
    inners := c.GetInnerClassesAndMethods();
    OnlyKeyLeft(inners, c.inners, c.excluded, []);
  }

  /** The callbacks ASM makes for test/StaticInnerClass. */
  method FeedStaticInnerClass(c: ClassChecker<int>, init: string, factory: string, hash: string)
    requires c.Valid() && c.inners == map[] && c.excluded == {}
    requires |c.prefix| > 0 && c.prefix[0] == '_'
    requires IsMethodDescriptor(init) && IsMethodDescriptor(factory) && IsMethodDescriptor(hash)
    modifies c
    ensures c.inners == map["test/StaticInnerClass$1" := [], "test/StaticInnerClass$2" := []]
    ensures c.excluded == {"test/StaticInnerClass$1"}
  {
    var one, two := "test/StaticInnerClass$1", "test/StaticInnerClass$2";
    c.Visit(52, ACC_PUBLIC | 0x0020, "test/StaticInnerClass", "java/lang/Object", []);
    c.VisitInnerClass(one, None, None, 0);
    c.VisitInnerClass(two, None, None, 0);
    c.VisitMethod(ACC_PUBLIC, "<init>", init);
    OrdinaryMethodRecorded(ACC_PRIVATE | ACC_STATIC, "stringToIntStatic", factory, c.prefix);
    c.VisitMethod(ACC_PRIVATE | ACC_STATIC, "stringToIntStatic", factory);
    assert c.visitor.InfoCollector? && c.Current().isStatic;
    c.VisitTypeInsn(NEW, one);
    OrdinaryMethodRecorded(ACC_PRIVATE, "stringToIntNonStatic", factory, c.prefix);
    c.VisitMethod(ACC_PRIVATE, "stringToIntNonStatic", factory);
    assert c.visitor.InfoCollector? && !c.Current().isStatic;
    c.VisitTypeInsn(NEW, two);
    c.VisitMethod(ACC_PUBLIC, "testStatic", hash);
    c.VisitMethod(ACC_PUBLIC, "testNonStatic", hash);
  }

  /** What getInnerClassesAndMethods leaves of the inner classes of
      test/StaticInnerClass once $1 is excluded. */
  lemma OnlyKeyLeft<T>(r: map<string, T>, m: map<string, T>, excluded: set<string>, v: T)
    requires m == map["test/StaticInnerClass$1" := v, "test/StaticInnerClass$2" := v]
    requires excluded == {"test/StaticInnerClass$1"}
    requires r.Keys <= m.Keys && forall k :: k in r ==> r[k] == m[k]
    requires forall e, k :: e in excluded && e <= k ==> k !in r
    requires forall k :: k in m && (forall e :: e in excluded ==> !(e <= k)) ==> k in r
    ensures r == map["test/StaticInnerClass$2" := v]
  {
    var one, two := "test/StaticInnerClass$1", "test/StaticInnerClass$2";
    NotPrefixAt(one, two, 22);
    assert one <= one;
    assert two in r;
    assert r.Keys == {two};
  }

  lemma NotPrefixAt(p: string, s: string, i: nat)
    requires i < |p| && i < |s| && p[i] != s[i]
    ensures !(p <= s)
  {
  }

  /** test/StaticInnerClassWithOutsideFieldAccess: its member class Factory
      is static, so no inner class is left to manipulate. */
  method OutsideFieldAccessPass(imField: string, prefix: string) returns (inners: map<string, seq<MethodDescriptor<int>>>)
    ensures inners == map[]
  {
    var c := new ClassChecker<int>(imField, prefix);
    var name := "test/StaticInnerClassWithOutsideFieldAccess";
    c.Visit(52, ACC_PUBLIC | 0x0020, name, "java/lang/Object", []);
    c.VisitInnerClass(name + "$Factory", Some(name), Some("Factory"), ACC_PUBLIC | ACC_STATIC);
    inners := c.GetInnerClassesAndMethods();
  }

  /** An inner class instantiated in the static initialiser is dropped
      from the map, while one declared by another class is never added. */
  method StaticInitialiserPass(imField: string, prefix: string) returns (inners: map<string, seq<MethodDescriptor<int>>>)
    ensures inners == map[]
  {
    var c := new ClassChecker<int>(imField, prefix);
    c.Visit(52, ACC_PUBLIC, "p/Holder", "java/lang/Object", []);
    c.VisitInnerClass("p/Holder$1", None, None, 0);
    c.VisitInnerClass("p/Other$Inner", Some("p/Other"), Some("Inner"), 0);
    c.VisitMethod(ACC_STATIC, "<clinit>", EncodeMethod(NO_ARGUMENTS));
    c.VisitTypeInsn(NEW, "p/Holder$1");
    inners := c.GetInnerClassesAndMethods();
  }
}
