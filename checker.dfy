/**
 * ClassChecker: the single-pass accumulator that reads one compiled class
 * (through ASM's ClassVisitor callbacks) and records whether it was already
 * manipulated, its interfaces and superclass, its eligible methods with their
 * annotations and local variables, and the inner classes it owns.
 *
 * The Java class and its MethodInfoCollector and
 * InnerClassAssignedToStaticFieldDetector visitors become one Dafny class:
 * `visitor` records which method visitor the last visitMethod returned, and
 * the method-level callbacks act through it.  MethodInfoCollector holds the
 * MethodDescriptor it fills; since methods are visited one after the other,
 * that descriptor is always the last one of `methods`.
 */
module Checker {
  import opened Wrappers
  import opened Descriptors
  import opened Eligibility
  import opened Annotations

  /** Java `int`s read as bit sets: access flags and opcodes. */
  const ACC_STATIC: bv32 := 0x0008
  const NEW: bv32 := 0xBB
  const ANEWARRAY: bv32 := 0xBD
  const CHECKCAST: bv32 := 0xC0
  const INSTANCEOF: bv32 := 0xC1
  const ATHROW: bv32 := 0xBF

  const OBJECT := "java/lang/Object"
  const POJO := "org/apache/felix/ipojo/Pojo"
  /** The descriptor of an InstanceManager field. */
  const INSTANCE_MANAGER_DESC := EncodeField(ObjectType(INSTANCE_MANAGER))
  /** The pseudo-name under which constructors are recorded. */
  const INIT := "$init"

  predicate IsStatic(access: bv32) {
    access & ACC_STATIC == ACC_STATIC
  }

  // ------------------------------------------------------ MethodDescriptor

  datatype LocalVariable = LocalVariable(name: string, desc: string, signature: Option<string>, index: int)

  datatype ParameterAnnotation<V> = ParameterAnnotation(parameter: int, annotation: Annotation<V>)

  /** The part of MethodDescriptor that ClassChecker fills. */
  datatype MethodDescriptor<V> = MethodDescriptor(
    name: string,
    desc: string,
    isStatic: bool,
    annotations: seq<Annotation<V>>,
    parameterAnnotations: seq<ParameterAnnotation<V>>,
    locals: seq<LocalVariable>)

  /** One call of GlobalManipulationFieldsRegistry.registerField. */
  datatype FieldRegistration = FieldRegistration(owner: Option<string>, name: string, desc: string, access: bv32)

  /** The method visitor that the last visitMethod returned. */
  datatype MethodVisitorKind = NoVisitor | InfoCollector | StaticFieldDetector

  // ---------------------------------------------------------------- header

  /** `s.replace('/', '.')`. */
  function Dotted(s: string): (r: string)
    ensures |r| == |s| && '/' !in r
    ensures forall i :: 0 <= i < |s| ==> r[i] == (if s[i] == '/' then '.' else s[i])
  {
    if s == [] then [] else [if s[0] == '/' then '.' else s[0]] + Dotted(s[1..])
  }

  /** The interfaces that visit records: Pojo dropped, the others dotted, in order. */
  function DeclaredInterfaces(itfs: seq<string>): seq<string> {
    if itfs == [] then []
    else
      var last := itfs[|itfs| - 1];
      DeclaredInterfaces(itfs[..|itfs| - 1]) + (if last == POJO then [] else [Dotted(last)])
  }

  /** One more interface extends the record by at most its dotted name. */
  lemma DeclaredInterfacesStep(itfs: seq<string>, i: nat)
    requires i < |itfs|
    ensures DeclaredInterfaces(itfs[..i + 1])
            == DeclaredInterfaces(itfs[..i]) + (if itfs[i] == POJO then [] else [Dotted(itfs[i])])
  {
    assert itfs[..i + 1][..i] == itfs[..i];
  }

  /** Concatenated interface lists are recorded one after the other. */
  lemma {:induction false} DeclaredInterfacesAppend(a: seq<string>, b: seq<string>)
    ensures DeclaredInterfaces(a + b) == DeclaredInterfaces(a) + DeclaredInterfaces(b)
    decreases |b|
  {
    if b == [] {
      assert a + b == a;
    } else {
      var b' := b[..|b| - 1];
      assert (a + b)[..|a + b| - 1] == a + b';
      DeclaredInterfacesAppend(a, b');
    }
  }

  /** An interface is recorded exactly when it is declared and is not Pojo;
      the marker interface itself is never recorded, and neither is its dotted
      form unless some declared name already held a '.'. */
  lemma {:induction false} DeclaredInterfacesMembers(itfs: seq<string>, x: string)
    ensures x in DeclaredInterfaces(itfs) <==> exists i :: 0 <= i < |itfs| && itfs[i] != POJO && Dotted(itfs[i]) == x
    ensures POJO !in DeclaredInterfaces(itfs)
    decreases |itfs|
  {
    if itfs != [] {
      var init := itfs[..|itfs| - 1];
      DeclaredInterfacesMembers(init, x);
      assert forall i :: 0 <= i < |init| ==> init[i] == itfs[i];
      if x in DeclaredInterfaces(init) {
        var i :| 0 <= i < |init| && init[i] != POJO && Dotted(init[i]) == x;
        assert itfs[i] != POJO && Dotted(itfs[i]) == x;
      }
      assert POJO[3] == '/';
    }
  }

  /** With internal names (no '.'), Pojo cannot come back in dotted form. */
  lemma {:induction false} NoDottedMarker(itfs: seq<string>)
    requires forall i :: 0 <= i < |itfs| ==> '.' !in itfs[i]
    ensures Dotted(POJO) !in DeclaredInterfaces(itfs)
  {
    DeclaredInterfacesMembers(itfs, Dotted(POJO));
    forall i | 0 <= i < |itfs| && itfs[i] != POJO
      ensures Dotted(itfs[i]) != Dotted(POJO)
    {
      if Dotted(itfs[i]) == Dotted(POJO) {
        MarkerHasNoDot();
        DottedInjectiveWithoutDots(itfs[i], POJO);
      }
    }
  }

  lemma MarkerHasNoDot()
    ensures '.' !in POJO
  {
  }

  /** Dotting loses nothing on names that hold no '.'. */
  lemma {:induction false} DottedInjectiveWithoutDots(s: string, t: string)
    requires '.' !in s && '.' !in t && Dotted(s) == Dotted(t)
    ensures s == t
  {
    assert |s| == |t|;
    forall i | 0 <= i < |s| ensures s[i] == t[i] {
      assert Dotted(s)[i] == Dotted(t)[i];
    }
  }

  // --------------------------------------------------------------- methods

  /** The descriptor that visitMethod appends to the method list, if any:
      nothing for `<clinit>` or for a generated constructor or method; a
      constructor is recorded as "$init". */
  function Admitted<V>(access: bv32, name: string, desc: string, prefix: string): (r: Option<MethodDescriptor<V>>)
    requires name != "<clinit>" ==> IsMethodDescriptor(desc)
    ensures name == "<clinit>" ==> r.None?
    ensures r.Some? ==> r.value.name == (if name == "<init>" then INIT else name)
    ensures r.Some? ==> r.value.desc == desc && r.value.isStatic == IsStatic(access)
    ensures r.Some? ==> r.value.annotations == [] && r.value.parameterAnnotations == [] && r.value.locals == []
  {
    if name == "<clinit>" then None
    else if name == "<init>" then
      if IsGeneratedConstructor(name, desc) then None
      else Some(MethodDescriptor(INIT, desc, IsStatic(access), [], [], []))
    else if IsGeneratedMethod(name, desc, prefix) then None
    else Some(MethodDescriptor(name, desc, IsStatic(access), [], [], []))
  }

  /** A constructor is recorded, as "$init", exactly when its descriptor does
      not start with an InstanceManager argument. */
  lemma AdmittedConstructor<V>(access: bv32, desc: string, prefix: string)
    requires IsMethodDescriptor(desc)
    ensures Admitted<V>(access, "<init>", desc, prefix).Some?
            <==> !("(L" + INSTANCE_MANAGER + ";" <= desc)
    ensures Admitted<V>(access, "<init>", desc, prefix).Some? ==>
            Admitted<V>(access, "<init>", desc, prefix).value.name == INIT
  {
    GeneratedConstructorIffPrefix("<init>", desc);
  }

  // ----------------------------------------------- inner-class filtering

  /** getInnerClassesAndMethods: the owned inner classes whose name does not
      start with any excluded name. */
  function FilterInners<T>(inners: map<string, T>, excluded: set<string>): (r: map<string, T>)
    ensures r.Keys <= inners.Keys
    ensures forall k :: k in r ==> r[k] == inners[k]
    ensures forall e, k :: e in excluded && e <= k ==> k !in r
    ensures forall k :: k in inners && (forall e :: e in excluded ==> !(e <= k)) ==> k in r
  {
    map k | k in inners && (forall e :: e in excluded ==> !(e <= k)) :: inners[k]
  }

  /** Every excluded name is itself absent from the result. */
  lemma ExcludedNamesAbsent<T>(inners: map<string, T>, excluded: set<string>)
    ensures forall e :: e in excluded ==> e !in FilterInners(inners, excluded)
  {
    forall e | e in excluded ensures e !in FilterInners(inners, excluded) {
      assert e <= e;
    }
  }

  /** Excluding more names never brings an inner class back. */
  lemma FilterAntitone<T>(inners: map<string, T>, excluded: set<string>, more: set<string>)
    requires excluded <= more
    ensures FilterInners(inners, more).Keys <= FilterInners(inners, excluded).Keys
  {
  }

  // ============================================================ the checker

  class ClassChecker<V> {
    /** ClassManipulator.IM_FIELD and ClassManipulator.PREFIX. */
    const imField: string
    const prefix: string

    var classVersion: int
    var className: Option<string>
    var superClass: Option<string>
    var interfaces: seq<string>
    var methods: seq<MethodDescriptor<V>>
    var inners: map<string, seq<MethodDescriptor<V>>>
    var excluded: set<string>
    var alreadyManipulated: bool
    var visitor: MethodVisitorKind
    /** The calls made on the process-wide GlobalManipulationFieldsRegistry. */
    ghost var registry: seq<FieldRegistration>

    ghost predicate Valid()
      reads this
    {
      visitor.InfoCollector? ==> |methods| > 0
    }

    constructor(imField: string, prefix: string)
      ensures Valid()
      ensures this.imField == imField && this.prefix == prefix
      ensures classVersion == 0 && className == None && superClass == None
      ensures interfaces == [] && methods == [] && inners == map[] && excluded == {}
      ensures !alreadyManipulated && visitor == NoVisitor && registry == []
    {
      this.imField := imField;
      this.prefix := prefix;
      classVersion := 0;
      className := None;
      superClass := None;
      interfaces := [];
      methods := [];
      inners := map[];
      excluded := {};
      alreadyManipulated := false;
      visitor := NoVisitor;
      registry := [];
    }

    /** visit: records the version, the superclass unless it is Object, the
        declared interfaces but Pojo, and the class name. */
    method Visit(version: int, access: bv32, name: string, superName: string, itfs: seq<string>)
      requires Valid()
      modifies this
      ensures Valid()
      ensures classVersion == version && className == Some(name)
      ensures superClass == if superName == OBJECT then old(superClass) else Some(Dotted(superName))
      ensures interfaces == old(interfaces) + DeclaredInterfaces(itfs)
      ensures methods == old(methods) && inners == old(inners) && excluded == old(excluded)
      ensures alreadyManipulated == old(alreadyManipulated) && visitor == old(visitor)
      ensures registry == old(registry)
    {
      classVersion := version;
      if superName != OBJECT {
        superClass := Some(Dotted(superName));
      }
      RecordInterfaces(itfs);
      className := Some(name);
    }

    /** The loop of visit over the declared interfaces. */
    method RecordInterfaces(itfs: seq<string>)
      modifies this`interfaces
      ensures interfaces == old(interfaces) + DeclaredInterfaces(itfs)
    {
      for i := 0 to |itfs|
        invariant interfaces == old(interfaces) + DeclaredInterfaces(itfs[..i])
      {
        DeclaredInterfacesStep(itfs, i);
        if itfs[i] != POJO {
          interfaces := interfaces + [Dotted(itfs[i])];
        }
      }
      assert itfs[..|itfs|] == itfs;
    }

    /** visitField: registers the field exactly once and raises the
        already-manipulated flag on the InstanceManager field. */
    method VisitField(access: bv32, name: string, desc: string)
      requires Valid()
      modifies this
      ensures Valid()
      ensures alreadyManipulated == (old(alreadyManipulated) || (name == imField && desc == INSTANCE_MANAGER_DESC))
      ensures registry == old(registry) + [FieldRegistration(className, name, desc, access)]
      ensures classVersion == old(classVersion) && className == old(className) && superClass == old(superClass)
      ensures interfaces == old(interfaces) && methods == old(methods) && inners == old(inners)
      ensures excluded == old(excluded) && visitor == old(visitor)
    {
      if name == imField && desc == INSTANCE_MANAGER_DESC {
        alreadyManipulated := true;
      }
      registry := registry + [FieldRegistration(className, name, desc, access)];
    }

    /** visitInnerClass: an owned inner class (outer name is this class, or
        none) is registered when it is not static and excluded when it is. */
    method VisitInnerClass(name: string, outerName: Option<string>, innerName: Option<string>, access: bv32)
      requires Valid() && className.Some?
      modifies this
      ensures Valid()
      ensures var owned := outerName == className || outerName == None;
              && inners == (if owned && !IsStatic(access) then old(inners)[name := []] else old(inners))
              && excluded == (if owned && IsStatic(access) then old(excluded) + {name} else old(excluded))
      ensures classVersion == old(classVersion) && className == old(className) && superClass == old(superClass)
      ensures interfaces == old(interfaces) && methods == old(methods)
      ensures alreadyManipulated == old(alreadyManipulated) && visitor == old(visitor)
      ensures registry == old(registry)
    {
      if outerName == className || outerName == None {
        if !IsStatic(access) {
          inners := inners[name := []];
        } else {
          excluded := excluded + {name};
        }
      }
    }

    /** visitMethod: appends the descriptor of an eligible method and returns
        the visitor for its body: a MethodInfoCollector for a recorded method,
        the static-field detector for `<clinit>`, none otherwise. */
    method VisitMethod(access: bv32, name: string, desc: string)
      requires Valid()
      requires name != "<clinit>" ==> IsMethodDescriptor(desc)
      modifies this
      ensures Valid()
      ensures var md := Admitted<V>(access, name, desc, prefix);
              && methods == old(methods) + (if md.Some? then [md.value] else [])
              && visitor == (if md.Some? then InfoCollector
                             else if name == "<clinit>" then StaticFieldDetector
                             else NoVisitor)
      ensures classVersion == old(classVersion) && className == old(className) && superClass == old(superClass)
      ensures interfaces == old(interfaces) && inners == old(inners) && excluded == old(excluded)
      ensures alreadyManipulated == old(alreadyManipulated) && registry == old(registry)
    {
      var md := Admitted<V>(access, name, desc, prefix);
      if md.Some? {
        methods := methods + [md.value];
        visitor := InfoCollector;
      } else if name == "<clinit>" {
        visitor := StaticFieldDetector;
      } else {
        visitor := NoVisitor;
      }
    }

    /** The method that the MethodInfoCollector fills. */
    function Current(): MethodDescriptor<V>
      reads this
      requires Valid() && visitor.InfoCollector?
    {
      methods[|methods| - 1]
    }

    /** `methods` with its last descriptor replaced by `md`. */
    function WithCurrent(md: MethodDescriptor<V>): seq<MethodDescriptor<V>>
      reads this
      requires Valid() && visitor.InfoCollector?
    {
      methods[..|methods| - 1] + [md]
    }

    /** MethodInfoCollector.visitAnnotation, followed by the calls that the
        returned AnnotationDescriptor receives: a visible annotation is
        captured onto the current method, an invisible one is dropped. */
    method VisitAnnotation(desc: string, visible: bool, calls: seq<Call<V>>)
      requires Valid()
      modifies this
      ensures Valid()
      ensures visitor == old(visitor)
      ensures if old(visitor).InfoCollector? && visible
              then methods == old(WithCurrent(Current().(annotations := Current().annotations
                                                       + [CaptureAnnotation(desc, true, calls)])))
              else methods == old(methods)
      ensures classVersion == old(classVersion) && className == old(className) && superClass == old(superClass)
      ensures interfaces == old(interfaces) && inners == old(inners) && excluded == old(excluded)
      ensures alreadyManipulated == old(alreadyManipulated)
      ensures registry == old(registry)
    {
      if visitor.InfoCollector? && visible {
        var md := Current();
        var ann := CaptureAnnotation(desc, true, calls);
        methods := WithCurrent(md.(annotations := md.annotations + [ann]));
      }
    }

    /** MethodInfoCollector.visitParameterAnnotation: a visible annotation is
        captured as visible; an invisible one is kept, as invisible, only on
        a method recorded as "$init": every admitted constructor, and also a
        method declared with that name. */
    method VisitParameterAnnotation(parameter: int, desc: string, visible: bool, calls: seq<Call<V>>)
      requires Valid()
      modifies this
      ensures Valid()
      ensures visitor == old(visitor)
      ensures if old(visitor).InfoCollector? && (visible || old(Current()).name == INIT)
              then methods == old(WithCurrent(Current().(parameterAnnotations := Current().parameterAnnotations
                                   + [ParameterAnnotation(parameter, CaptureAnnotation(desc, visible, calls))])))
              else methods == old(methods)
      ensures classVersion == old(classVersion) && className == old(className) && superClass == old(superClass)
      ensures interfaces == old(interfaces) && inners == old(inners) && excluded == old(excluded)
      ensures alreadyManipulated == old(alreadyManipulated)
      ensures registry == old(registry)
    {
      if visitor.InfoCollector? {
        var md := Current();
        if visible || md.name == INIT {
          var ann := CaptureAnnotation(desc, visible, calls);
          methods := WithCurrent(md.(parameterAnnotations := md.parameterAnnotations + [ParameterAnnotation(parameter, ann)]));
        }
      }
    }

    /** MethodInfoCollector.visitLocalVariable: appended in visit order. */
    method VisitLocalVariable(name: string, desc: string, signature: Option<string>, index: int)
      requires Valid()
      modifies this
      ensures Valid()
      ensures visitor == old(visitor)
      ensures if old(visitor).InfoCollector?
              then methods == old(WithCurrent(Current().(locals := Current().locals
                                   + [LocalVariable(name, desc, signature, index)])))
              else methods == old(methods)
      ensures classVersion == old(classVersion) && className == old(className) && superClass == old(superClass)
      ensures interfaces == old(interfaces) && inners == old(inners) && excluded == old(excluded)
      ensures alreadyManipulated == old(alreadyManipulated)
      ensures registry == old(registry)
    {
      if visitor.InfoCollector? {
        var md := Current();
        methods := WithCurrent(md.(locals := md.locals + [LocalVariable(name, desc, signature, index)]));
      }
    }

    /** visitTypeInsn of both method visitors.  In a static method, a type
        instruction whose opcode has all the bits of NEW on a registered inner
        class excludes it; in `<clinit>`, NEW on a registered inner class
        removes it.  Nothing else changes. */
    method VisitTypeInsn(opcode: bv32, typeName: string)
      requires Valid()
      modifies this
      ensures Valid()
      ensures visitor == old(visitor)
      ensures excluded == if old(visitor).InfoCollector? && old(Current()).isStatic
                             && opcode & NEW == NEW && typeName in old(inners)
                          then old(excluded) + {typeName} else old(excluded)
      ensures inners == if old(visitor).StaticFieldDetector? && opcode == NEW && typeName in old(inners)
                        then old(inners) - {typeName} else old(inners)
      ensures classVersion == old(classVersion) && className == old(className) && superClass == old(superClass)
      ensures interfaces == old(interfaces) && methods == old(methods)
      ensures alreadyManipulated == old(alreadyManipulated)
      ensures registry == old(registry)
    {
      if visitor.InfoCollector? {
        if Current().isStatic && opcode & NEW == NEW && typeName in inners {
          excluded := excluded + {typeName};
        }
      } else if visitor.StaticFieldDetector? {
        if opcode == NEW && typeName in inners {
          inners := inners - {typeName};
        }
      }
    }

    /** getInnerClassesAndMethods: the owned inner classes, pruned of every
        excluded name and of everything whose name starts with one.  It reads
        the checker's state and changes nothing. */
    function GetInnerClassesAndMethods(): (r: map<string, seq<MethodDescriptor<V>>>)
      reads this
      ensures r.Keys <= inners.Keys
      ensures forall k :: k in r ==> r[k] == inners[k]
      ensures forall e :: e in excluded ==> e !in r
      ensures forall e, k :: e in excluded && e <= k ==> k !in r
      ensures forall k :: k in inners && (forall e :: e in excluded ==> !(e <= k)) ==> k in r
    {
      ExcludedNamesAbsent(inners, excluded);
      FilterInners(inners, excluded)
    }
  }

  /** For the four instructions that carry a type operand (NEW, ANEWARRAY,
      CHECKCAST, INSTANCEOF), the bitwise test of visitTypeInsn in a static
      method holds exactly when the opcode is NEW. */
  lemma BitwiseNewTestOnTypeInstructions(opcode: bv32)
    requires opcode in {NEW, ANEWARRAY, CHECKCAST, INSTANCEOF}
    ensures (opcode & NEW == NEW) <==> opcode == NEW
  {
  }

  /** The bitwise test is weaker than equality in general: ATHROW, an opcode
      with more bits set than NEW, passes it. */
  lemma BitwiseNewTestIsNotEquality()
    ensures ATHROW & NEW == NEW && ATHROW != NEW
  {
  }
}
