/**
 * One whole pass of ClassChecker over a class file, seen as the sequence of
 * callbacks that ASM's ClassReader makes.  `Analyze` feeds the sequence to a
 * ClassChecker and reads back the summary; its contract characterises that
 * summary directly in terms of the events, index by index.
 */
module Analysis {
  import opened Wrappers
  import opened Descriptors
  import opened Eligibility
  import opened Annotations
  import opened Checker
  import AnnotationRoundTrip

  /** One callback received by the checker or by the method visitor it
      returned last.  An annotation event carries the calls that the returned
      annotation visitor then receives. */
  datatype ClassEvent<V> =
    | OnVisit(version: int, access: bv32, name: string, superName: string, interfaces: seq<string>)
    | OnField(access: bv32, name: string, desc: string)
    | OnInnerClass(name: string, outerName: Option<string>, innerName: Option<string>, access: bv32)
    | OnMethod(access: bv32, name: string, desc: string)
    | OnAnnotation(desc: string, visible: bool, calls: seq<Call<V>>)
    | OnParameterAnnotation(parameter: int, desc: string, visible: bool, calls: seq<Call<V>>)
    | OnLocalVariable(name: string, desc: string, signature: Option<string>, index: int)
    | OnTypeInsn(opcode: bv32, typeName: string)

  /** What ClassReader guarantees: the class header comes first and only
      once, and every method but `<clinit>` has a valid descriptor. */
  predicate WellFormed<V>(events: seq<ClassEvent<V>>) {
    && |events| > 0
    && events[0].OnVisit?
    && (forall j :: 0 < j < |events| ==> !events[j].OnVisit?)
    && (forall j :: 0 <= j < |events| && events[j].OnMethod? && events[j].name != "<clinit>" ==>
          IsMethodDescriptor(events[j].desc))
  }

  /** The summary a pass leaves behind (the getters of ClassChecker). */
  datatype Summary<V> = Summary(
    classVersion: int,
    className: Option<string>,
    superClass: Option<string>,
    interfaces: seq<string>,
    methods: seq<MethodDescriptor<V>>,
    innerClasses: map<string, seq<MethodDescriptor<V>>>,
    alreadyManipulated: bool)

  // ------------------------------------------- where an event is received

  /** The index of the last method event before position j, if any. */
  function LastMethod<V>(events: seq<ClassEvent<V>>, j: nat): (r: Option<nat>)
    requires j <= |events|
    ensures r.Some? ==> r.value < j && events[r.value].OnMethod?
    ensures r.Some? ==> forall t :: r.value < t < j ==> !events[t].OnMethod?
    ensures r.None? ==> forall t :: 0 <= t < j ==> !events[t].OnMethod?
  {
    if j == 0 then None
    else if events[j - 1].OnMethod? then Some(j - 1)
    else LastMethod(events, j - 1)
  }

  /** The method visitor that receives the event at position j. */
  function VisitorAt<V>(events: seq<ClassEvent<V>>, j: nat, prefix: string): MethodVisitorKind
    requires WellFormed(events) && j <= |events|
  {
    match LastMethod(events, j)
    case None => NoVisitor
    case Some(m) =>
      var e := events[m];
      if Admitted<V>(e.access, e.name, e.desc, prefix).Some? then InfoCollector
      else if e.name == "<clinit>" then StaticFieldDetector
      else NoVisitor
  }

  /** The event at j is received inside a recorded static method. */
  predicate InStaticMethod<V>(events: seq<ClassEvent<V>>, j: nat, prefix: string)
    requires WellFormed(events) && j <= |events|
  {
    VisitorAt(events, j, prefix).InfoCollector? && IsStatic(events[LastMethod(events, j).value].access)
  }

  // ------------------------------------------------------ inner classes

  /** The inner-class event at j names a class owned by the analysed class. */
  predicate Owned<V>(events: seq<ClassEvent<V>>, j: nat)
    requires WellFormed(events) && j < |events| && events[j].OnInnerClass?
  {
    events[j].outerName == None || events[j].outerName == Some(events[0].name)
  }

  predicate RegistersInner<V>(events: seq<ClassEvent<V>>, k: string, j: nat)
    requires WellFormed(events) && j < |events|
  {
    events[j].OnInnerClass? && events[j].name == k && Owned(events, j) && !IsStatic(events[j].access)
  }

  predicate ExcludesStaticInner<V>(events: seq<ClassEvent<V>>, k: string, j: nat)
    requires WellFormed(events) && j < |events|
  {
    events[j].OnInnerClass? && events[j].name == k && Owned(events, j) && IsStatic(events[j].access)
  }

  /** `new k` inside `<clinit>`. */
  predicate RemovesInner<V>(events: seq<ClassEvent<V>>, k: string, j: nat, prefix: string)
    requires WellFormed(events) && j < |events|
  {
    events[j] == OnTypeInsn(NEW, k) && VisitorAt(events, j, prefix).StaticFieldDetector?
  }

  /** k is registered when the event at j arrives: some earlier event
      registered it and no `new k` in `<clinit>` came after that. */
  predicate LiveAt<V>(events: seq<ClassEvent<V>>, k: string, j: nat, prefix: string)
    requires WellFormed(events) && j <= |events|
  {
    exists r :: 0 <= r < j && RegistersInner(events, k, r) &&
      forall t :: r < t < j ==> !RemovesInner(events, k, t, prefix)
  }

  /** A type instruction with all the bits of NEW on a registered inner class,
      inside a recorded static method. */
  predicate ExcludedByNew<V>(events: seq<ClassEvent<V>>, k: string, j: nat, prefix: string)
    requires WellFormed(events) && j < |events|
  {
    && events[j].OnTypeInsn? && events[j].typeName == k && events[j].opcode & NEW == NEW
    && InStaticMethod(events, j, prefix) && LiveAt(events, k, j, prefix)
  }

  /** k has been excluded by one of the first j events. */
  predicate ExcludedBefore<V>(events: seq<ClassEvent<V>>, k: string, j: nat, prefix: string)
    requires WellFormed(events) && j <= |events|
  {
    exists t :: 0 <= t < j && (ExcludesStaticInner(events, k, t) || ExcludedByNew(events, k, t, prefix))
  }

  // ------------------------------------------------------------ methods

  predicate MarksManipulated<V>(events: seq<ClassEvent<V>>, imField: string, j: nat)
    requires j < |events|
  {
    events[j].OnField? && events[j].name == imField && events[j].desc == INSTANCE_MANAGER_DESC
  }

  /** A method descriptor without what its body's visitor adds. */
  function Head<V>(md: MethodDescriptor<V>): MethodDescriptor<V> {
    md.(annotations := [], parameterAnnotations := [], locals := [])
  }

  function Heads<V>(ms: seq<MethodDescriptor<V>>): (r: seq<MethodDescriptor<V>>)
    ensures |r| == |ms|
  {
    seq(|ms|, k requires 0 <= k < |ms| => Head(ms[k]))
  }

  /** The descriptors that the first j events append, in order. */
  function AdmittedHeads<V>(events: seq<ClassEvent<V>>, j: nat, prefix: string): seq<MethodDescriptor<V>>
    requires WellFormed(events) && j <= |events|
  {
    if j == 0 then []
    else
      var e := events[j - 1];
      var md := if e.OnMethod? then Admitted<V>(e.access, e.name, e.desc, prefix) else None;
      AdmittedHeads(events, j - 1, prefix) + (if md.Some? then [md.value] else [])
  }

  /** Method annotations are visible and parameter annotations are invisible
      only on a method recorded as "$init" (every admitted constructor, and a
      method declared with that name); all of them are whole captured trees. */
  predicate AnnotationsKept<V>(md: MethodDescriptor<V>) {
    && (forall j :: 0 <= j < |md.annotations| ==>
          RootShaped(md.annotations[j]) && md.annotations[j].visible)
    && (forall j :: 0 <= j < |md.parameterAnnotations| ==>
          RootShaped(md.parameterAnnotations[j].annotation) &&
          (!md.parameterAnnotations[j].annotation.visible ==> md.name == INIT))
  }

  predicate AllAnnotationsKept<V>(ms: seq<MethodDescriptor<V>>) {
    forall k :: 0 <= k < |ms| ==> AnnotationsKept(ms[k])
  }

  /** The method event at m is one that visitMethod records: not `<clinit>`,
      a constructor whose descriptor does not start with an InstanceManager
      argument, or a method that no manipulation generated. */
  predicate Eligible<V>(events: seq<ClassEvent<V>>, m: nat, prefix: string)
    requires WellFormed(events) && m < |events| && events[m].OnMethod?
  {
    var e := events[m];
    && e.name != "<clinit>"
    && (e.name == "<init>" ==> !("(L" + INSTANCE_MANAGER + ";" <= e.desc))
    && (e.name != "<init>" ==> !IsGeneratedMethod(e.name, e.desc, prefix))
  }

  /** md is the descriptor recorded for the method event at m. */
  predicate HeadOf<V>(events: seq<ClassEvent<V>>, m: nat, md: MethodDescriptor<V>)
    requires m < |events| && events[m].OnMethod?
  {
    var e := events[m];
    && md.name == (if e.name == "<init>" then INIT else e.name)
    && md.desc == e.desc && md.isStatic == IsStatic(e.access)
    && md.annotations == [] && md.parameterAnnotations == [] && md.locals == []
  }

  // ------------------------------------------- what a method body adds

  /** The event at t reaches the MethodInfoCollector of the k-th recorded
      method: a collector is active and that method is the last one recorded. */
  predicate ReceivedBy<V>(events: seq<ClassEvent<V>>, t: nat, prefix: string, k: nat)
    requires WellFormed(events) && t <= |events|
  {
    VisitorAt(events, t, prefix).InfoCollector? && |AdmittedHeads(events, t, prefix)| == k + 1
  }

  /** The captures of the visible method annotations that the first j events
      deliver to the k-th recorded method, in order. */
  function AnnotationsOf<V>(events: seq<ClassEvent<V>>, j: nat, prefix: string, k: nat): seq<Annotation<V>>
    requires WellFormed(events) && j <= |events|
  {
    if j == 0 then []
    else
      var e := events[j - 1];
      AnnotationsOf(events, j - 1, prefix, k)
      + (if e.OnAnnotation? && e.visible && ReceivedBy(events, j - 1, prefix, k)
         then [CaptureAnnotation(e.desc, true, e.calls)] else [])
  }

  /** The parameter annotations that the first j events deliver to the k-th
      recorded method: the visible ones, and on a method recorded as "$init"
      (a constructor, or a method declared with that name) the invisible ones too, each with its parameter index and visibility. */
  function ParameterAnnotationsOf<V>(events: seq<ClassEvent<V>>, j: nat, prefix: string, k: nat): seq<ParameterAnnotation<V>>
    requires WellFormed(events) && j <= |events|
  {
    if j == 0 then []
    else
      var e := events[j - 1];
      ParameterAnnotationsOf(events, j - 1, prefix, k)
      + (if e.OnParameterAnnotation? && ReceivedBy(events, j - 1, prefix, k)
            && (e.visible || AdmittedHeads(events, j - 1, prefix)[k].name == INIT)
         then [ParameterAnnotation(e.parameter, CaptureAnnotation(e.desc, e.visible, e.calls))] else [])
  }

  /** The local variables that the first j events deliver to the k-th
      recorded method, in order. */
  function LocalsOf<V>(events: seq<ClassEvent<V>>, j: nat, prefix: string, k: nat): seq<LocalVariable>
    requires WellFormed(events) && j <= |events|
  {
    if j == 0 then []
    else
      var e := events[j - 1];
      LocalsOf(events, j - 1, prefix, k)
      + (if e.OnLocalVariable? && ReceivedBy(events, j - 1, prefix, k)
         then [LocalVariable(e.name, e.desc, e.signature, e.index)] else [])
  }

  /** The method event at position j - 1 extends the recorded list by its
      descriptor exactly when it is eligible. */
  lemma AdmittedHeadsStep<V>(events: seq<ClassEvent<V>>, j: nat, prefix: string)
    requires WellFormed(events) && 0 < j <= |events|
    ensures var before, after := AdmittedHeads(events, j - 1, prefix), AdmittedHeads(events, j, prefix);
            && |before| <= |after| <= |before| + 1
            && (forall k :: 0 <= k < |before| ==> after[k] == before[k])
            && (|after| == |before| + 1 <==> events[j - 1].OnMethod? && Eligible(events, j - 1, prefix))
            && (|after| == |before| + 1 ==> HeadOf(events, j - 1, after[|before|]))
  {
    var e := events[j - 1];
    if e.OnMethod? && e.name == "<init>" {
      GeneratedConstructorIffPrefix(e.name, e.desc);
    }
  }

  /** md is recorded for one of the first j events. */
  predicate RecordedBefore<V>(events: seq<ClassEvent<V>>, j: nat, md: MethodDescriptor<V>, prefix: string)
    requires WellFormed(events) && j <= |events|
  {
    exists m :: 0 <= m < j && events[m].OnMethod? && Eligible(events, m, prefix) && HeadOf(events, m, md)
  }

  /** Every recorded descriptor comes from an eligible method event. */
  lemma {:induction false} AdmittedHeadsSound<V>(events: seq<ClassEvent<V>>, j: nat, prefix: string)
    requires WellFormed(events) && j <= |events|
    ensures forall k :: 0 <= k < |AdmittedHeads(events, j, prefix)| ==>
              RecordedBefore(events, j, AdmittedHeads(events, j, prefix)[k], prefix)
  {
    if j > 0 {
      AdmittedHeadsSound(events, j - 1, prefix);
      AdmittedHeadsStep(events, j, prefix);
      var before, after := AdmittedHeads(events, j - 1, prefix), AdmittedHeads(events, j, prefix);
      forall k | 0 <= k < |after| ensures RecordedBefore(events, j, after[k], prefix) {
        if k < |before| {
          assert RecordedBefore(events, j - 1, before[k], prefix);
          var m :| 0 <= m < j - 1 && events[m].OnMethod? && Eligible(events, m, prefix) && HeadOf(events, m, before[k]);
          assert after[k] == before[k];
        } else {
          assert HeadOf(events, j - 1, after[k]);
        }
      }
    }
  }

  /** Every eligible method event has its descriptor recorded, in visit
      order: after as many descriptors as there were eligible events before it. */
  lemma {:induction false} AdmittedHeadsComplete<V>(events: seq<ClassEvent<V>>, j: nat, prefix: string)
    requires WellFormed(events) && j <= |events|
    ensures forall m :: 0 <= m < j && events[m].OnMethod? && Eligible(events, m, prefix) ==>
              && |AdmittedHeads(events, m, prefix)| < |AdmittedHeads(events, j, prefix)|
              && HeadOf(events, m, AdmittedHeads(events, j, prefix)[|AdmittedHeads(events, m, prefix)|])
  {
    if j > 0 {
      AdmittedHeadsComplete(events, j - 1, prefix);
      AdmittedHeadsStep(events, j, prefix);
      var before, after := AdmittedHeads(events, j - 1, prefix), AdmittedHeads(events, j, prefix);
      forall m | 0 <= m < j && events[m].OnMethod? && Eligible(events, m, prefix)
        ensures |AdmittedHeads(events, m, prefix)| < |after|
        ensures HeadOf(events, m, after[|AdmittedHeads(events, m, prefix)|])
      {
        var idx := |AdmittedHeads(events, m, prefix)|;
        if m < j - 1 {
          assert idx < |before| && HeadOf(events, m, before[idx]);
          assert after[idx] == before[idx];
        }
      }
    }
  }

  // ------------------------------------------------------ the invariant

  /** The already-manipulated flag after the first i events. */
  ghost predicate FlagTracked<V>(flag: bool, events: seq<ClassEvent<V>>, imField: string, i: nat)
    requires i <= |events|
  {
    flag <==> exists j :: 0 <= j < i && MarksManipulated(events, imField, j)
  }

  /** The method list and the current method visitor after the first i events. */
  ghost predicate MethodsTracked<V>(visitor: MethodVisitorKind, methods: seq<MethodDescriptor<V>>,
                                    events: seq<ClassEvent<V>>, i: nat, prefix: string)
    requires WellFormed(events) && i <= |events|
  {
    && visitor == VisitorAt(events, i, prefix)
    && Heads(methods) == AdmittedHeads(events, i, prefix)
    && (visitor.InfoCollector? ==>
          |methods| > 0 && methods[|methods| - 1].isStatic == IsStatic(events[LastMethod(events, i).value].access))
    && AllAnnotationsKept(methods)
  }

  /** The inner-class map and the exclusion set after the first i events. */
  ghost predicate InnersTracked<V>(inners: map<string, seq<MethodDescriptor<V>>>, excluded: set<string>,
                                   events: seq<ClassEvent<V>>, i: nat, prefix: string)
    requires WellFormed(events) && i <= |events|
  {
    && (forall k :: k in inners ==> inners[k] == [])
    && (forall k :: k in inners <==> LiveAt(events, k, i, prefix))
    && (forall e :: e in excluded <==> ExcludedBefore(events, e, i, prefix))
  }

  /** What the body of every recorded method holds after the first i events. */
  ghost predicate BodiesTracked<V>(methods: seq<MethodDescriptor<V>>, events: seq<ClassEvent<V>>, i: nat, prefix: string)
    requires WellFormed(events) && i <= |events|
  {
    forall k :: 0 <= k < |methods| ==>
      && methods[k].annotations == AnnotationsOf(events, i, prefix, k)
      && methods[k].parameterAnnotations == ParameterAnnotationsOf(events, i, prefix, k)
      && methods[k].locals == LocalsOf(events, i, prefix, k)
  }

  /** The checker's state after the first i events. */
  ghost predicate Tracks<V>(c: ClassChecker<V>, events: seq<ClassEvent<V>>, i: nat)
    reads c
    requires WellFormed(events) && 1 <= i <= |events|
  {
    var h := events[0];
    && c.Valid()
    && c.classVersion == h.version
    && c.className == Some(h.name)
    && c.superClass == (if h.superName == OBJECT then None else Some(Dotted(h.superName)))
    && c.interfaces == DeclaredInterfaces(h.interfaces)
    && FlagTracked(c.alreadyManipulated, events, c.imField, i)
    && MethodsTracked(c.visitor, c.methods, events, i, c.prefix)
    && BodiesTracked(c.methods, events, i, c.prefix)
    && InnersTracked(c.inners, c.excluded, events, i, c.prefix)
  }

  // ----------------------------------------------- one event at a time

  lemma FlagStep<V>(flag: bool, events: seq<ClassEvent<V>>, imField: string, i: nat)
    requires i < |events| && FlagTracked(flag, events, imField, i)
    ensures FlagTracked(flag || MarksManipulated(events, imField, i), events, imField, i + 1)
  {
  }

  lemma {:induction false} LiveStep<V>(events: seq<ClassEvent<V>>, k: string, i: nat, prefix: string)
    requires WellFormed(events) && i < |events|
    ensures LiveAt(events, k, i + 1, prefix) <==>
            RegistersInner(events, k, i) || (LiveAt(events, k, i, prefix) && !RemovesInner(events, k, i, prefix))
  {
    if RegistersInner(events, k, i) {
      assert 0 <= i < i + 1 && RegistersInner(events, k, i);
    } else if LiveAt(events, k, i, prefix) && !RemovesInner(events, k, i, prefix) {
      var r :| 0 <= r < i && RegistersInner(events, k, r) && forall t :: r < t < i ==> !RemovesInner(events, k, t, prefix);
      assert forall t :: r < t < i + 1 ==> !RemovesInner(events, k, t, prefix);
    }
    if LiveAt(events, k, i + 1, prefix) && !RegistersInner(events, k, i) {
      var r :| 0 <= r < i + 1 && RegistersInner(events, k, r) && forall t :: r < t < i + 1 ==> !RemovesInner(events, k, t, prefix);
      assert r < i;
      assert !RemovesInner(events, k, i, prefix);
    }
  }

  lemma ExcludedStep<V>(events: seq<ClassEvent<V>>, k: string, i: nat, prefix: string)
    requires WellFormed(events) && i < |events|
    ensures ExcludedBefore(events, k, i + 1, prefix) <==>
            ExcludedBefore(events, k, i, prefix) || ExcludesStaticInner(events, k, i) || ExcludedByNew(events, k, i, prefix)
  {
  }

  /** An event that is neither an inner-class declaration nor a type
      instruction leaves registration and exclusion as they were. */
  lemma InnersKept<V>(inners: map<string, seq<MethodDescriptor<V>>>, excluded: set<string>,
                      events: seq<ClassEvent<V>>, i: nat, prefix: string)
    requires WellFormed(events) && i < |events| && InnersTracked(inners, excluded, events, i, prefix)
    requires !events[i].OnInnerClass? && !events[i].OnTypeInsn?
    ensures InnersTracked(inners, excluded, events, i + 1, prefix)
  {
    forall k ensures LiveAt(events, k, i + 1, prefix) <==> LiveAt(events, k, i, prefix) {
      LiveStep(events, k, i, prefix);
    }
    forall k ensures ExcludedBefore(events, k, i + 1, prefix) <==> ExcludedBefore(events, k, i, prefix) {
      ExcludedStep(events, k, i, prefix);
    }
  }

  /** An inner-class declaration registers or excludes an owned class. */
  lemma InnerClassStep<V>(inners: map<string, seq<MethodDescriptor<V>>>, excluded: set<string>,
                          events: seq<ClassEvent<V>>, i: nat, prefix: string)
    requires WellFormed(events) && 0 < i < |events| && InnersTracked(inners, excluded, events, i, prefix)
    requires events[i].OnInnerClass?
    ensures var e := events[i];
            var owned := e.outerName == Some(events[0].name) || e.outerName == None;
            InnersTracked(if owned && !IsStatic(e.access) then inners[e.name := []] else inners,
                          if owned && IsStatic(e.access) then excluded + {e.name} else excluded,
                          events, i + 1, prefix)
  {
    var e := events[i];
    assert Owned(events, i) <==> e.outerName == Some(events[0].name) || e.outerName == None;
    forall k ensures LiveAt(events, k, i + 1, prefix) <==> RegistersInner(events, k, i) || LiveAt(events, k, i, prefix) {
      LiveStep(events, k, i, prefix);
    }
    forall k ensures ExcludedBefore(events, k, i + 1, prefix) <==> ExcludedBefore(events, k, i, prefix) || ExcludesStaticInner(events, k, i) {
      ExcludedStep(events, k, i, prefix);
    }
    var owned := e.outerName == Some(events[0].name) || e.outerName == None;
    var inners' := if owned && !IsStatic(e.access) then inners[e.name := []] else inners;
    var excluded' := if owned && IsStatic(e.access) then excluded + {e.name} else excluded;
    assert forall k :: RegistersInner(events, k, i) <==> k == e.name && owned && !IsStatic(e.access);
    assert forall k :: ExcludesStaticInner(events, k, i) <==> k == e.name && owned && IsStatic(e.access);
    assert forall k :: k in inners' ==> inners'[k] == [];
    forall k ensures k in inners' <==> LiveAt(events, k, i + 1, prefix) {
      assert k in inners <==> LiveAt(events, k, i, prefix);
    }
    assert forall k :: k in excluded' <==> ExcludedBefore(events, k, i + 1, prefix);
  }

  /** A type instruction: `new` of a registered class in `<clinit>` removes
      it; a NEW-like instruction on one in a recorded static method excludes it. */
  lemma TypeInsnStep<V>(inners: map<string, seq<MethodDescriptor<V>>>, excluded: set<string>,
                        visitor: MethodVisitorKind, methods: seq<MethodDescriptor<V>>,
                        events: seq<ClassEvent<V>>, i: nat, prefix: string)
    requires WellFormed(events) && 0 < i < |events| && InnersTracked(inners, excluded, events, i, prefix)
    requires MethodsTracked(visitor, methods, events, i, prefix)
    requires events[i].OnTypeInsn?
    ensures var e := events[i];
            InnersTracked(if visitor.StaticFieldDetector? && e.opcode == NEW && e.typeName in inners
                          then inners - {e.typeName} else inners,
                          if visitor.InfoCollector? && methods[|methods| - 1].isStatic
                             && e.opcode & NEW == NEW && e.typeName in inners
                          then excluded + {e.typeName} else excluded,
                          events, i + 1, prefix)
  {
    var e := events[i];
    var removes := visitor.StaticFieldDetector? && e.opcode == NEW && e.typeName in inners;
    var excludes := visitor.InfoCollector? && methods[|methods| - 1].isStatic
                    && e.opcode & NEW == NEW && e.typeName in inners;
    var inners' := if removes then inners - {e.typeName} else inners;
    var excluded' := if excludes then excluded + {e.typeName} else excluded;
    forall k ensures k in inners' <==> LiveAt(events, k, i + 1, prefix) {
      LiveStep(events, k, i, prefix);
      assert RemovesInner(events, k, i, prefix) <==> k == e.typeName && visitor.StaticFieldDetector? && e.opcode == NEW;
    }
    forall k ensures k in excluded' <==> ExcludedBefore(events, k, i + 1, prefix) {
      ExcludedStep(events, k, i, prefix);
      assert ExcludedByNew(events, k, i, prefix) <==> k == e.typeName && excludes;
    }
  }

  /** An event received outside any method body's collector leaves the method
      list and the current visitor as they were. */
  lemma MethodsKept<V>(visitor: MethodVisitorKind, methods: seq<MethodDescriptor<V>>,
                       events: seq<ClassEvent<V>>, i: nat, prefix: string)
    requires WellFormed(events) && i < |events| && MethodsTracked(visitor, methods, events, i, prefix)
    requires !events[i].OnMethod?
    ensures MethodsTracked(visitor, methods, events, i + 1, prefix)
  {
  }

  /** A method event appends its admitted descriptor and selects the visitor. */
  lemma MethodStep<V>(visitor: MethodVisitorKind, methods: seq<MethodDescriptor<V>>,
                      events: seq<ClassEvent<V>>, i: nat, prefix: string)
    requires WellFormed(events) && i < |events| && MethodsTracked(visitor, methods, events, i, prefix)
    requires events[i].OnMethod?
    ensures var e := events[i];
            var md := Admitted<V>(e.access, e.name, e.desc, prefix);
            MethodsTracked(if md.Some? then InfoCollector
                           else if e.name == "<clinit>" then StaticFieldDetector
                           else NoVisitor,
                           methods + (if md.Some? then [md.value] else []),
                           events, i + 1, prefix)
  {
    var e := events[i];
    var md := Admitted<V>(e.access, e.name, e.desc, prefix);
    if md.Some? {
      assert Heads(methods + [md.value]) == Heads(methods) + [Head(md.value)];
      var ms := methods + [md.value];
      assert forall k :: 0 <= k < |methods| ==> ms[k] == methods[k];
    }
  }

  /** An event in a method body changes at most the last descriptor, and
      never its name, descriptor or staticness. */
  lemma MethodBodyStep<V>(visitor: MethodVisitorKind, methods: seq<MethodDescriptor<V>>, md: MethodDescriptor<V>,
                          events: seq<ClassEvent<V>>, i: nat, prefix: string)
    requires WellFormed(events) && i < |events| && MethodsTracked(visitor, methods, events, i, prefix)
    requires !events[i].OnMethod? && visitor.InfoCollector?
    requires Head(md) == Head(methods[|methods| - 1]) && AnnotationsKept(md)
    ensures MethodsTracked(visitor, methods[..|methods| - 1] + [md], events, i + 1, prefix)
  {
    MethodsKept(visitor, methods, events, i, prefix);
    LastReplaced(methods, md);
  }

  /** Replacing the last descriptor by one of the same head keeps the heads,
      and keeps every annotation well shaped. */
  lemma LastReplaced<V>(methods: seq<MethodDescriptor<V>>, md: MethodDescriptor<V>)
    requires |methods| > 0 && AllAnnotationsKept(methods)
    requires Head(md) == Head(methods[|methods| - 1]) && AnnotationsKept(md)
    ensures var ms := methods[..|methods| - 1] + [md];
            Heads(ms) == Heads(methods) && AllAnnotationsKept(ms) && ms[|ms| - 1].isStatic == methods[|methods| - 1].isStatic
  {
    var ms := methods[..|methods| - 1] + [md];
    assert forall k :: 0 <= k < |methods| - 1 ==> ms[k] == methods[k];
    assert Heads(ms) == Heads(methods);
  }

  lemma AnnotationKept<V>(md: MethodDescriptor<V>, a: Annotation<V>)
    requires AnnotationsKept(md) && RootShaped(a) && a.visible
    ensures AnnotationsKept(md.(annotations := md.annotations + [a]))
  {
  }

  lemma ParameterAnnotationKept<V>(md: MethodDescriptor<V>, p: ParameterAnnotation<V>)
    requires AnnotationsKept(md) && RootShaped(p.annotation) && (!p.annotation.visible ==> md.name == INIT)
    ensures AnnotationsKept(md.(parameterAnnotations := md.parameterAnnotations + [p]))
  {
  }

  /** A method annotation is captured onto the last recorded method when it
      is visible and the collector receives it. */
  lemma AnnotationStep<V>(visitor: MethodVisitorKind, methods: seq<MethodDescriptor<V>>,
                          events: seq<ClassEvent<V>>, i: nat, prefix: string)
    requires WellFormed(events) && i < |events| && MethodsTracked(visitor, methods, events, i, prefix)
    requires events[i].OnAnnotation?
    ensures var e := events[i];
            MethodsTracked(visitor,
                           if visitor.InfoCollector? && e.visible
                           then var md := methods[|methods| - 1];
                                methods[..|methods| - 1]
                                + [md.(annotations := md.annotations + [CaptureAnnotation(e.desc, true, e.calls)])]
                           else methods,
                           events, i + 1, prefix)
  {
    var e := events[i];
    if visitor.InfoCollector? && e.visible {
      var md := methods[|methods| - 1];
      var a := CaptureAnnotation(e.desc, true, e.calls);
      AnnotationRoundTrip.CapturedIsShaped(e.desc, true, e.calls);
      AnnotationKept(md, a);
      MethodBodyStep(visitor, methods, md.(annotations := md.annotations + [a]), events, i, prefix);
    } else {
      MethodsKept(visitor, methods, events, i, prefix);
    }
  }

  /** A parameter annotation is captured onto the last recorded method when it
      is visible, or when that method is recorded as "$init" (a constructor,
      or a method declared with that name). */
  lemma ParameterAnnotationStep<V>(visitor: MethodVisitorKind, methods: seq<MethodDescriptor<V>>,
                                   events: seq<ClassEvent<V>>, i: nat, prefix: string)
    requires WellFormed(events) && i < |events| && MethodsTracked(visitor, methods, events, i, prefix)
    requires events[i].OnParameterAnnotation?
    ensures var e := events[i];
            MethodsTracked(visitor,
                           if visitor.InfoCollector? && (e.visible || methods[|methods| - 1].name == INIT)
                           then var md := methods[|methods| - 1];
                                methods[..|methods| - 1]
                                + [md.(parameterAnnotations := md.parameterAnnotations
                                       + [ParameterAnnotation(e.parameter, CaptureAnnotation(e.desc, e.visible, e.calls))])]
                           else methods,
                           events, i + 1, prefix)
  {
    var e := events[i];
    if visitor.InfoCollector? && (e.visible || methods[|methods| - 1].name == INIT) {
      var md := methods[|methods| - 1];
      var p := ParameterAnnotation(e.parameter, CaptureAnnotation(e.desc, e.visible, e.calls));
      AnnotationRoundTrip.CapturedIsShaped(e.desc, e.visible, e.calls);
      ParameterAnnotationKept(md, p);
      MethodBodyStep(visitor, methods, md.(parameterAnnotations := md.parameterAnnotations + [p]), events, i, prefix);
    } else {
      MethodsKept(visitor, methods, events, i, prefix);
    }
  }

  /** A local variable received by the collector is appended to the last
      recorded method; otherwise the list is unchanged. */
  lemma LocalVariableStep<V>(visitor: MethodVisitorKind, methods: seq<MethodDescriptor<V>>,
                             events: seq<ClassEvent<V>>, i: nat, prefix: string)
    requires WellFormed(events) && i < |events| && MethodsTracked(visitor, methods, events, i, prefix)
    requires events[i].OnLocalVariable?
    ensures var e := events[i];
            MethodsTracked(visitor,
                           if visitor.InfoCollector?
                           then var md := methods[|methods| - 1];
                                methods[..|methods| - 1]
                                + [md.(locals := md.locals + [LocalVariable(e.name, e.desc, e.signature, e.index)])]
                           else methods,
                           events, i + 1, prefix)
  {
    var e := events[i];
    if visitor.InfoCollector? {
      var md := methods[|methods| - 1];
      MethodBodyStep(visitor, methods, md.(locals := md.locals + [LocalVariable(e.name, e.desc, e.signature, e.index)]), events, i, prefix);
    } else {
      MethodsKept(visitor, methods, events, i, prefix);
    }
  }

  /** Nothing is delivered to a method that is not recorded yet. */
  lemma {:induction false} BodiesEmptyBeyond<V>(events: seq<ClassEvent<V>>, j: nat, prefix: string, k: nat)
    requires WellFormed(events) && j <= |events| && |AdmittedHeads(events, j, prefix)| <= k
    ensures AnnotationsOf(events, j, prefix, k) == []
    ensures ParameterAnnotationsOf(events, j, prefix, k) == []
    ensures LocalsOf(events, j, prefix, k) == []
  {
    if j > 0 {
      AdmittedHeadsStep(events, j, prefix);
      BodiesEmptyBeyond(events, j - 1, prefix, k);
    }
  }

  /** An event that is neither a method nor part of a method body leaves
      every body as it was. */
  lemma BodiesKept<V>(methods: seq<MethodDescriptor<V>>, events: seq<ClassEvent<V>>, i: nat, prefix: string)
    requires WellFormed(events) && i < |events| && BodiesTracked(methods, events, i, prefix)
    requires events[i].OnField? || events[i].OnInnerClass? || events[i].OnTypeInsn?
    ensures BodiesTracked(methods, events, i + 1, prefix)
  {
  }

  /** Descriptors appended with empty bodies start with nothing delivered. */
  lemma AppendedBodiesEmpty<V>(methods: seq<MethodDescriptor<V>>, tail: seq<MethodDescriptor<V>>,
                               events: seq<ClassEvent<V>>, i: nat, prefix: string)
    requires WellFormed(events) && i < |events| && BodiesTracked(methods, events, i, prefix)
    requires events[i].OnMethod? && |AdmittedHeads(events, i, prefix)| == |methods|
    requires forall x :: 0 <= x < |tail| ==>
               tail[x].annotations == [] && tail[x].parameterAnnotations == [] && tail[x].locals == []
    ensures BodiesTracked(methods + tail, events, i + 1, prefix)
  {
    var ms := methods + tail;
    forall k | 0 <= k < |ms|
      ensures ms[k].annotations == AnnotationsOf(events, i + 1, prefix, k)
      ensures ms[k].parameterAnnotations == ParameterAnnotationsOf(events, i + 1, prefix, k)
      ensures ms[k].locals == LocalsOf(events, i + 1, prefix, k)
    {
      if k < |methods| {
        assert ms[k] == methods[k];
      } else {
        assert ms[k] == tail[k - |methods|];
        BodiesEmptyBeyond(events, i, prefix, k);
      }
    }
  }

  /** What the body steps need of the tracked method list: the current
      visitor, the number of recorded methods and the last one's name. */
  lemma TrackedShape<V>(visitor: MethodVisitorKind, methods: seq<MethodDescriptor<V>>,
                        events: seq<ClassEvent<V>>, i: nat, prefix: string)
    requires WellFormed(events) && i <= |events| && MethodsTracked(visitor, methods, events, i, prefix)
    ensures visitor == VisitorAt(events, i, prefix)
    ensures |AdmittedHeads(events, i, prefix)| == |methods|
    ensures visitor.InfoCollector? ==>
              |methods| > 0 && AdmittedHeads(events, i, prefix)[|methods| - 1].name == methods[|methods| - 1].name
  {
    assert |AdmittedHeads(events, i, prefix)| == |Heads(methods)|;
    if visitor.InfoCollector? {
      assert AdmittedHeads(events, i, prefix)[|methods| - 1] == Head(methods[|methods| - 1]);
    }
  }

  /** A method event starts the new descriptor with an empty body. */
  lemma MethodBodiesStep<V>(methods: seq<MethodDescriptor<V>>, events: seq<ClassEvent<V>>, i: nat, prefix: string)
    requires WellFormed(events) && i < |events| && |AdmittedHeads(events, i, prefix)| == |methods|
    requires BodiesTracked(methods, events, i, prefix)
    requires events[i].OnMethod?
    ensures var e := events[i];
            var md := Admitted<V>(e.access, e.name, e.desc, prefix);
            BodiesTracked(methods + (if md.Some? then [md.value] else []), events, i + 1, prefix)
  {
    var e := events[i];
    var md := Admitted<V>(e.access, e.name, e.desc, prefix);
    AppendedBodiesEmpty(methods, if md.Some? then [md.value] else [], events, i, prefix);
  }

  /** An event that the last recorded method's collector receives changes
      the body of that method only. */
  lemma LastBodyStep<V>(methods: seq<MethodDescriptor<V>>, md: MethodDescriptor<V>,
                        events: seq<ClassEvent<V>>, i: nat, prefix: string)
    requires WellFormed(events) && i < |events| && BodiesTracked(methods, events, i, prefix)
    requires |methods| > 0 && |AdmittedHeads(events, i, prefix)| == |methods|
    requires md.annotations == AnnotationsOf(events, i + 1, prefix, |methods| - 1)
    requires md.parameterAnnotations == ParameterAnnotationsOf(events, i + 1, prefix, |methods| - 1)
    requires md.locals == LocalsOf(events, i + 1, prefix, |methods| - 1)
    ensures BodiesTracked(methods[..|methods| - 1] + [md], events, i + 1, prefix)
  {
    var ms := methods[..|methods| - 1] + [md];
    forall k | 0 <= k < |ms|
      ensures ms[k].annotations == AnnotationsOf(events, i + 1, prefix, k)
      ensures ms[k].parameterAnnotations == ParameterAnnotationsOf(events, i + 1, prefix, k)
      ensures ms[k].locals == LocalsOf(events, i + 1, prefix, k)
    {
      if k < |methods| - 1 {
        assert ms[k] == methods[k];
        NotReceivedKept(events, i, prefix, k);
      }
    }
  }

  /** A method that does not receive event i keeps its body across it. */
  lemma NotReceivedKept<V>(events: seq<ClassEvent<V>>, i: nat, prefix: string, k: nat)
    requires WellFormed(events) && i < |events| && k + 1 < |AdmittedHeads(events, i, prefix)|
    ensures AnnotationsOf(events, i + 1, prefix, k) == AnnotationsOf(events, i, prefix, k)
    ensures ParameterAnnotationsOf(events, i + 1, prefix, k) == ParameterAnnotationsOf(events, i, prefix, k)
    ensures LocalsOf(events, i + 1, prefix, k) == LocalsOf(events, i, prefix, k)
  {
    assert !ReceivedBy(events, i, prefix, k);
  }

  /** An event that no collector keeps leaves every body as it was. */
  lemma BodiesUnchanged<V>(methods: seq<MethodDescriptor<V>>, events: seq<ClassEvent<V>>, i: nat, prefix: string)
    requires WellFormed(events) && i < |events| && BodiesTracked(methods, events, i, prefix)
    requires forall k :: 0 <= k < |methods| ==>
               && AnnotationsOf(events, i + 1, prefix, k) == AnnotationsOf(events, i, prefix, k)
               && ParameterAnnotationsOf(events, i + 1, prefix, k) == ParameterAnnotationsOf(events, i, prefix, k)
               && LocalsOf(events, i + 1, prefix, k) == LocalsOf(events, i, prefix, k)
    ensures BodiesTracked(methods, events, i + 1, prefix)
  {
  }

  /** A visible method annotation received by the collector is appended to
      the annotations of the last recorded method. */
  lemma AnnotationBodiesStep<V>(visitor: MethodVisitorKind, methods: seq<MethodDescriptor<V>>,
                                events: seq<ClassEvent<V>>, i: nat, prefix: string)
    requires WellFormed(events) && i < |events| && BodiesTracked(methods, events, i, prefix)
    requires visitor == VisitorAt(events, i, prefix) && |AdmittedHeads(events, i, prefix)| == |methods|
    requires visitor.InfoCollector? ==> |methods| > 0
    requires events[i].OnAnnotation?
    ensures var e := events[i];
            BodiesTracked(if visitor.InfoCollector? && e.visible
                          then var md := methods[|methods| - 1];
                               methods[..|methods| - 1]
                               + [md.(annotations := md.annotations + [CaptureAnnotation(e.desc, true, e.calls)])]
                          else methods,
                          events, i + 1, prefix)
  {
    var e := events[i];
    if visitor.InfoCollector? && e.visible {
      var md := methods[|methods| - 1];
      assert ReceivedBy(events, i, prefix, |methods| - 1);
      LastBodyStep(methods, md.(annotations := md.annotations + [CaptureAnnotation(e.desc, true, e.calls)]), events, i, prefix);
    } else {
      BodiesUnchanged(methods, events, i, prefix);
    }
  }

  /** A parameter annotation received by the collector is appended to the
      last recorded method when visible or when that method is recorded as
      "$init" (a constructor, or a method declared with that name). */
  lemma ParameterAnnotationBodiesStep<V>(visitor: MethodVisitorKind, methods: seq<MethodDescriptor<V>>,
                                         events: seq<ClassEvent<V>>, i: nat, prefix: string)
    requires WellFormed(events) && i < |events| && BodiesTracked(methods, events, i, prefix)
    requires visitor == VisitorAt(events, i, prefix) && |AdmittedHeads(events, i, prefix)| == |methods|
    requires visitor.InfoCollector? ==>
               |methods| > 0 && AdmittedHeads(events, i, prefix)[|methods| - 1].name == methods[|methods| - 1].name
    requires events[i].OnParameterAnnotation?
    ensures var e := events[i];
            BodiesTracked(if visitor.InfoCollector? && (e.visible || methods[|methods| - 1].name == INIT)
                          then var md := methods[|methods| - 1];
                               methods[..|methods| - 1]
                               + [md.(parameterAnnotations := md.parameterAnnotations
                                      + [ParameterAnnotation(e.parameter, CaptureAnnotation(e.desc, e.visible, e.calls))])]
                          else methods,
                          events, i + 1, prefix)
  {
    var e := events[i];
    if visitor.InfoCollector? && (e.visible || methods[|methods| - 1].name == INIT) {
      var md := methods[|methods| - 1];
      assert ReceivedBy(events, i, prefix, |methods| - 1);
      LastBodyStep(methods, md.(parameterAnnotations := md.parameterAnnotations
                                   + [ParameterAnnotation(e.parameter, CaptureAnnotation(e.desc, e.visible, e.calls))]),
                   events, i, prefix);
    } else {
      ParameterAnnotationIgnored(events, i, prefix, |methods|);
      BodiesUnchanged(methods, events, i, prefix);
    }
  }

  /** An invisible parameter annotation on a method not recorded as "$init",
      or one that no collector receives, is kept by no recorded method. */
  lemma ParameterAnnotationIgnored<V>(events: seq<ClassEvent<V>>, i: nat, prefix: string, n: nat)
    requires WellFormed(events) && i < |events| && events[i].OnParameterAnnotation?
    requires |AdmittedHeads(events, i, prefix)| == n
    requires VisitorAt(events, i, prefix).InfoCollector? ==>
               n > 0 && !events[i].visible && AdmittedHeads(events, i, prefix)[n - 1].name != INIT
    ensures forall k :: 0 <= k < n ==>
              && AnnotationsOf(events, i + 1, prefix, k) == AnnotationsOf(events, i, prefix, k)
              && ParameterAnnotationsOf(events, i + 1, prefix, k) == ParameterAnnotationsOf(events, i, prefix, k)
              && LocalsOf(events, i + 1, prefix, k) == LocalsOf(events, i, prefix, k)
  {
    forall k | 0 <= k < n
      ensures AnnotationsOf(events, i + 1, prefix, k) == AnnotationsOf(events, i, prefix, k)
      ensures ParameterAnnotationsOf(events, i + 1, prefix, k) == ParameterAnnotationsOf(events, i, prefix, k)
      ensures LocalsOf(events, i + 1, prefix, k) == LocalsOf(events, i, prefix, k)
    {
      IgnoredParameterAnnotationAt(events, i, prefix, k);
    }
  }

  lemma IgnoredParameterAnnotationAt<V>(events: seq<ClassEvent<V>>, i: nat, prefix: string, k: nat)
    requires WellFormed(events) && i < |events| && events[i].OnParameterAnnotation?
    requires ReceivedBy(events, i, prefix, k) ==>
               !events[i].visible && AdmittedHeads(events, i, prefix)[k].name != INIT
    ensures AnnotationsOf(events, i + 1, prefix, k) == AnnotationsOf(events, i, prefix, k)
    ensures ParameterAnnotationsOf(events, i + 1, prefix, k) == ParameterAnnotationsOf(events, i, prefix, k)
    ensures LocalsOf(events, i + 1, prefix, k) == LocalsOf(events, i, prefix, k)
  {
  }

  /** A local variable received by the collector is appended to the locals
      of the last recorded method. */
  lemma LocalVariableBodiesStep<V>(visitor: MethodVisitorKind, methods: seq<MethodDescriptor<V>>,
                                   events: seq<ClassEvent<V>>, i: nat, prefix: string)
    requires WellFormed(events) && i < |events| && BodiesTracked(methods, events, i, prefix)
    requires visitor == VisitorAt(events, i, prefix) && |AdmittedHeads(events, i, prefix)| == |methods|
    requires visitor.InfoCollector? ==> |methods| > 0
    requires events[i].OnLocalVariable?
    ensures var e := events[i];
            BodiesTracked(if visitor.InfoCollector?
                          then var md := methods[|methods| - 1];
                               methods[..|methods| - 1]
                               + [md.(locals := md.locals + [LocalVariable(e.name, e.desc, e.signature, e.index)])]
                          else methods,
                          events, i + 1, prefix)
  {
    var e := events[i];
    if visitor.InfoCollector? {
      var md := methods[|methods| - 1];
      assert ReceivedBy(events, i, prefix, |methods| - 1);
      LastBodyStep(methods, md.(locals := md.locals + [LocalVariable(e.name, e.desc, e.signature, e.index)]), events, i, prefix);
    } else {
      BodiesUnchanged(methods, events, i, prefix);
    }
  }

  // ------------------------------------------------------------ feeding

  method FeedField<V>(c: ClassChecker<V>, events: seq<ClassEvent<V>>, i: nat)
    requires WellFormed(events) && 1 <= i < |events| && Tracks(c, events, i)
    requires events[i].OnField?
    modifies c
    ensures Tracks(c, events, i + 1)
  {
    var e := events[i];
    FlagStep(c.alreadyManipulated, events, c.imField, i);
    MethodsKept(c.visitor, c.methods, events, i, c.prefix);
    BodiesKept(c.methods, events, i, c.prefix);
    InnersKept(c.inners, c.excluded, events, i, c.prefix);
    c.VisitField(e.access, e.name, e.desc);
  }

  method FeedInnerClass<V>(c: ClassChecker<V>, events: seq<ClassEvent<V>>, i: nat)
    requires WellFormed(events) && 1 <= i < |events| && Tracks(c, events, i)
    requires events[i].OnInnerClass?
    modifies c
    ensures Tracks(c, events, i + 1)
  {
    var e := events[i];
    FlagStep(c.alreadyManipulated, events, c.imField, i);
    MethodsKept(c.visitor, c.methods, events, i, c.prefix);
    BodiesKept(c.methods, events, i, c.prefix);
    InnerClassStep(c.inners, c.excluded, events, i, c.prefix);
    c.VisitInnerClass(e.name, e.outerName, e.innerName, e.access);
  }

  method FeedMethod<V>(c: ClassChecker<V>, events: seq<ClassEvent<V>>, i: nat)
    requires WellFormed(events) && 1 <= i < |events| && Tracks(c, events, i)
    requires events[i].OnMethod?
    modifies c
    ensures Tracks(c, events, i + 1)
  {
    var e := events[i];
    FlagStep(c.alreadyManipulated, events, c.imField, i);
    MethodStep(c.visitor, c.methods, events, i, c.prefix);
    TrackedShape(c.visitor, c.methods, events, i, c.prefix);
    MethodBodiesStep(c.methods, events, i, c.prefix);
    InnersKept(c.inners, c.excluded, events, i, c.prefix);
    c.VisitMethod(e.access, e.name, e.desc);
  }

  method FeedAnnotation<V>(c: ClassChecker<V>, events: seq<ClassEvent<V>>, i: nat)
    requires WellFormed(events) && 1 <= i < |events| && Tracks(c, events, i)
    requires events[i].OnAnnotation?
    modifies c
    ensures Tracks(c, events, i + 1)
  {
    var e := events[i];
    FlagStep(c.alreadyManipulated, events, c.imField, i);
    InnersKept(c.inners, c.excluded, events, i, c.prefix);
    ghost var ms := c.methods;
    ghost var next := if c.visitor.InfoCollector? && e.visible
                      then var md := ms[|ms| - 1];
                           ms[..|ms| - 1] + [md.(annotations := md.annotations + [CaptureAnnotation(e.desc, true, e.calls)])]
                      else ms;
    AnnotationStep(c.visitor, ms, events, i, c.prefix);
    TrackedShape(c.visitor, ms, events, i, c.prefix);
    AnnotationBodiesStep(c.visitor, ms, events, i, c.prefix);
    assert MethodsTracked(c.visitor, next, events, i + 1, c.prefix) && BodiesTracked(next, events, i + 1, c.prefix);
    c.VisitAnnotation(e.desc, e.visible, e.calls);
    assert c.methods == next;
  }

  method FeedParameterAnnotation<V>(c: ClassChecker<V>, events: seq<ClassEvent<V>>, i: nat)
    requires WellFormed(events) && 1 <= i < |events| && Tracks(c, events, i)
    requires events[i].OnParameterAnnotation?
    modifies c
    ensures Tracks(c, events, i + 1)
  {
    var e := events[i];
    FlagStep(c.alreadyManipulated, events, c.imField, i);
    InnersKept(c.inners, c.excluded, events, i, c.prefix);
    ghost var ms := c.methods;
    ghost var next := if c.visitor.InfoCollector? && (e.visible || ms[|ms| - 1].name == INIT)
                      then var md := ms[|ms| - 1];
                           ms[..|ms| - 1]
                           + [md.(parameterAnnotations := md.parameterAnnotations
                                  + [ParameterAnnotation(e.parameter, CaptureAnnotation(e.desc, e.visible, e.calls))])]
                      else ms;
    ParameterAnnotationStep(c.visitor, ms, events, i, c.prefix);
    TrackedShape(c.visitor, ms, events, i, c.prefix);
    ParameterAnnotationBodiesStep(c.visitor, ms, events, i, c.prefix);
    assert MethodsTracked(c.visitor, next, events, i + 1, c.prefix) && BodiesTracked(next, events, i + 1, c.prefix);
    c.VisitParameterAnnotation(e.parameter, e.desc, e.visible, e.calls);
    assert c.methods == next;
  }

  method FeedLocalVariable<V>(c: ClassChecker<V>, events: seq<ClassEvent<V>>, i: nat)
    requires WellFormed(events) && 1 <= i < |events| && Tracks(c, events, i)
    requires events[i].OnLocalVariable?
    modifies c
    ensures Tracks(c, events, i + 1)
  {
    var e := events[i];
    FlagStep(c.alreadyManipulated, events, c.imField, i);
    InnersKept(c.inners, c.excluded, events, i, c.prefix);
    ghost var ms := c.methods;
    ghost var next := if c.visitor.InfoCollector?
                      then var md := ms[|ms| - 1];
                           ms[..|ms| - 1] + [md.(locals := md.locals + [LocalVariable(e.name, e.desc, e.signature, e.index)])]
                      else ms;
    LocalVariableStep(c.visitor, ms, events, i, c.prefix);
    TrackedShape(c.visitor, ms, events, i, c.prefix);
    LocalVariableBodiesStep(c.visitor, ms, events, i, c.prefix);
    assert MethodsTracked(c.visitor, next, events, i + 1, c.prefix) && BodiesTracked(next, events, i + 1, c.prefix);
    c.VisitLocalVariable(e.name, e.desc, e.signature, e.index);
    assert c.methods == next;
  }

  method FeedTypeInsn<V>(c: ClassChecker<V>, events: seq<ClassEvent<V>>, i: nat)
    requires WellFormed(events) && 1 <= i < |events| && Tracks(c, events, i)
    requires events[i].OnTypeInsn?
    modifies c
    ensures Tracks(c, events, i + 1)
  {
    var e := events[i];
    FlagStep(c.alreadyManipulated, events, c.imField, i);
    TypeInsnStep(c.inners, c.excluded, c.visitor, c.methods, events, i, c.prefix);
    MethodsKept(c.visitor, c.methods, events, i, c.prefix);
    BodiesKept(c.methods, events, i, c.prefix);
    c.VisitTypeInsn(e.opcode, e.typeName);
  }

  /** Hands the event at position i to the checker or to its method visitor. */
  method Feed<V>(c: ClassChecker<V>, events: seq<ClassEvent<V>>, i: nat)
    requires WellFormed(events) && 1 <= i < |events| && Tracks(c, events, i)
    modifies c
    ensures Tracks(c, events, i + 1)
  {
    match events[i]
    case OnVisit(_, _, _, _, _) => assert false;
    case OnField(_, _, _) => FeedField(c, events, i);
    case OnInnerClass(_, _, _, _) => FeedInnerClass(c, events, i);
    case OnMethod(_, _, _) => FeedMethod(c, events, i);
    case OnAnnotation(_, _, _) => FeedAnnotation(c, events, i);
    case OnParameterAnnotation(_, _, _, _) => FeedParameterAnnotation(c, events, i);
    case OnLocalVariable(_, _, _, _) => FeedLocalVariable(c, events, i);
    case OnTypeInsn(_, _) => FeedTypeInsn(c, events, i);
  }

  /** One pass of a fresh ClassChecker over a class file, then its getters. */
  method Analyze<V>(imField: string, prefix: string, events: seq<ClassEvent<V>>) returns (s: Summary<V>)
    requires WellFormed(events)
    ensures s.classVersion == events[0].version && s.className == Some(events[0].name)
    ensures s.superClass == if events[0].superName == OBJECT then None else Some(Dotted(events[0].superName))
    ensures s.interfaces == DeclaredInterfaces(events[0].interfaces)
    ensures s.alreadyManipulated <==> exists j :: 0 <= j < |events| && MarksManipulated(events, imField, j)
    ensures Heads(s.methods) == AdmittedHeads(events, |events|, prefix)
    ensures AllAnnotationsKept(s.methods)
    ensures forall k :: 0 <= k < |s.methods| ==>
              && s.methods[k].annotations == AnnotationsOf(events, |events|, prefix, k)
              && s.methods[k].parameterAnnotations == ParameterAnnotationsOf(events, |events|, prefix, k)
              && s.methods[k].locals == LocalsOf(events, |events|, prefix, k)
    ensures forall k :: k in s.innerClasses <==>
              LiveAt(events, k, |events|, prefix) &&
              forall e :: ExcludedBefore(events, e, |events|, prefix) ==> !(e <= k)
    ensures forall k :: k in s.innerClasses ==> s.innerClasses[k] == []
  {
    var c := new ClassChecker<V>(imField, prefix);
    var h := events[0];
    c.Visit(h.version, h.access, h.name, h.superName, h.interfaces);
    var i := 1;
    while i < |events|
      invariant 1 <= i <= |events| && Tracks(c, events, i)
      invariant c.imField == imField && c.prefix == prefix
    {
      Feed(c, events, i);
      i := i + 1;
    }
    var inners := c.GetInnerClassesAndMethods();
    s := Summary(c.classVersion, c.className, c.superClass, c.interfaces, c.methods, inners, c.alreadyManipulated);
  }
}
