# ClassChecker, modelled in Dafny

The iPOJO manipulator reads a compiled component class before rewriting it. The first pass is
`ClassChecker`, an ASM `ClassVisitor` with a few helper visitors. It finds out:

- whether the class was already manipulated, meaning it declares the InstanceManager field;
- its version, superclass and interfaces, leaving out `Pojo`;
- which of its methods and constructors must be manipulated, each with its visible annotations,
  parameter annotations and local variables;
- which inner classes it owns and must manipulate as well. Static member classes are excluded.
  So are anonymous classes created in a static method, and anything nested in an excluded class.
  An inner class instantiated in `<clinit>` is dropped.

The model has these modules:

- `Descriptors`: JVM field and method descriptors (section 4.3 of the Java Virtual Machine
  Specification), with a parser and an encoder proved to be inverse bijections.
  This is what `Type.getArgumentTypes` and `Type.getReturnType` are used for here.
- `Eligibility`: the static predicates that recognise the constructors and methods a previous
  manipulation generated, and their characterisation by the descriptor's text.
- `Annotations` and `AnnotationRoundTrip`: `AnnotationDescriptor`, `ArrayAttribute`,
  `SimpleAttribute` and `EnumAttribute` as one tree of datatypes.
  - Capture of an annotation from ASM's callbacks is a stack machine.
  - Replay onto a visitor is the sequence of calls it makes.
  - Replaying a captured annotation and capturing it again gives back the same tree.
- `AnnotationReplay`: the replay loops of the source, as methods proved to emit that sequence.
- `Checker`: `ClassChecker` as a Dafny class whose fields are the Java fields.
  - Each callback is a method whose contract states the whole new state.
  - The method visitor that `visitMethod` returns is a field, `visitor`, through which the
    method-level callbacks (`MethodInfoCollector`, `InnerClassAssignedToStaticFieldDetector`) act.
- `Analysis`: a whole pass over a class, as the sequence of callbacks ASM's class reader makes.
  - `Analyze` drives a fresh checker through it.
  - Its result is characterised event by event: which methods are recorded, in which order,
    and which inner classes survive.
- `Scenarios`: passes over the test classes `test/StaticInnerClass` and
  `test/StaticInnerClassWithOutsideFieldAccess`, and over a class whose static initialiser
  instantiates its inner class.

Java `int` access flags and opcodes are `bv32`, so the source's bit tests keep their meaning.
The annotation values (`Object`) are a type parameter `V`.

## Model

| member | source | states |
|---|---|---|
| Descriptors.ParseEncodeMethod | ipojo/manipulator/manipulator/src/main/java/org/apache/felix/ipojo/manipulation/ClassChecker.java:216-253 | Every well-formed method type is parsed back from its descriptor text. |
| Descriptors.EncodeParseMethod | ipojo/manipulator/manipulator/src/main/java/org/apache/felix/ipojo/manipulation/ClassChecker.java:216-253 | Every string that parses as a method descriptor is the encoding of the well-formed type it parses to. |
| Descriptors.FirstArgumentIffPrefix | ipojo/manipulator/manipulator/src/main/java/org/apache/felix/ipojo/manipulation/ClassChecker.java:216-220 | A descriptor's first argument type is the object type n exactly when the text starts with `(Ln;`. |
| Descriptors.NoArgumentsIffEmptyParens | ipojo/manipulator/manipulator/src/main/java/org/apache/felix/ipojo/manipulation/ClassChecker.java:230-244 | A descriptor has no argument types exactly when it starts with `()`. |
| Descriptors.VoidIffEndsWithV | ipojo/manipulator/manipulator/src/main/java/org/apache/felix/ipojo/manipulation/ClassChecker.java:230-244 | A descriptor returns void exactly when its last character is `V`. |
| Descriptors.ParseMethod | ipojo/manipulator/manipulator/src/main/java/org/apache/felix/ipojo/manipulation/ClassChecker.java:216-253 | The reading of a method descriptor that `Type.getArgumentTypes` and `Type.getReturnType` rely on: `(`, field descriptors, `)`, then `V` or one field descriptor, and nothing after. Anything else is rejected. Its properties are the two round-trip lemmas above. |
| Descriptors.ArgumentTypes | ipojo/manipulator/manipulator/src/main/java/org/apache/felix/ipojo/manipulation/ClassChecker.java:217-218 | `Type.getArgumentTypes`: the argument types are well formed, and their encodings, in order and between parentheses, begin the descriptor. |
| Descriptors.ReturnType | ipojo/manipulator/manipulator/src/main/java/org/apache/felix/ipojo/manipulation/ClassChecker.java:232-252 | `Type.getReturnType`: the return type is well formed, and the descriptor is the encoded arguments in parentheses followed by its encoding. |
| Eligibility.GeneratedConstructorIffPrefix | ipojo/manipulator/manipulator/src/main/java/org/apache/felix/ipojo/manipulation/ClassChecker.java:212-220 | isGeneratedConstructor holds exactly for `<init>` whose descriptor starts with an InstanceManager argument. |
| Eligibility.GetterIffDescriptorText | ipojo/manipulator/manipulator/src/main/java/org/apache/felix/ipojo/manipulation/ClassChecker.java:230-236 | isGetterMethod holds exactly when the name starts with `__get`, there are no arguments and the return is not void. |
| Eligibility.SetterIffDescriptorText | ipojo/manipulator/manipulator/src/main/java/org/apache/felix/ipojo/manipulation/ClassChecker.java:238-244 | isSetterMethod holds exactly when the name starts with `__set` and the descriptor is `(T)V` for one well-formed field type T. |
| Eligibility.GeneratedGetterRecognised | ipojo/manipulator/manipulator/src/main/java/org/apache/felix/ipojo/manipulation/ClassChecker.java:222-236 | Every `__get` method taking nothing and returning a field type is a generated method. |
| Eligibility.GeneratedSetterRecognised | ipojo/manipulator/manipulator/src/main/java/org/apache/felix/ipojo/manipulation/ClassChecker.java:222-244 | Every `__set` method taking one field type and returning void is a generated method. |
| Eligibility.GeneratedConstructorsRecognised | ipojo/manipulator/manipulator/src/main/java/org/apache/felix/ipojo/manipulation/ClassChecker.java:212-220 | A constructor of a well-formed type is generated exactly when its first parameter is InstanceManager. |
| Eligibility.GetterNeedsNoArgumentsAndAValue | ipojo/manipulator/manipulator/src/main/java/org/apache/felix/ipojo/manipulation/ClassChecker.java:230-236 | A `__get` name alone is not enough: `(I)I` and `()V` are not generated getters. |
| Eligibility.IsGeneratedConstructor | ipojo/manipulator/manipulator/src/main/java/org/apache/felix/ipojo/manipulation/ClassChecker.java:212-214 | A constructor is generated when it is `<init>` and its first argument is an InstanceManager. Read on the descriptor text by `GeneratedConstructorIffPrefix`. |
| Eligibility.IsFirstArgumentInstanceManager | ipojo/manipulator/manipulator/src/main/java/org/apache/felix/ipojo/manipulation/ClassChecker.java:216-220 | The descriptor has at least one argument and the first is `Lorg/apache/felix/ipojo/InstanceManager;`. Read on the text by `FirstArgumentIffPrefix`. |
| Eligibility.IsGeneratedMethod | ipojo/manipulator/manipulator/src/main/java/org/apache/felix/ipojo/manipulation/ClassChecker.java:222-228 | A method was generated when it is a getter, a setter, `_setInstanceManager`, `getComponentInstance` or a renamed method. `GeneratedGetterRecognised` and `GeneratedSetterRecognised` show the generated shapes are caught. |
| Eligibility.IsGetterMethod | ipojo/manipulator/manipulator/src/main/java/org/apache/felix/ipojo/manipulation/ClassChecker.java:230-236 | A `__get` name, no arguments, and a return that is not void. Read on the descriptor text by `GetterIffDescriptorText`. |
| Eligibility.IsSetterMethod | ipojo/manipulator/manipulator/src/main/java/org/apache/felix/ipojo/manipulation/ClassChecker.java:238-244 | A `__set` name, one argument, and a void return. Read on the descriptor text by `SetterIffDescriptorText`. |
| Eligibility.IsSetInstanceManagerMethod | ipojo/manipulator/manipulator/src/main/java/org/apache/felix/ipojo/manipulation/ClassChecker.java:246-248 | The name starts with `_setInstanceManager`, whatever the descriptor. |
| Eligibility.IsGetComponentInstanceMethod | ipojo/manipulator/manipulator/src/main/java/org/apache/felix/ipojo/manipulation/ClassChecker.java:250-253 | The name starts with `getComponentInstance` and the return type is ComponentInstance. |
| Eligibility.IsManipulatedMethod | ipojo/manipulator/manipulator/src/main/java/org/apache/felix/ipojo/manipulation/ClassChecker.java:255-257 | The name starts with the manipulation prefix, a parameter here. |
| Annotations.ReplayVariantsShareBody | ipojo/manipulator/manipulator/src/main/java/org/apache/felix/ipojo/manipulation/ClassChecker.java:530-596 | The three replay forms (method annotation, parameter annotation, nested) differ only in their opening call. |
| Annotations.Step | ipojo/manipulator/manipulator/src/main/java/org/apache/felix/ipojo/manipulation/ClassChecker.java:466-520 | One capture callback on the innermost open visitor: a simple value or an enum is added to it, `visitAnnotation` and `visitArray` open a child, and `visitEnd` attaches the finished child to its parent. Inside an array, values lose their names and children open unnamed, as in ArrayAttribute (lines 636-691). Calls after the root's `visitEnd` change nothing. |
| Annotations.Run | ipojo/manipulator/manipulator/src/main/java/org/apache/felix/ipojo/manipulation/ClassChecker.java:438-520 | The capture callbacks applied in order. `RunAppend` shows a concatenation is captured part by part. |
| Annotations.Finish | ipojo/manipulator/manipulator/src/main/java/org/apache/felix/ipojo/manipulation/ClassChecker.java:479-507 | The captured root once the calls are over. Frames still open are closed and attached. `CapturedIsShaped` states what a capture can produce. |
| Annotations.CaptureAnnotation | ipojo/manipulator/manipulator/src/main/java/org/apache/felix/ipojo/manipulation/ClassChecker.java:336-343 | The AnnotationDescriptor that MethodInfoCollector returns for `visitAnnotation` or `visitParameterAnnotation`, after ASM has made the given calls on it. `CaptureAfterReplay` and `ReplayIsFaithful` are its round trip. |
| Annotations.ReplayMethodAnnotation | ipojo/manipulator/manipulator/src/main/java/org/apache/felix/ipojo/manipulation/ClassChecker.java:530-545 | The calls `visitAnnotation(MethodVisitor)` makes: the opening call with name and visibility, the simple, enum, nested and array values in that order, then `visitEnd`. |
| Annotations.ReplayParameterAnnotation | ipojo/manipulator/manipulator/src/main/java/org/apache/felix/ipojo/manipulation/ClassChecker.java:556-571 | The same values, opened by `visitParameterAnnotation` with the parameter index. |
| Annotations.ReplayNested | ipojo/manipulator/manipulator/src/main/java/org/apache/felix/ipojo/manipulation/ClassChecker.java:581-596 | The same values, opened by `visitAnnotation` with the nested name and descriptor. |
| Annotations.ReplayArray | ipojo/manipulator/manipulator/src/main/java/org/apache/felix/ipojo/manipulation/ClassChecker.java:701-715 | `visitArray` with the array name, the elements in order, then `visitEnd`. |
| Annotations.ReplayElement | ipojo/manipulator/manipulator/src/main/java/org/apache/felix/ipojo/manipulation/ClassChecker.java:703-712 | One array element: a nested annotation, an enum, a nested array, or a simple value with no name. |
| AnnotationRoundTrip.RunAppend | ipojo/manipulator/manipulator/src/main/java/org/apache/felix/ipojo/manipulation/ClassChecker.java:438-520 | Capturing a concatenation of calls is capturing the first part, then the second. |
| AnnotationRoundTrip.BodyRoundTrip | ipojo/manipulator/manipulator/src/main/java/org/apache/felix/ipojo/manipulation/ClassChecker.java:466-545 | Replaying an annotation's values into an open frame adds exactly those values to it. |
| AnnotationRoundTrip.ArrayRoundTrip | ipojo/manipulator/manipulator/src/main/java/org/apache/felix/ipojo/manipulation/ClassChecker.java:623-715 | Replaying an array attribute into an open frame attaches exactly that array. |
| AnnotationRoundTrip.CaptureAfterReplay | ipojo/manipulator/manipulator/src/main/java/org/apache/felix/ipojo/manipulation/ClassChecker.java:438-545 | Capturing the calls that visitAnnotation(mv) replays gives back the annotation replayed. |
| AnnotationRoundTrip.CapturedIsShaped | ipojo/manipulator/manipulator/src/main/java/org/apache/felix/ipojo/manipulation/ClassChecker.java:438-520 | Every capture is a named, undescribed root with the given visibility, and every nested value is the well-shaped kind ASM produces. |
| AnnotationRoundTrip.ReplayIsFaithful | ipojo/manipulator/manipulator/src/main/java/org/apache/felix/ipojo/manipulation/ClassChecker.java:336-343 | Whatever ASM calls on a captured annotation, replaying it and capturing again yields the same annotation. |
| AnnotationReplay.EmitMethodAnnotation | ipojo/manipulator/manipulator/src/main/java/org/apache/felix/ipojo/manipulation/ClassChecker.java:530-545 | The loops emit exactly the opening call, the values and the end call of `ReplayMethodAnnotation`. Capturing that trace gives back the annotation (see `CaptureAfterReplay`). |
| AnnotationReplay.EmitParameterAnnotation | ipojo/manipulator/manipulator/src/main/java/org/apache/felix/ipojo/manipulation/ClassChecker.java:556-571 | The same values as the method replay, opened with `visitParameterAnnotation` for the given parameter (`ReplayParameterAnnotation`). |
| AnnotationReplay.EmitNested | ipojo/manipulator/manipulator/src/main/java/org/apache/felix/ipojo/manipulation/ClassChecker.java:581-596 | A nested annotation is replayed with its name and descriptor, then its values, then an end call (`ReplayNested`). |
| AnnotationReplay.EmitBody | ipojo/manipulator/manipulator/src/main/java/org/apache/felix/ipojo/manipulation/ClassChecker.java:530-596 | The four loops together emit the simple, enum, nested and array values, group after group. |
| AnnotationReplay.EmitSimples | ipojo/manipulator/manipulator/src/main/java/org/apache/felix/ipojo/manipulation/ClassChecker.java:532-534 | The loop over simple values emits one value call per attribute, in capture order. |
| AnnotationReplay.EmitEnums | ipojo/manipulator/manipulator/src/main/java/org/apache/felix/ipojo/manipulation/ClassChecker.java:535-537 | The loop over enum values emits one enum call per attribute, in capture order. |
| AnnotationReplay.EmitNestedList | ipojo/manipulator/manipulator/src/main/java/org/apache/felix/ipojo/manipulation/ClassChecker.java:538-540 | The loop over nested annotations emits the full replay of each, in capture order. |
| AnnotationReplay.EmitArrays | ipojo/manipulator/manipulator/src/main/java/org/apache/felix/ipojo/manipulation/ClassChecker.java:541-543 | The loop over array attributes emits the full replay of each, in capture order. |
| AnnotationReplay.EmitArray | ipojo/manipulator/manipulator/src/main/java/org/apache/felix/ipojo/manipulation/ClassChecker.java:701-715 | The replay loop of an array attribute emits its elements in order, between the open and end calls. |
| AnnotationReplay.EmitElement | ipojo/manipulator/manipulator/src/main/java/org/apache/felix/ipojo/manipulation/ClassChecker.java:701-715 | One array element is replayed as a value, an enum, a nested annotation or a nested array. |
| Checker.Dotted | ipojo/manipulator/manipulator/src/main/java/org/apache/felix/ipojo/manipulation/ClassChecker.java:160-167 | `replace('/', '.')` keeps the length, turns every `/` into `.`, keeps every other character, and leaves no `/`. |
| Checker.DeclaredInterfacesAppend | ipojo/manipulator/manipulator/src/main/java/org/apache/felix/ipojo/manipulation/ClassChecker.java:163-167 | The interface list is recorded element by element, so concatenated inputs give concatenated records. |
| Checker.DeclaredInterfacesStep | ipojo/manipulator/manipulator/src/main/java/org/apache/felix/ipojo/manipulation/ClassChecker.java:163-167 | One more declared interface adds its dotted name to the record, or nothing for Pojo. |
| Checker.DeclaredInterfacesMembers | ipojo/manipulator/manipulator/src/main/java/org/apache/felix/ipojo/manipulation/ClassChecker.java:163-167 | A name is recorded exactly when it is the dotted form of a declared interface other than Pojo, and Pojo is never recorded. |
| Checker.NoDottedMarker | ipojo/manipulator/manipulator/src/main/java/org/apache/felix/ipojo/manipulation/ClassChecker.java:163-167 | No recorded interface is the dotted name of Pojo either. |
| Checker.DeclaredInterfaces | ipojo/manipulator/manipulator/src/main/java/org/apache/felix/ipojo/manipulation/ClassChecker.java:163-167 | The interfaces `visit` records: every declared interface other than Pojo, dotted, in declaration order. `DeclaredInterfacesMembers` states it as a membership equivalence. |
| Checker.AdmittedConstructor | ipojo/manipulator/manipulator/src/main/java/org/apache/felix/ipojo/manipulation/ClassChecker.java:187-194 | A constructor is recorded, as `$init`, exactly when its descriptor does not start with an InstanceManager argument. |
| Checker.Admitted | ipojo/manipulator/manipulator/src/main/java/org/apache/felix/ipojo/manipulation/ClassChecker.java:184-210 | The descriptor that `visitMethod` appends. `<clinit>` is never recorded. A recorded method keeps its descriptor and static flag, and constructors are named `$init`. A new descriptor has no annotations, parameter annotations or locals. |
| Checker.FilterInners | ipojo/manipulator/manipulator/src/main/java/org/apache/felix/ipojo/manipulation/ClassChecker.java:281-293 | An owned inner class survives exactly when no excluded name is a prefix of its name, and keeps its value. |
| Checker.ExcludedNamesAbsent | ipojo/manipulator/manipulator/src/main/java/org/apache/felix/ipojo/manipulation/ClassChecker.java:287-293 | An excluded name never survives the filter. |
| Checker.FilterAntitone | ipojo/manipulator/manipulator/src/main/java/org/apache/felix/ipojo/manipulation/ClassChecker.java:281-293 | Excluding more names never brings back an inner class. |
| Checker.BitwiseNewTestOnTypeInstructions | ipojo/manipulator/manipulator/src/main/java/org/apache/felix/ipojo/manipulation/ClassChecker.java:375-377 | For the four opcodes that carry a type, `(opcode & NEW) == NEW` holds exactly for NEW. |
| Checker.BitwiseNewTestIsNotEquality | ipojo/manipulator/manipulator/src/main/java/org/apache/felix/ipojo/manipulation/ClassChecker.java:375-377 | The bitwise test is weaker than equality with NEW: ATHROW (0xBF) passes it without being NEW. |
| Checker.ClassChecker.constructor | ipojo/manipulator/manipulator/src/main/java/org/apache/felix/ipojo/manipulation/ClassChecker.java:36-77 | A new checker has empty lists and maps, no class name and an unset flag. |
| Checker.ClassChecker.Visit | ipojo/manipulator/manipulator/src/main/java/org/apache/felix/ipojo/manipulation/ClassChecker.java:154-170 | Records the version and class name, the dotted superclass unless it is Object, and the interfaces in order with Pojo dropped; nothing else changes. |
| Checker.ClassChecker.RecordInterfaces | ipojo/manipulator/manipulator/src/main/java/org/apache/felix/ipojo/manipulation/ClassChecker.java:163-167 | The loop over the declared interfaces appends exactly their record, Pojo dropped, and changes no other field. |
| Checker.ClassChecker.VisitField | ipojo/manipulator/manipulator/src/main/java/org/apache/felix/ipojo/manipulation/ClassChecker.java:91-101 | The flag becomes set when the field is the InstanceManager field and is never cleared; exactly one registration is logged. |
| Checker.ClassChecker.VisitInnerClass | ipojo/manipulator/manipulator/src/main/java/org/apache/felix/ipojo/manipulation/ClassChecker.java:113-122 | An owned inner class is registered with an empty method list when not static and excluded when static; a foreign one changes nothing. |
| Checker.ClassChecker.VisitMethod | ipojo/manipulator/manipulator/src/main/java/org/apache/felix/ipojo/manipulation/ClassChecker.java:184-210 | Appends the descriptor of an eligible method and selects the body visitor: the collector for it, the detector for `<clinit>`, none otherwise. |
| Checker.ClassChecker.VisitAnnotation | ipojo/manipulator/manipulator/src/main/java/org/apache/felix/ipojo/manipulation/ClassChecker.java:336-343 | A visible method annotation is captured onto the current method only; an invisible one changes nothing. |
| Checker.ClassChecker.VisitParameterAnnotation | ipojo/manipulator/manipulator/src/main/java/org/apache/felix/ipojo/manipulation/ClassChecker.java:353-372 | A visible parameter annotation is captured as visible; an invisible one is kept, as invisible, only on a method recorded as `$init` (every admitted constructor is, and so is a method declared with that name). |
| Checker.ClassChecker.VisitLocalVariable | ipojo/manipulator/manipulator/src/main/java/org/apache/felix/ipojo/manipulation/ClassChecker.java:345-347 | Local variables are appended to the current method in visit order. |
| Checker.ClassChecker.VisitTypeInsn | ipojo/manipulator/manipulator/src/main/java/org/apache/felix/ipojo/manipulation/ClassChecker.java:375-383 | In a recorded static method, a NEW-like instruction on a registered inner class excludes it; in `<clinit>`, NEW on a registered inner class removes it; nothing else changes. |
| Checker.ClassChecker.GetInnerClassesAndMethods | ipojo/manipulator/manipulator/src/main/java/org/apache/felix/ipojo/manipulation/ClassChecker.java:281-293 | The result is the registered inner classes, minus every excluded name and every name that starts with one, each with its value unchanged. |
| Analysis.LastMethod | ipojo/manipulator/manipulator/src/main/java/org/apache/felix/ipojo/manipulation/ClassChecker.java:184-210 | Finds the method whose visitor receives an event: the last method event before it. |
| Analysis.VisitorAt | ipojo/manipulator/manipulator/src/main/java/org/apache/felix/ipojo/manipulation/ClassChecker.java:184-210 | The method visitor that receives an event. It is the collector when the last method event was recorded, the static-field detector when it was `<clinit>`, and none otherwise. `TrackedShape` ties it to the checker's `visitor` field. |
| Analysis.AdmittedHeadsStep | ipojo/manipulator/manipulator/src/main/java/org/apache/felix/ipojo/manipulation/ClassChecker.java:184-210 | One event extends the recorded methods by one descriptor exactly when it is an eligible method, and keeps what was recorded. |
| Analysis.AdmittedHeadsSound | ipojo/manipulator/manipulator/src/main/java/org/apache/felix/ipojo/manipulation/ClassChecker.java:184-210 | Every recorded descriptor comes from an eligible method event, with its name (`$init` for constructors), descriptor and static flag. |
| Analysis.AdmittedHeadsComplete | ipojo/manipulator/manipulator/src/main/java/org/apache/felix/ipojo/manipulation/ClassChecker.java:184-210 | Every eligible method event is recorded, after as many descriptors as there were eligible events before it. |
| Analysis.LiveStep | ipojo/manipulator/manipulator/src/main/java/org/apache/felix/ipojo/manipulation/ClassChecker.java:113-122 | An inner class is registered after an event exactly when that event registers it, or it was registered and the event is not NEW of it in `<clinit>`. |
| Analysis.AnnotationStep | ipojo/manipulator/manipulator/src/main/java/org/apache/felix/ipojo/manipulation/ClassChecker.java:336-343 | A visible method annotation received by the collector adds its capture to the last recorded method and keeps the tracked method list; otherwise the list is unchanged. |
| Analysis.ParameterAnnotationStep | ipojo/manipulator/manipulator/src/main/java/org/apache/felix/ipojo/manipulation/ClassChecker.java:353-372 | A parameter annotation received by the collector is added to the last recorded method when visible or when that method is recorded as `$init` (every admitted constructor is, and so is a method declared with that name); otherwise the list is unchanged. |
| Analysis.LocalVariableStep | ipojo/manipulator/manipulator/src/main/java/org/apache/felix/ipojo/manipulation/ClassChecker.java:345-347 | A local variable received by the collector is added to the last recorded method and keeps the tracked method list; otherwise the list is unchanged. |
| Analysis.BodiesEmptyBeyond | ipojo/manipulator/manipulator/src/main/java/org/apache/felix/ipojo/manipulation/ClassChecker.java:184-210 | Nothing is delivered to a method before its method event: it starts with no annotations, parameter annotations or locals. |
| Analysis.MethodBodiesStep | ipojo/manipulator/manipulator/src/main/java/org/apache/felix/ipojo/manipulation/ClassChecker.java:190-199 | A method event appends a descriptor with an empty body and changes no earlier body. |
| Analysis.LastBodyStep | ipojo/manipulator/manipulator/src/main/java/org/apache/felix/ipojo/manipulation/ClassChecker.java:329-383 | Only the method whose collector is active can receive a body event. Every earlier method keeps its body. |
| Analysis.AnnotationBodiesStep | ipojo/manipulator/manipulator/src/main/java/org/apache/felix/ipojo/manipulation/ClassChecker.java:336-343 | The body of each method after a method-annotation event is its delivered annotations, parameter annotations and locals (`BodiesTracked`). |
| Analysis.ParameterAnnotationBodiesStep | ipojo/manipulator/manipulator/src/main/java/org/apache/felix/ipojo/manipulation/ClassChecker.java:353-372 | The same after a parameter-annotation event. An invisible one on a method not recorded as `$init` (the name of every admitted constructor, and of a method declared with that name) is delivered to no method. |
| Analysis.LocalVariableBodiesStep | ipojo/manipulator/manipulator/src/main/java/org/apache/felix/ipojo/manipulation/ClassChecker.java:345-347 | The same after a local-variable event. |
| Analysis.Analyze | ipojo/manipulator/manipulator/src/main/java/org/apache/felix/ipojo/manipulation/ClassChecker.java:91-383 | After a pass, the summary holds the header and the flag, which is set exactly when some field is the InstanceManager field. It holds the eligible methods in order. Each method holds exactly the visible annotations, the parameter annotations (visible ones, and invisible ones on a method recorded as `$init` (every admitted constructor is, and so is a method declared with that name)) and the local variables that its collector received, in visit order (`AnnotationsOf`, `ParameterAnnotationsOf`, `LocalsOf`). It also holds exactly the inner classes that are still registered and not prefixed by any excluded name. |
| Scenarios.NoArgumentsIsDescriptor | ipojo/manipulator/manipulator/src/test/java/test/StaticInnerClass.java:23-50 | `()V`, the descriptor of the default constructor, is a valid method descriptor. |
| Scenarios.FunctionFactoryIsDescriptor | ipojo/manipulator/manipulator/src/test/java/test/StaticInnerClass.java:25-41 | `()Ljava/util/function/Function;`, the descriptor of both factory methods, is a valid method descriptor. |
| Scenarios.StringToIntIsDescriptor | ipojo/manipulator/manipulator/src/test/java/test/StaticInnerClass.java:43-49 | `(Ljava/lang/String;)I`, the descriptor of testStatic and testNonStatic, is a valid method descriptor. |
| Scenarios.OrdinaryMethodRecorded | ipojo/manipulator/manipulator/src/main/java/org/apache/felix/ipojo/manipulation/ClassChecker.java:184-210 | A method whose name does not begin like a generated or special name is recorded under its own name with its descriptor. |
| Scenarios.FeedStaticInnerClass | ipojo/manipulator/manipulator/src/test/java/test/StaticInnerClass.java:23-50 | The callbacks for StaticInnerClass register both anonymous classes and exclude only the one created in the static method. |
| Scenarios.StaticInnerClassPass | ipojo/manipulator/manipulator/src/test/java/org/apache/felix/ipojo/manipulation/ManipulatorTest.java:227-259 | For StaticInnerClass, only the anonymous class created in the instance method is left to manipulate. |
| Scenarios.OutsideFieldAccessPass | ipojo/manipulator/manipulator/src/test/java/test/StaticInnerClassWithOutsideFieldAccess.java:21-39 | The static member class Factory is not manipulated, so no inner class is left. |
| Scenarios.StaticInitialiserPass | ipojo/manipulator/manipulator/src/main/java/org/apache/felix/ipojo/manipulation/ClassChecker.java:813-824 | An inner class instantiated in `<clinit>` is dropped, and an inner class of another class is never registered. |

## Left out

- ASM's ClassReader, the visitor base classes and `Label`: a pass is the sequence of callbacks (`ClassEvent`) the reader makes. Callback parameters the source ignores are not modelled. These are the signatures of classes, methods and fields, a field's constant value, exceptions and labels. `innerName` is carried by `OnInnerClass` and `VisitInnerClass` and ignored, as in the source.
- ASM's `Type`: reduced to the descriptor grammar. Callers must give every method other than `<clinit>` a valid descriptor (`IsMethodDescriptor`). The source never checks one and trusts ASM to supply it.
- Analysis.Analyze: requires the header callback to come first and only once (`WellFormed`), as ClassReader guarantees. The source's fields before `visit` (a null class name) are not modelled.
- Checker.ClassChecker.VisitInnerClass: requires the class name to be known. In the source, a call before `visit` dereferences the still missing class name and fails.
- A null superclass (`java/lang/Object` and module-info classes have one) is not modelled; the superclass name is a string.
- ClassManipulator.IM_FIELD and ClassManipulator.PREFIX are not part of this model. They are the constructor parameters `imField` and `prefix`.
- GlobalManipulationFieldsRegistry is not part of this model. Its `registerField` calls are recorded in a ghost log, with the descriptor string standing for the `Type`. Its concurrency is not modelled.
- MethodDescriptor is not part of this model beyond the fields ClassChecker fills. `MethodInfoCollector.visitEnd` calls `MethodDescriptor.end()`, which is left out.
- Annotation capture is modelled on values. A child annotation or array is attached to its parent when it ends, whereas Java appends the child object when it is opened and fills it in place. The two agree for every properly nested call sequence, which ASM produces. A capture whose calls stop early closes its open frames.
- Aliasing of the AnnotationDescriptor objects shared between the method descriptor and the visitor that fills them is not modelled.
- The trivial getters (`getInterfaces`, `getMethods`, `getSuperClass`, `getClassName`, `getClassVersion`, `isAlreadyManipulated`) are the fields of `Summary` and of the class.
- The scenario passes take the method descriptors of the test classes as parameters, since only their validity matters. They do not model the manipulation, class loading or reflection that ManipulatorTest performs afterwards.
- PreparedManipulationUnit, ManipulationEngineTestCase and ConstructorUtils are not part of this model. They are context outside the checker.
