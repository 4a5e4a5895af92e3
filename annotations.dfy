/**
 * The annotation capture/replay tree of ClassChecker: AnnotationDescriptor,
 * ArrayAttribute, SimpleAttribute and EnumAttribute.
 *
 * Capture: ASM hands a descriptor a stream of AnnotationVisitor calls; each
 * call appends to one of the descriptor's lists, and a call that opens a
 * nested annotation or an array returns a new visitor that receives the
 * calls up to its own visitEnd.  Here that stream is a sequence of `Call`s
 * and capture is a stack machine (`Step`) whose stack holds the visitors
 * that are still open.
 *
 * Replay: the descriptor re-issues the calls on a sink.  Here a sink is the
 * trace of calls it receives, so replay is a function producing a trace.
 *
 * The value of a simple attribute (a boxed primitive, String or Type in
 * Java) is the opaque type parameter V.
 */
module Annotations {
  import opened Wrappers

  /** SimpleAttribute. */
  datatype SimpleAttribute<V> = SimpleAttribute(name: Option<string>, value: V)

  /** EnumAttribute: attribute name, enumeration descriptor, constant name. */
  datatype EnumAttribute = EnumAttribute(name: Option<string>, desc: string, value: string)

  /** AnnotationDescriptor: its name, visibility and nested-annotation
      descriptor, and its attributes kept in four lists by kind. */
  datatype Annotation<V> = Annotation(
    name: Option<string>,
    visible: bool,
    desc: Option<string>,
    simples: seq<SimpleAttribute<V>>,
    enums: seq<EnumAttribute>,
    nested: seq<Annotation<V>>,
    arrays: seq<ArrayAttribute<V>>)

  /** ArrayAttribute: its name and its elements in arrival order. */
  datatype ArrayAttribute<V> = ArrayAttribute(name: Option<string>, content: seq<Element<V>>)

  /** One element of ArrayAttribute.m_content. */
  datatype Element<V> =
    | ElementValue(value: V)
    | ElementEnum(enumValue: EnumAttribute)
    | ElementAnnotation(annotation: Annotation<V>)
    | ElementArray(arrayValue: ArrayAttribute<V>)

  /** The calls a sink receives: those of MethodVisitor that open an
      annotation, and those of AnnotationVisitor. */
  datatype Call<V> =
    | OpenAnnotation(annotationDesc: Option<string>, isVisible: bool)                  // MethodVisitor.visitAnnotation
    | OpenParameterAnnotation(parameter: int, annotationDesc: Option<string>, isVisible: bool) // MethodVisitor.visitParameterAnnotation
    | OpenNested(attributeName: Option<string>, nestedDesc: Option<string>)           // AnnotationVisitor.visitAnnotation
    | Value(attributeName: Option<string>, attributeValue: V)                          // AnnotationVisitor.visit
    | EnumValue(attributeName: Option<string>, enumDesc: string, constant: string)     // AnnotationVisitor.visitEnum
    | OpenArray(attributeName: Option<string>)                                         // AnnotationVisitor.visitArray
    | End                                                                              // AnnotationVisitor.visitEnd

  /** A fresh root descriptor, as `new AnnotationDescriptor(name, visible)` makes it. */
  function Root<V>(desc: string, visible: bool): Annotation<V> {
    Annotation(Some(desc), visible, None, [], [], [], [])
  }

  // ================================================================ replay

  function ReplaySimples<V>(ss: seq<SimpleAttribute<V>>): seq<Call<V>> {
    if ss == [] then [] else [Value(ss[0].name, ss[0].value)] + ReplaySimples(ss[1..])
  }

  function ReplayEnums<V>(es: seq<EnumAttribute>): seq<Call<V>> {
    if es == [] then [] else [EnumValue(es[0].name, es[0].desc, es[0].value)] + ReplayEnums(es[1..])
  }

  /** Simples, then enums, then nested annotations, then arrays, each group
      in capture order. */
  function ReplayBody<V>(a: Annotation<V>): seq<Call<V>>
    decreases a, 0
  {
    ReplaySimples(a.simples) + ReplayEnums(a.enums) + ReplayNestedList(a.nested) + ReplayArrays(a.arrays)
  }

  /** AnnotationDescriptor.visitAnnotation(MethodVisitor). */
  function ReplayMethodAnnotation<V>(a: Annotation<V>): seq<Call<V>> {
    [OpenAnnotation(a.name, a.visible)] + ReplayBody(a) + [End]
  }

  /** AnnotationDescriptor.visitParameterAnnotation(int, MethodVisitor). */
  function ReplayParameterAnnotation<V>(id: int, a: Annotation<V>): seq<Call<V>> {
    [OpenParameterAnnotation(id, a.name, a.visible)] + ReplayBody(a) + [End]
  }

  /** AnnotationDescriptor.visit(AnnotationVisitor), for nested annotations. */
  function ReplayNested<V>(a: Annotation<V>): seq<Call<V>>
    decreases a, 1
  {
    [OpenNested(a.name, a.desc)] + ReplayBody(a) + [End]
  }

  function ReplayNestedList<V>(ns: seq<Annotation<V>>): seq<Call<V>> {
    if ns == [] then [] else ReplayNested(ns[0]) + ReplayNestedList(ns[1..])
  }

  /** ArrayAttribute.visit(AnnotationVisitor). */
  function ReplayArray<V>(r: ArrayAttribute<V>): seq<Call<V>> {
    [OpenArray(r.name)] + ReplayElements(r.content) + [End]
  }

  function ReplayArrays<V>(rs: seq<ArrayAttribute<V>>): seq<Call<V>> {
    if rs == [] then [] else ReplayArray(rs[0]) + ReplayArrays(rs[1..])
  }

  function ReplayElements<V>(es: seq<Element<V>>): seq<Call<V>> {
    if es == [] then [] else ReplayElement(es[0]) + ReplayElements(es[1..])
  }

  /** One element of the loop in ArrayAttribute.visit: a plain value is
      re-issued with a null name. */
  function ReplayElement<V>(e: Element<V>): seq<Call<V>> {
    match e
    case ElementValue(v) => [Value(None, v)]
    case ElementEnum(en) => [EnumValue(en.name, en.desc, en.value)]
    case ElementAnnotation(n) => ReplayNested(n)
    case ElementArray(r) => ReplayArray(r)
  }

  /** The three replays of a descriptor differ only in the call that opens it. */
  lemma ReplayVariantsShareBody<V>(id: int, a: Annotation<V>)
    ensures ReplayMethodAnnotation(a)[1..] == ReplayParameterAnnotation(id, a)[1..] == ReplayNested(a)[1..]
                                          == ReplayBody(a) + [End]
    ensures ReplayMethodAnnotation(a)[0] == OpenAnnotation(a.name, a.visible)
    ensures ReplayParameterAnnotation(id, a)[0] == OpenParameterAnnotation(id, a.name, a.visible)
    ensures ReplayNested(a)[0] == OpenNested(a.name, a.desc)
  {
  }

  // =============================================================== capture

  /** A visitor still receiving calls: a descriptor or an array attribute. */
  datatype Frame<V> = InAnnotation(annotation: Annotation<V>) | InArray(attribute: ArrayAttribute<V>)

  /** Capture state: the open visitors (the root first), or the finished root. */
  datatype Capture<V> = Capturing(open: seq<Frame<V>>) | Done(root: Annotation<V>)

  /** The state in which a root descriptor starts receiving calls. */
  function Start<V>(root: Annotation<V>): Capture<V> {
    Capturing([InAnnotation(root)])
  }

  /** Frame `f` after `child` has ended inside it: AnnotationDescriptor.m_nested
      and m_arrays, or ArrayAttribute.m_content, gain the child. */
  function Attach<V>(f: Frame<V>, child: Frame<V>): Frame<V> {
    match f
    case InAnnotation(a) =>
      (match child
       case InAnnotation(n) => InAnnotation(a.(nested := a.nested + [n]))
       case InArray(r) => InAnnotation(a.(arrays := a.arrays + [r])))
    case InArray(r) =>
      (match child
       case InAnnotation(n) => InArray(r.(content := r.content + [ElementAnnotation(n)]))
       case InArray(r') => InArray(r.(content := r.content + [ElementArray(r')])))
  }

  /** One AnnotationVisitor call delivered to the innermost open visitor.
      Calls after the root's visitEnd reach no visitor and change nothing;
      MethodVisitor calls are not AnnotationVisitor calls and are ignored. */
  function Step<V>(c: Capture<V>, call: Call<V>): Capture<V> {
    match c
    case Done(_) => c
    case Capturing(open) =>
      if |open| == 0 then c
      else
        var below := open[..|open| - 1];
        var top := open[|open| - 1];
        match call
        case Value(n, v) =>
          (match top
           case InAnnotation(a) =>           // AnnotationDescriptor.visit
             Capturing(below + [InAnnotation(a.(simples := a.simples + [SimpleAttribute(n, v)]))])
           case InArray(r) =>                // ArrayAttribute.visit
             Capturing(below + [InArray(r.(content := r.content + [ElementValue(v)]))]))
        case EnumValue(n, d, k) =>
          (match top
           case InAnnotation(a) =>           // AnnotationDescriptor.visitEnum
             Capturing(below + [InAnnotation(a.(enums := a.enums + [EnumAttribute(n, d, k)]))])
           case InArray(r) =>                // ArrayAttribute.visitEnum
             Capturing(below + [InArray(r.(content := r.content + [ElementEnum(EnumAttribute(None, d, k))]))]))
        case OpenNested(n, d) =>             // new AnnotationDescriptor(name or null, desc)
          var name := if top.InAnnotation? then n else None;
          Capturing(open + [InAnnotation(Annotation(name, true, d, [], [], [], []))])
        case OpenArray(n) =>                 // new ArrayAttribute(name or null)
          var name := if top.InAnnotation? then n else None;
          Capturing(open + [InArray(ArrayAttribute(name, []))])
        case End =>
          if |open| == 1 then
            (if top.InAnnotation? then Done(top.annotation) else c)
          else
            Capturing(open[..|open| - 2] + [Attach(open[|open| - 2], top)])
        case OpenAnnotation(_, _) => c
        case OpenParameterAnnotation(_, _, _) => c
  }

  /** A stream of calls delivered one after the other. */
  function Run<V>(c: Capture<V>, calls: seq<Call<V>>): Capture<V>
    decreases |calls|
  {
    if calls == [] then c else Run(Step(c, calls[0]), calls[1..])
  }

  /** The captured root once the stream is over; a visitor that never
      received its visitEnd keeps what it had received (Java appends each
      child when it is opened). */
  function Finish<V>(c: Capture<V>): Annotation<V>
    decreases if c.Capturing? then |c.open| else 0
  {
    match c
    case Done(a) => a
    case Capturing(open) =>
      if |open| == 0 then Annotation(None, false, None, [], [], [], [])
      else if |open| == 1 then
        (match open[0]
         case InAnnotation(a) => a
         case InArray(_) => Annotation(None, false, None, [], [], [], []))
      else Finish(Step(c, End))
  }

  /** The descriptor that a root annotation `desc` captures from `calls`. */
  function CaptureAnnotation<V>(desc: string, visible: bool, calls: seq<Call<V>>): Annotation<V> {
    Finish(Run(Start(Root(desc, visible)), calls))
  }

  // ========================================== what capture can produce

  /** A nested descriptor: always visible; unnamed inside an array. */
  predicate NestedShaped<V>(a: Annotation<V>, inArray: bool)
    decreases a, 1
  {
    && a.visible
    && (inArray ==> a.name.None?)
    && BodyShaped(a)
  }

  predicate BodyShaped<V>(a: Annotation<V>)
    decreases a, 0
  {
    && (forall i :: 0 <= i < |a.nested| ==> NestedShaped(a.nested[i], false))
    && (forall i :: 0 <= i < |a.arrays| ==> ArrayShaped(a.arrays[i], false))
  }

  /** An array attribute: unnamed inside an array; its elements unnamed. */
  predicate ArrayShaped<V>(r: ArrayAttribute<V>, inArray: bool) {
    && (inArray ==> r.name.None?)
    && (forall i :: 0 <= i < |r.content| ==> ElementShaped(r.content[i]))
  }

  predicate ElementShaped<V>(e: Element<V>) {
    match e
    case ElementValue(_) => true
    case ElementEnum(en) => en.name.None?
    case ElementAnnotation(n) => NestedShaped(n, true)
    case ElementArray(r) => ArrayShaped(r, true)
  }

  /** A root descriptor: named by its annotation type, no nested descriptor. */
  predicate RootShaped<V>(a: Annotation<V>) {
    a.name.Some? && a.desc.None? && BodyShaped(a)
  }
}

/** Capture after replay: a descriptor replayed onto a fresh descriptor is
    reproduced exactly, and everything capture produces can be replayed. */
module AnnotationRoundTrip {
  import opened Wrappers
  import opened Annotations

  lemma RunCons<V>(c: Capture<V>, call: Call<V>, rest: seq<Call<V>>)
    ensures Run(c, [call] + rest) == Run(Step(c, call), rest)
  {
    assert ([call] + rest)[1..] == rest;
  }

  lemma {:induction false} RunAppend<V>(c: Capture<V>, xs: seq<Call<V>>, ys: seq<Call<V>>)
    ensures Run(c, xs + ys) == Run(Run(c, xs), ys)
    decreases |xs|
  {
    if xs == [] {
      assert xs + ys == ys;
    } else {
      assert xs + ys == [xs[0]] + (xs[1..] + ys);
      RunCons(c, xs[0], xs[1..] + ys);
      RunAppend(Step(c, xs[0]), xs[1..], ys);
      assert xs == [xs[0]] + xs[1..];
      RunCons(c, xs[0], xs[1..]);
    }
  }

  /** The annotation `acc` after its captured lists have been extended by those of `a`. */
  function Extended<V>(acc: Annotation<V>, a: Annotation<V>): Annotation<V> {
    acc.(simples := acc.simples + a.simples, enums := acc.enums + a.enums,
         nested := acc.nested + a.nested, arrays := acc.arrays + a.arrays)
  }

  lemma {:induction false} SimplesRoundTrip<V>(open: seq<Frame<V>>, acc: Annotation<V>, ss: seq<SimpleAttribute<V>>)
    ensures Run(Capturing(open + [InAnnotation(acc)]), ReplaySimples(ss))
         == Capturing(open + [InAnnotation(acc.(simples := acc.simples + ss))])
    decreases ss
  {
    if ss == [] {
      assert acc.simples + ss == acc.simples;
    } else {
      var c := Capturing(open + [InAnnotation(acc)]);
      var acc' := acc.(simples := acc.simples + [ss[0]]);
      RunCons(c, Value(ss[0].name, ss[0].value), ReplaySimples(ss[1..]));
      assert (open + [InAnnotation(acc)])[..|open|] == open;
      assert Step(c, Value(ss[0].name, ss[0].value)) == Capturing(open + [InAnnotation(acc')]);
      SimplesRoundTrip(open, acc', ss[1..]);
      assert acc'.simples + ss[1..] == acc.simples + ss;
    }
  }

  lemma {:induction false} EnumsRoundTrip<V>(open: seq<Frame<V>>, acc: Annotation<V>, es: seq<EnumAttribute>)
    ensures Run(Capturing(open + [InAnnotation(acc)]), ReplayEnums<V>(es))
         == Capturing(open + [InAnnotation(acc.(enums := acc.enums + es))])
    decreases es
  {
    if es == [] {
      assert acc.enums + es == acc.enums;
    } else {
      var c := Capturing(open + [InAnnotation(acc)]);
      var acc' := acc.(enums := acc.enums + [es[0]]);
      RunCons(c, EnumValue(es[0].name, es[0].desc, es[0].value), ReplayEnums<V>(es[1..]));
      assert (open + [InAnnotation(acc)])[..|open|] == open;
      assert Step(c, EnumValue(es[0].name, es[0].desc, es[0].value)) == Capturing(open + [InAnnotation(acc')]);
      EnumsRoundTrip(open, acc', es[1..]);
      assert acc'.enums + es[1..] == acc.enums + es;
    }
  }

  /** Replaying a nested descriptor into an open visitor attaches exactly that descriptor. */
  lemma {:induction false} NestedRoundTrip<V>(open: seq<Frame<V>>, a: Annotation<V>)
    requires |open| > 0 && NestedShaped(a, open[|open| - 1].InArray?)
    ensures Run(Capturing(open), ReplayNested(a))
         == Capturing(open[..|open| - 1] + [Attach(open[|open| - 1], InAnnotation(a))])
    decreases a, 2
  {
    var empty := a.(simples := [], enums := [], nested := [], arrays := []);
    var c := Capturing(open);
    assert ReplayNested(a) == [OpenNested(a.name, a.desc)] + (ReplayBody(a) + [End]);
    RunCons(c, OpenNested(a.name, a.desc), ReplayBody(a) + [End]);
    assert Step(c, OpenNested(a.name, a.desc)) == Capturing(open + [InAnnotation(empty)]);
    RunAppend(Capturing(open + [InAnnotation(empty)]), ReplayBody(a), [End]);
    BodyRoundTrip(open, empty, a);
    assert Extended(empty, a) == a;
    var inner := open + [InAnnotation(a)];
    assert inner[..|inner| - 2] == open[..|open| - 1];
    RunCons(Capturing(inner), End, []);
  }

  lemma {:induction false} BodyRoundTrip<V>(open: seq<Frame<V>>, acc: Annotation<V>, a: Annotation<V>)
    requires BodyShaped(a)
    ensures Run(Capturing(open + [InAnnotation(acc)]), ReplayBody(a))
         == Capturing(open + [InAnnotation(Extended(acc, a))])
    decreases a, 1
  {
    var s := ReplaySimples<V>(a.simples);
    var e := ReplayEnums<V>(a.enums);
    var n := ReplayNestedList(a.nested);
    var r := ReplayArrays(a.arrays);
    var c0 := Capturing(open + [InAnnotation(acc)]);
    var acc1 := acc.(simples := acc.simples + a.simples);
    var acc2 := acc1.(enums := acc1.enums + a.enums);
    var acc3 := acc2.(nested := acc2.nested + a.nested);
    assert ReplayBody(a) == ((s + e) + n) + r;
    RunAppend(c0, (s + e) + n, r);
    RunAppend(c0, s + e, n);
    RunAppend(c0, s, e);
    SimplesRoundTrip(open, acc, a.simples);
    EnumsRoundTrip(open, acc1, a.enums);
    NestedListRoundTrip(open, acc2, a.nested);
    ArraysRoundTrip(open, acc3, a.arrays);
  }

  lemma {:induction false} NestedListRoundTrip<V>(open: seq<Frame<V>>, acc: Annotation<V>, ns: seq<Annotation<V>>)
    requires forall i :: 0 <= i < |ns| ==> NestedShaped(ns[i], false)
    ensures Run(Capturing(open + [InAnnotation(acc)]), ReplayNestedList(ns))
         == Capturing(open + [InAnnotation(acc.(nested := acc.nested + ns))])
    decreases ns
  {
    if ns == [] {
      assert acc.nested + ns == acc.nested;
    } else {
      var o := open + [InAnnotation(acc)];
      var acc' := acc.(nested := acc.nested + [ns[0]]);
      RunAppend(Capturing(o), ReplayNested(ns[0]), ReplayNestedList(ns[1..]));
      NestedRoundTrip(o, ns[0]);
      assert o[..|o| - 1] == open;
      NestedListRoundTrip(open, acc', ns[1..]);
      assert acc'.nested + ns[1..] == acc.nested + ns;
    }
  }

  lemma {:induction false} ArraysRoundTrip<V>(open: seq<Frame<V>>, acc: Annotation<V>, rs: seq<ArrayAttribute<V>>)
    requires forall i :: 0 <= i < |rs| ==> ArrayShaped(rs[i], false)
    ensures Run(Capturing(open + [InAnnotation(acc)]), ReplayArrays(rs))
         == Capturing(open + [InAnnotation(acc.(arrays := acc.arrays + rs))])
    decreases rs
  {
    if rs == [] {
      assert acc.arrays + rs == acc.arrays;
    } else {
      var o := open + [InAnnotation(acc)];
      var acc' := acc.(arrays := acc.arrays + [rs[0]]);
      RunAppend(Capturing(o), ReplayArray(rs[0]), ReplayArrays(rs[1..]));
      ArrayRoundTrip(o, rs[0]);
      assert o[..|o| - 1] == open;
      ArraysRoundTrip(open, acc', rs[1..]);
      assert acc'.arrays + rs[1..] == acc.arrays + rs;
    }
  }

  /** Replaying an array attribute into an open visitor attaches exactly that array. */
  lemma {:induction false} ArrayRoundTrip<V>(open: seq<Frame<V>>, r: ArrayAttribute<V>)
    requires |open| > 0 && ArrayShaped(r, open[|open| - 1].InArray?)
    ensures Run(Capturing(open), ReplayArray(r))
         == Capturing(open[..|open| - 1] + [Attach(open[|open| - 1], InArray(r))])
    decreases r, 1
  {
    var empty := r.(content := []);
    var c := Capturing(open);
    assert ReplayArray(r) == [OpenArray(r.name)] + (ReplayElements(r.content) + [End]);
    RunCons(c, OpenArray(r.name), ReplayElements(r.content) + [End]);
    assert Step(c, OpenArray(r.name)) == Capturing(open + [InArray(empty)]);
    RunAppend(Capturing(open + [InArray(empty)]), ReplayElements(r.content), [End]);
    ElementsRoundTrip(open, empty, r.content);
    assert empty.(content := empty.content + r.content) == r;
    var inner := open + [InArray(r)];
    assert inner[..|inner| - 2] == open[..|open| - 1];
    RunCons(Capturing(inner), End, []);
  }

  lemma {:induction false} ElementsRoundTrip<V>(open: seq<Frame<V>>, acc: ArrayAttribute<V>, es: seq<Element<V>>)
    requires forall i :: 0 <= i < |es| ==> ElementShaped(es[i])
    ensures Run(Capturing(open + [InArray(acc)]), ReplayElements(es))
         == Capturing(open + [InArray(acc.(content := acc.content + es))])
    decreases es
  {
    if es == [] {
      assert acc.content + es == acc.content;
    } else {
      var o := open + [InArray(acc)];
      var acc' := acc.(content := acc.content + [es[0]]);
      RunAppend(Capturing(o), ReplayElement(es[0]), ReplayElements(es[1..]));
      ElementRoundTrip(open, acc, es[0]);
      ElementsRoundTrip(open, acc', es[1..]);
      assert acc'.content + es[1..] == acc.content + es;
    }
  }

  lemma {:induction false} ElementRoundTrip<V>(open: seq<Frame<V>>, acc: ArrayAttribute<V>, e: Element<V>)
    requires ElementShaped(e)
    ensures Run(Capturing(open + [InArray(acc)]), ReplayElement(e))
         == Capturing(open + [InArray(acc.(content := acc.content + [e]))])
    decreases e
  {
    var o := open + [InArray(acc)];
    assert o[..|o| - 1] == open;
    match e
    case ElementValue(v) =>
      RunCons(Capturing(o), Value(None, v), []);
    case ElementEnum(en) =>
      RunCons(Capturing(o), EnumValue(en.name, en.desc, en.value), []);
    case ElementAnnotation(n) =>
      NestedRoundTrip(o, n);
    case ElementArray(r) =>
      ArrayRoundTrip(o, r);
  }

  /** Replaying a root descriptor onto a fresh descriptor of the same name and
      visibility captures the very same descriptor: value for value, order for
      order, at every nesting level. */
  lemma CaptureAfterReplay<V>(a: Annotation<V>)
    requires RootShaped(a)
    ensures CaptureAnnotation(a.name.value, a.visible, ReplayMethodAnnotation(a)[1..]) == a
  {
    var root := Root<V>(a.name.value, a.visible);
    ReplayVariantsShareBody(0, a);
    RunAppend(Start(root), ReplayBody(a), [End]);
    BodyRoundTrip([], root, a);
    assert [] + [InAnnotation(root)] == [InAnnotation(root)];
    assert Extended(root, a) == a;
    RunCons(Capturing([InAnnotation(a)]), End, []);
  }

  // ------------------------------------------- capture yields shaped trees

  predicate FrameShaped<V>(f: Frame<V>, inArray: bool) {
    match f
    case InAnnotation(a) => NestedShaped(a, inArray)
    case InArray(r) => ArrayShaped(r, inArray)
  }

  /** The open visitors: the root descriptor `desc` at the bottom, and every
      other one shaped for the visitor that opened it. */
  predicate StackShaped<V>(open: seq<Frame<V>>, desc: string, visible: bool) {
    && |open| > 0
    && open[0].InAnnotation?
    && RootShaped(open[0].annotation)
    && open[0].annotation.name == Some(desc)
    && open[0].annotation.visible == visible
    && forall k :: 0 < k < |open| ==> FrameShaped(open[k], open[k - 1].InArray?)
  }

  predicate CaptureShaped<V>(c: Capture<V>, desc: string, visible: bool) {
    match c
    case Capturing(open) => StackShaped(open, desc, visible)
    case Done(a) => RootShaped(a) && a.name == Some(desc) && a.visible == visible
  }

  lemma StepShaped<V>(c: Capture<V>, call: Call<V>, desc: string, visible: bool)
    requires CaptureShaped(c, desc, visible)
    ensures CaptureShaped(Step(c, call), desc, visible)
  {
    if c.Capturing? {
      var open := c.open;
      var n := |open|;
      var top := open[n - 1];
      var below := open[..n - 1];
      match call
      case Value(_, _) =>
        AppendValueShaped(c, call, desc, visible);
      case EnumValue(_, _, _) =>
        AppendValueShaped(c, call, desc, visible);
      case OpenNested(_, _) =>
        var o' := Step(c, call).open;
        assert forall k :: 0 <= k < n ==> o'[k] == open[k];
        assert FrameShaped(o'[n], top.InArray?);
      case OpenArray(_) =>
        var o' := Step(c, call).open;
        assert forall k :: 0 <= k < n ==> o'[k] == open[k];
        assert FrameShaped(o'[n], top.InArray?);
      case End =>
        if n >= 2 {
          var parent := open[n - 2];
          var o' := Step(c, call).open;
          assert o' == open[..n - 2] + [Attach(parent, top)];
          assert forall k :: 0 < k < n - 2 ==> o'[k] == open[k];
          if n - 2 == 0 {
            var a := parent.annotation;
            assert o'[0].annotation.name == a.name && o'[0].annotation.visible == a.visible;
            assert o'[0].annotation.desc == a.desc;
            AttachBodyShaped(a, top);
          } else {
            AttachShaped(parent, top, open[n - 3].InArray?);
          }
        }
      case OpenAnnotation(_, _) =>
      case OpenParameterAnnotation(_, _, _) =>
    }
  }

  /** A simple or enum value changes no nested descriptor and no name. */
  lemma AppendValueShaped<V>(c: Capture<V>, call: Call<V>, desc: string, visible: bool)
    requires CaptureShaped(c, desc, visible) && c.Capturing?
    requires call.Value? || call.EnumValue?
    ensures CaptureShaped(Step(c, call), desc, visible)
  {
    var open := c.open;
    var n := |open|;
    var top := open[n - 1];
    var o' := Step(c, call).open;
    assert |o'| == n;
    assert forall k :: 0 <= k < n - 1 ==> o'[k] == open[k];
    assert o'[n - 1].InAnnotation? == top.InAnnotation?;
    match top
    case InAnnotation(a) =>
      var a' := o'[n - 1].annotation;
      assert a'.name == a.name && a'.visible == a.visible && a'.desc == a.desc;
      assert a'.nested == a.nested && a'.arrays == a.arrays;
      if n == 1 {
        assert RootShaped(open[0].annotation);
      } else {
        assert FrameShaped(open[n - 1], open[n - 2].InArray?);
      }
      assert BodyShaped(a);
      assert BodyShaped(a');
      if n == 1 {
        assert RootShaped(a');
      } else {
        assert FrameShaped(top, open[n - 2].InArray?);
        assert FrameShaped(o'[n - 1], o'[n - 2].InArray?);
      }
    case InArray(r) =>
      var r' := o'[n - 1].attribute;
      assert r'.name == r.name;
      assert forall i :: 0 <= i < |r.content| ==> r'.content[i] == r.content[i];
      assert ElementShaped(r'.content[|r.content|]);
  }

  lemma AttachBodyShaped<V>(a: Annotation<V>, child: Frame<V>)
    requires BodyShaped(a) && FrameShaped(child, false)
    ensures BodyShaped(Attach(InAnnotation(a), child).annotation)
  {
    var a' := Attach(InAnnotation(a), child).annotation;
    match child
    case InAnnotation(n) =>
      assert forall i :: 0 <= i < |a.nested| ==> a'.nested[i] == a.nested[i];
    case InArray(r) =>
      assert forall i :: 0 <= i < |a.arrays| ==> a'.arrays[i] == a.arrays[i];
  }

  lemma AttachShaped<V>(parent: Frame<V>, child: Frame<V>, inArray: bool)
    requires FrameShaped(parent, inArray) && FrameShaped(child, parent.InArray?)
    ensures FrameShaped(Attach(parent, child), inArray)
  {
    match parent
    case InAnnotation(a) =>
      AttachBodyShaped(a, child);
    case InArray(r) =>
      var r' := Attach(parent, child).attribute;
      assert forall i :: 0 <= i < |r.content| ==> r'.content[i] == r.content[i];
  }

  lemma {:induction false} RunShaped<V>(c: Capture<V>, calls: seq<Call<V>>, desc: string, visible: bool)
    requires CaptureShaped(c, desc, visible)
    ensures CaptureShaped(Run(c, calls), desc, visible)
    decreases |calls|
  {
    if calls != [] {
      StepShaped(c, calls[0], desc, visible);
      RunShaped(Step(c, calls[0]), calls[1..], desc, visible);
    }
  }

  lemma {:induction false} FinishShaped<V>(c: Capture<V>, desc: string, visible: bool)
    requires CaptureShaped(c, desc, visible)
    ensures RootShaped(Finish(c)) && Finish(c).name == Some(desc) && Finish(c).visible == visible
    decreases if c.Capturing? then |c.open| else 0
  {
    if c.Capturing? && |c.open| >= 2 {
      StepShaped(c, End, desc, visible);
      FinishShaped(Step(c, End), desc, visible);
    }
  }

  /** Whatever calls a root descriptor receives, what it captures keeps its
      name and visibility, and every nested descriptor in it is visible and
      every array element unnamed. */
  lemma CapturedIsShaped<V>(desc: string, visible: bool, calls: seq<Call<V>>)
    ensures RootShaped(CaptureAnnotation(desc, visible, calls))
    ensures CaptureAnnotation(desc, visible, calls).name == Some(desc)
    ensures CaptureAnnotation(desc, visible, calls).visible == visible
  {
    var start := Start(Root<V>(desc, visible));
    RunShaped(start, calls, desc, visible);
    FinishShaped(Run(start, calls), desc, visible);
  }

  /** A captured descriptor, replayed and captured again, is unchanged: the
      copy that the generation pass re-creates is the copy that was taken. */
  lemma ReplayIsFaithful<V>(desc: string, visible: bool, calls: seq<Call<V>>)
    ensures var a := CaptureAnnotation(desc, visible, calls);
            CaptureAnnotation(desc, visible, ReplayMethodAnnotation(a)[1..]) == a
  {
    CapturedIsShaped(desc, visible, calls);
    CaptureAfterReplay(CaptureAnnotation(desc, visible, calls));
  }
}
