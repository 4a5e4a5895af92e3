/**
 * The replay loops of AnnotationDescriptor and ArrayAttribute, written as
 * the source writes them: loops over the captured lists that issue one call
 * per attribute on the sink.  The sink is the sequence of calls it receives;
 * each method is proved to issue exactly the trace the replay functions of
 * module Annotations define.
 */
module AnnotationReplay {
  import opened Wrappers
  import opened Annotations

  /** The four loops shared by the three replays, without the opening and
      closing calls. */
  method EmitBody<V>(a: Annotation<V>) returns (t: seq<Call<V>>)
    ensures t == ReplayBody(a)
    decreases a, 1
  {
    t := EmitSimples(a.simples);
    var u := EmitEnums<V>(a.enums);
    t := t + u;
    u := EmitNestedList(a);
    t := t + u;
    u := EmitArrays(a);
    t := t + u;
  }

  /** The loop over the simple attributes. */
  method EmitSimples<V>(ss: seq<SimpleAttribute<V>>) returns (t: seq<Call<V>>)
    ensures t == ReplaySimples(ss)
  {
    t := [];
    for i := 0 to |ss|
      invariant t + ReplaySimples(ss[i..]) == ReplaySimples(ss)
    {
      assert ss[i..][1..] == ss[i + 1..];
      t := t + [Value(ss[i].name, ss[i].value)];
    }
  }

  /** The loop over the enumeration attributes. */
  method EmitEnums<V>(es: seq<EnumAttribute>) returns (t: seq<Call<V>>)
    ensures t == ReplayEnums(es)
  {
    t := [];
    for i := 0 to |es|
      invariant t + ReplayEnums(es[i..]) == ReplayEnums(es)
    {
      assert es[i..][1..] == es[i + 1..];
      t := t + [EnumValue(es[i].name, es[i].desc, es[i].value)];
    }
  }

  /** The loop over the nested annotations of `a`. */
  method EmitNestedList<V>(a: Annotation<V>) returns (t: seq<Call<V>>)
    ensures t == ReplayNestedList(a.nested)
    decreases a, 0
  {
    t := [];
    for i := 0 to |a.nested|
      invariant t + ReplayNestedList(a.nested[i..]) == ReplayNestedList(a.nested)
    {
      assert a.nested[i..][1..] == a.nested[i + 1..];
      var n := EmitNested(a.nested[i]);
      t := t + n;
    }
  }

  /** The loop over the array attributes of `a`. */
  method EmitArrays<V>(a: Annotation<V>) returns (t: seq<Call<V>>)
    ensures t == ReplayArrays(a.arrays)
    decreases a, 0
  {
    t := [];
    for i := 0 to |a.arrays|
      invariant t + ReplayArrays(a.arrays[i..]) == ReplayArrays(a.arrays)
    {
      assert a.arrays[i..][1..] == a.arrays[i + 1..];
      var r := EmitArray(a.arrays[i]);
      t := t + r;
    }
  }

  /** AnnotationDescriptor.visitAnnotation(MethodVisitor). */
  method EmitMethodAnnotation<V>(a: Annotation<V>) returns (t: seq<Call<V>>)
    ensures t == ReplayMethodAnnotation(a)
  {
    var body := EmitBody(a);
    t := [OpenAnnotation(a.name, a.visible)] + body + [End];
  }

  /** AnnotationDescriptor.visitParameterAnnotation(int, MethodVisitor). */
  method EmitParameterAnnotation<V>(id: int, a: Annotation<V>) returns (t: seq<Call<V>>)
    ensures t == ReplayParameterAnnotation(id, a)
  {
    var body := EmitBody(a);
    t := [OpenParameterAnnotation(id, a.name, a.visible)] + body + [End];
  }

  /** AnnotationDescriptor.visit(AnnotationVisitor). */
  method EmitNested<V>(a: Annotation<V>) returns (t: seq<Call<V>>)
    ensures t == ReplayNested(a)
    decreases a, 2
  {
    var body := EmitBody(a);
    t := [OpenNested(a.name, a.desc)] + body + [End];
  }

  /** ArrayAttribute.visit(AnnotationVisitor): the components in capture
      order. */
  method EmitArray<V>(r: ArrayAttribute<V>) returns (t: seq<Call<V>>)
    ensures t == ReplayArray(r)
  {
    var u: seq<Call<V>> := [];
    for i := 0 to |r.content|
      invariant u + ReplayElements(r.content[i..]) == ReplayElements(r.content)
    {
      assert r.content[i..][1..] == r.content[i + 1..];
      var c := EmitElement(r.content[i]);
      u := u + c;
    }
    t := [OpenArray(r.name)] + u + [End];
  }

  /** One component of an array attribute; a plain value gets a null name. */
  method EmitElement<V>(e: Element<V>) returns (t: seq<Call<V>>)
    ensures t == ReplayElement(e)
  {
    match e
    case ElementAnnotation(n) =>
      t := EmitNested(n);
    case ElementEnum(en) =>
      t := [EnumValue(en.name, en.desc, en.value)];
    case ElementArray(inner) =>
      t := EmitArray(inner);
    case ElementValue(v) =>
      t := [Value(None, v)];
  }
}
