/**
 * Field and method descriptors, following sections 4.3.2 (Field Descriptors)
 * and 4.3.3 (Method Descriptors) of The Java Virtual Machine Specification.
 *
 * The eligibility rules of ClassChecker only ask a descriptor three things
 * (through ASM's Type.getArgumentTypes and Type.getReturnType): how many
 * arguments it has, what the first one is, and what it returns.  This module
 * gives descriptors a parsed form, proves that parsing and encoding are
 * inverse to each other, and relates the parsed facts back to the characters
 * of the descriptor string.
 */
module Descriptors {
  import opened Wrappers

  /** FieldType: BaseType | ObjectType | ArrayType (JVMS 4.3.2). */
  datatype FieldType =
    | BaseType(code: char)
    | ObjectType(className: string)
    | ArrayType(component: FieldType)

  /** ReturnDescriptor: FieldType | VoidDescriptor (JVMS 4.3.3). */
  datatype ReturnDescriptor = VoidDescriptor | FieldReturn(fieldType: FieldType)

  /** MethodDescriptor: ( {ParameterDescriptor} ) ReturnDescriptor (JVMS 4.3.3). */
  datatype MethodType = MethodType(parameters: seq<FieldType>, result: ReturnDescriptor)

  /** The eight BaseType characters of JVMS table 4.3-A. */
  predicate IsBaseCode(c: char) {
    c in "BCDFIJSZ"
  }

  /** A class name in internal form (JVMS 4.2.1): non-empty, and free of the
      characters that delimit or would be illegal in a descriptor. */
  predicate IsClassName(s: string) {
    |s| > 0 && ';' !in s && '.' !in s && '[' !in s
  }

  predicate WellFormedField(t: FieldType) {
    match t
    case BaseType(c) => IsBaseCode(c)
    case ObjectType(n) => IsClassName(n)
    case ArrayType(c) => WellFormedField(c)
  }

  predicate WellFormedMethod(m: MethodType) {
    && (forall i :: 0 <= i < |m.parameters| ==> WellFormedField(m.parameters[i]))
    && (m.result.FieldReturn? ==> WellFormedField(m.result.fieldType))
  }

  // ---------------------------------------------------------------- encoding

  function EncodeField(t: FieldType): string {
    match t
    case BaseType(c) => [c]
    case ObjectType(n) => "L" + n + ";"
    case ArrayType(c) => "[" + EncodeField(c)
  }

  function EncodeParameters(ps: seq<FieldType>): string {
    if ps == [] then "" else EncodeField(ps[0]) + EncodeParameters(ps[1..])
  }

  function EncodeReturn(r: ReturnDescriptor): string {
    match r
    case VoidDescriptor => "V"
    case FieldReturn(t) => EncodeField(t)
  }

  function EncodeMethod(m: MethodType): string {
    "(" + EncodeParameters(m.parameters) + ")" + EncodeReturn(m.result)
  }

  // ----------------------------------------------------------------- parsing

  /** Index of the first `c` in `s`, or `|s|` when there is none. */
  function IndexOf(s: string, c: char): (k: nat)
    ensures k <= |s|
    ensures k < |s| ==> s[k] == c
    ensures forall i :: 0 <= i < k ==> s[i] != c
  {
    if s == [] then 0
    else if s[0] == c then 0
    else 1 + IndexOf(s[1..], c)
  }

  /** Reads one field descriptor from the front of `s`; returns it and what follows. */
  function ParseField(s: string): (r: Option<(FieldType, string)>)
    ensures r.Some? ==> |r.value.1| < |s|
    decreases |s|
  {
    if |s| == 0 then None
    else if IsBaseCode(s[0]) then Some((BaseType(s[0]), s[1..]))
    else if s[0] == '[' then
      match ParseField(s[1..])
      case None => None
      case Some((c, rest)) => Some((ArrayType(c), rest))
    else if s[0] == 'L' then
      var k := IndexOf(s[1..], ';');
      if k < |s| - 1 && IsClassName(s[1..k + 1]) then Some((ObjectType(s[1..k + 1]), s[k + 2..]))
      else None
    else None
  }

  /** Reads parameter descriptors up to (not including) the closing ')'. */
  function ParseParameters(s: string): (r: Option<(seq<FieldType>, string)>)
    ensures r.Some? ==> |r.value.1| > 0 && r.value.1[0] == ')' && |r.value.1| <= |s|
    decreases |s|
  {
    if |s| > 0 && s[0] == ')' then Some(([], s))
    else
      match ParseField(s)
      case None => None
      case Some((t, rest)) =>
        match ParseParameters(rest)
        case None => None
        case Some((ts, rest')) => Some(([t] + ts, rest'))
  }

  function ParseMethod(s: string): Option<MethodType> {
    if |s| == 0 || s[0] != '(' then None
    else
      match ParseParameters(s[1..])
      case None => None
      case Some((ps, rest)) =>
        var ret := rest[1..];
        if ret == "V" then Some(MethodType(ps, VoidDescriptor))
        else
          match ParseField(ret)
          case Some((t, tail)) => if tail == "" then Some(MethodType(ps, FieldReturn(t))) else None
          case None => None
  }

  /** `desc` is a method descriptor in the sense of JVMS 4.3.3. */
  predicate IsMethodDescriptor(desc: string) {
    ParseMethod(desc).Some?
  }

  /** What Type.getArgumentTypes(desc) yields, for a valid descriptor: the
      well-formed field types whose encodings fill its parentheses. */
  function ArgumentTypes(desc: string): (r: seq<FieldType>)
    requires IsMethodDescriptor(desc)
    ensures forall i :: 0 <= i < |r| ==> WellFormedField(r[i])
    ensures "(" + EncodeParameters(r) + ")" <= desc
  {
    EncodeParseMethod(desc);
    ParseMethod(desc).value.parameters
  }

  /** What Type.getReturnType(desc) yields, for a valid descriptor: the
      well-formed return type whose encoding ends it. */
  function ReturnType(desc: string): (r: ReturnDescriptor)
    requires IsMethodDescriptor(desc)
    ensures r.FieldReturn? ==> WellFormedField(r.fieldType)
    ensures desc == "(" + EncodeParameters(ArgumentTypes(desc)) + ")" + EncodeReturn(r)
  {
    EncodeParseMethod(desc);
    ParseMethod(desc).value.result
  }

  // ------------------------------------------------------ parse after encode

  lemma {:induction false} ParseEncodeField(t: FieldType, rest: string)
    requires WellFormedField(t)
    ensures ParseField(EncodeField(t) + rest) == Some((t, rest))
  {
    match t
    case BaseType(c) =>
      assert (EncodeField(t) + rest)[1..] == rest;
    case ArrayType(c) =>
      ParseEncodeField(c, rest);
      assert (EncodeField(t) + rest)[1..] == EncodeField(c) + rest;
    case ObjectType(n) =>
      var s := EncodeField(t) + rest;
      assert s[1..] == n + ";" + rest;
      IndexOfAfterName(n, rest);
      assert s[1..|n| + 1] == n;
      assert s[|n| + 2..] == rest;
  }

  lemma IndexOfAfterName(n: string, rest: string)
    requires ';' !in n
    ensures IndexOf(n + ";" + rest, ';') == |n|
  {
    var s := n + ";" + rest;
    assert forall i :: 0 <= i < |n| ==> s[i] == n[i];
    assert s[|n|] == ';';
  }

  lemma {:induction false} ParseEncodeParameters(ps: seq<FieldType>, rest: string)
    requires forall i :: 0 <= i < |ps| ==> WellFormedField(ps[i])
    requires |rest| > 0 && rest[0] == ')'
    ensures ParseParameters(EncodeParameters(ps) + rest) == Some((ps, rest))
  {
    if ps == [] {
      assert EncodeParameters(ps) + rest == rest;
    } else {
      var tail := EncodeParameters(ps[1..]) + rest;
      assert EncodeParameters(ps) + rest == EncodeField(ps[0]) + tail;
      ParseEncodeField(ps[0], tail);
      ParseEncodeParameters(ps[1..], rest);
      FieldEncodingNotClosing(ps[0]);
      assert [ps[0]] + ps[1..] == ps;
    }
  }

  lemma FieldEncodingNotClosing(t: FieldType)
    requires WellFormedField(t)
    ensures |EncodeField(t)| > 0 && EncodeField(t)[0] != ')'
  {
  }

  /** Every well-formed method type is parsed back from its own descriptor. */
  lemma ParseEncodeMethod(m: MethodType)
    requires WellFormedMethod(m)
    ensures ParseMethod(EncodeMethod(m)) == Some(m)
  {
    var s := EncodeMethod(m);
    var r := EncodeReturn(m.result);
    assert s[1..] == EncodeParameters(m.parameters) + (")" + r);
    ParseEncodeParameters(m.parameters, ")" + r);
    assert (")" + r)[1..] == r;
    match m.result
    case VoidDescriptor =>
    case FieldReturn(t) =>
      ParseEncodeField(t, "");
      assert EncodeField(t) + "" == EncodeField(t);
      FieldEncodingNeverEndsWithV(t);
  }

  // ------------------------------------------------------ encode after parse

  lemma {:induction false} EncodeParseField(s: string)
    requires ParseField(s).Some?
    ensures WellFormedField(ParseField(s).value.0)
    ensures s == EncodeField(ParseField(s).value.0) + ParseField(s).value.1
    decreases |s|
  {
    if IsBaseCode(s[0]) {
      assert s == [s[0]] + s[1..];
    } else if s[0] == '[' {
      EncodeParseField(s[1..]);
      assert s == "[" + s[1..];
    } else {
      var k := IndexOf(s[1..], ';');
      assert s[k + 1] == ';';
      assert s == [s[0]] + s[1..k + 1] + [s[k + 1]] + s[k + 2..];
    }
  }

  lemma {:induction false} EncodeParseParameters(s: string)
    requires ParseParameters(s).Some?
    ensures forall i :: 0 <= i < |ParseParameters(s).value.0| ==> WellFormedField(ParseParameters(s).value.0[i])
    ensures s == EncodeParameters(ParseParameters(s).value.0) + ParseParameters(s).value.1
    decreases |s|
  {
    if |s| > 0 && s[0] == ')' {
    } else {
      var (t, rest) := ParseField(s).value;
      EncodeParseField(s);
      EncodeParseParameters(rest);
      var (ts, rest') := ParseParameters(rest).value;
      assert ([t] + ts)[1..] == ts;
      assert EncodeParameters([t] + ts) == EncodeField(t) + EncodeParameters(ts);
    }
  }

  /** A descriptor is the encoding of what it parses to: descriptors and
      well-formed method types are in one-to-one correspondence. */
  lemma EncodeParseMethod(s: string)
    requires IsMethodDescriptor(s)
    ensures WellFormedMethod(ParseMethod(s).value)
    ensures EncodeMethod(ParseMethod(s).value) == s
  {
    var (ps, rest) := ParseParameters(s[1..]).value;
    EncodeParseParameters(s[1..]);
    var ret := rest[1..];
    assert rest == ")" + ret;
    if ret != "V" {
      EncodeParseField(ret);
      assert ret == EncodeField(ParseField(ret).value.0) + "";
    }
    assert s == "(" + s[1..];
  }

  // ---------------------------------------- parsed facts as string facts

  /** A valid descriptor declares no argument exactly when ')' follows '('. */
  lemma NoArgumentsIffEmptyParens(desc: string)
    requires IsMethodDescriptor(desc)
    ensures |ArgumentTypes(desc)| == 0 <==> "()" <= desc
  {
    EncodeParseMethod(desc);
    ClosingParenthesisAtOne(ParseMethod(desc).value);
  }

  lemma ClosingParenthesisAtOne(m: MethodType)
    requires WellFormedMethod(m)
    ensures |EncodeMethod(m)| > 1 && EncodeMethod(m)[0] == '('
    ensures m.parameters == [] <==> EncodeMethod(m)[1] == ')'
  {
    if m.parameters != [] {
      FieldEncodingNotClosing(m.parameters[0]);
      assert EncodeMethod(m) == "(" + EncodeField(m.parameters[0]) + EncodeParameters(m.parameters[1..]) + ")" + EncodeReturn(m.result);
    }
  }

  /** A valid descriptor returns void exactly when its last character is 'V'. */
  lemma VoidIffEndsWithV(desc: string)
    requires IsMethodDescriptor(desc)
    ensures ReturnType(desc) == VoidDescriptor <==> desc[|desc| - 1] == 'V'
  {
    var m := ParseMethod(desc).value;
    EncodeParseMethod(desc);
    if m.result.FieldReturn? {
      FieldEncodingNeverEndsWithV(m.result.fieldType);
      assert desc[|desc| - 1] == EncodeField(m.result.fieldType)[|EncodeField(m.result.fieldType)| - 1];
    }
  }

  lemma {:induction false} FieldEncodingNeverEndsWithV(t: FieldType)
    requires WellFormedField(t)
    ensures |EncodeField(t)| > 0 && EncodeField(t)[|EncodeField(t)| - 1] != 'V'
  {
    match t
    case BaseType(c) =>
    case ObjectType(n) =>
    case ArrayType(c) =>
      FieldEncodingNeverEndsWithV(c);
  }

  /** The first argument is the class `n` exactly when the descriptor starts
      with "(L" n ";". */
  lemma FirstArgumentIffPrefix(desc: string, n: string)
    requires IsMethodDescriptor(desc) && IsClassName(n)
    ensures (|ArgumentTypes(desc)| >= 1 && ArgumentTypes(desc)[0] == ObjectType(n))
            <==> "(L" + n + ";" <= desc
  {
    var m := ParseMethod(desc).value;
    EncodeParseMethod(desc);
    if |m.parameters| >= 1 && m.parameters[0] == ObjectType(n) {
      FirstArgumentGivesPrefix(m, n);
    } else if "(L" + n + ";" <= desc {
      PrefixGivesFirstArgument(m, n);
    }
  }

  lemma FirstArgumentGivesPrefix(m: MethodType, n: string)
    requires |m.parameters| >= 1 && m.parameters[0] == ObjectType(n)
    ensures "(L" + n + ";" <= EncodeMethod(m)
  {
    var rest := EncodeParameters(m.parameters[1..]) + ")" + EncodeReturn(m.result);
    assert EncodeMethod(m) == "(L" + n + ";" + rest;
  }

  lemma PrefixGivesFirstArgument(m: MethodType, n: string)
    requires WellFormedMethod(m) && IsClassName(n)
    requires "(L" + n + ";" <= EncodeMethod(m)
    ensures |m.parameters| >= 1 && m.parameters[0] == ObjectType(n)
  {
    var desc := EncodeMethod(m);
    assert desc[1] == 'L';
    ClosingParenthesisAtOne(m);
    {
      var t := m.parameters[0];
      var tail := EncodeParameters(m.parameters[1..]) + ")" + EncodeReturn(m.result);
      assert desc == "(" + EncodeField(t) + tail;
      assert EncodeField(t)[0] == 'L';
      var c := t.className;
      assert desc[2..] == c + ";" + tail;
      var p := "(L" + n + ";";
      assert desc[2..] == n + ";" + desc[|p|..];
      IndexOfAfterName(c, tail);
      IndexOfAfterName(n, desc[|p|..]);
      assert c == desc[2..][..|c|] == n;
    }
  }
}
