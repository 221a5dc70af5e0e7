/**
 * What the `@DynamicParameters` generators promise: the classification is
 * total, the snapshot entry and the apply case of a field are built from
 * one classification and name the same tag, and both lists are filtered by
 * the same guard and keep member order.
 */
module MacroProperties {
  import opened Wrappers
  import opened SwiftText
  import opened DynamicParametersMacro

  /** The ten names with a tag of their own. */
  const ScalarTypeNames: seq<string> := PlainScalarNames + OptionalScalarNames

  // ----- The tag table -----

  lemma TagTableKnowsExactlyTen(typeName: string)
    ensures SimpleTypeToValueType(typeName) != "unknownValue" <==> typeName in ScalarTypeNames
  {
  }

  lemma TagTableInjective(a: string, b: string)
    requires a in ScalarTypeNames && b in ScalarTypeNames
    requires SimpleTypeToValueType(a) == SimpleTypeToValueType(b)
    ensures a == b
  {
  }

  // ----- Snapshot entries -----

  /** Each of the ten names is wrapped in its own tag, the one the tag table gives it. */
  lemma SimpleParameterTag(name: string, typeName: string)
    requires typeName in ScalarTypeNames
    ensures GenerateSimpleParameter(name, typeName) == Success(ParameterEntry(name, Tagged(SimpleTypeToValueType(typeName), name)))
  {
  }

  /** Every other name becomes a structValue over the field's own `parameters`. */
  lemma SimpleParameterNested(name: string, typeName: string)
    requires typeName !in ScalarTypeNames
    ensures GenerateSimpleParameter(name, typeName) == Success(ParameterEntry(name, Tagged("structValue", name + ".parameters")))
  {
  }

  /** Arrays of the five plain scalars wrap each element in its tag; any other element is a nested value. */
  lemma ArrayParameterShape(name: string, elementType: string)
    ensures elementType in PlainScalarNames ==>
      (GenerateArrayParameter(name, elementType)
       == Success(ParameterEntry(name, Tagged("arrayValue", MapEach(name, Tagged(SimpleTypeToValueType(elementType), "$0"))))))
    ensures elementType !in PlainScalarNames ==>
      (GenerateArrayParameter(name, elementType)
       == Success(ParameterEntry(name, Tagged("arrayValue", MapEach(name, Tagged("structValue", "$0.parameters"))))))
  {
  }

  // ----- One classification behind both generators -----

  /** What a field is, once its type text is classified. */
  datatype FieldKind =
    | Scalar(tag: string)              // one of the ten names; `tag` from the tag table
    | Nested                           // any other non-array type
    | ScalarArray(elementTag: string)  // `[T]` with T one of the five plain scalars
    | NestedArray(elementType: string) // any other `[...]`

  function KindOf(typeText: string): FieldKind {
    match Classify(typeText)
    case ArrayType(e) => if e in PlainScalarNames then ScalarArray(SimpleTypeToValueType(e)) else NestedArray(e)
    case SimpleType(t) => if t in ScalarTypeNames then Scalar(SimpleTypeToValueType(t)) else Nested
  }

  /** The `ValueType` case the snapshot entry builds and the apply case destructures. */
  function MatchedTag(k: FieldKind): string {
    match k
    case Scalar(tag) => tag
    case Nested => "structValue"
    case ScalarArray(_) => "arrayValue"
    case NestedArray(_) => "arrayValue"
  }

  /** The expression a snapshot entry stores, both as current value and as default. */
  function SnapshotPayload(name: string, k: FieldKind): string {
    match k
    case Scalar(_) => name
    case Nested => name + ".parameters"
    case ScalarArray(tag) => MapEach(name, Tagged(tag, "$0"))
    case NestedArray(_) => MapEach(name, Tagged("structValue", "$0.parameters"))
  }

  function Binder(k: FieldKind): string {
    match k
    case Scalar(_) => "value"
    case Nested => "parameters"
    case ScalarArray(_) => "values"
    case NestedArray(_) => "values"
  }

  /** What the apply case does with the destructured payload; a nested array builds new elements. */
  function ApplyStatement(name: string, k: FieldKind): string {
    match k
    case Scalar(_) => name + " = value"
    case Nested => name + ".updateParameters(parameters)"
    case ScalarArray(_) => name + " = values.map { $0 }"
    case NestedArray(e) => name + " = values.map { " + e + "(parameters: $0) }"
  }

  /**
   * For every type text, neither generator throws, the snapshot entry is keyed
   * by the field name with one expression as value and default, and the
   * snapshot entry and the apply case use the same `ValueType` tag.
   */
  lemma GeneratorsAgree(name: string, typeText: string)
    ensures var k := KindOf(typeText);
      && GenerateParameter(name, typeText) == Success(ParameterEntry(name, Tagged(MatchedTag(k), SnapshotPayload(name, k))))
      && GenerateCase(name, typeText) == Success(CaseClause(name, MatchedTag(k), Binder(k), ApplyStatement(name, k)))
  {
    match Classify(typeText)
    case ArrayType(e) =>
      ArrayParameterShape(name, e);
    case SimpleType(t) =>
      if t in ScalarTypeNames {
        SimpleParameterTag(name, t);
      } else {
        SimpleParameterNested(name, t);
      }
  }

  /**
   * A type text whose trimmed form ends in `?` (an optional array such as
   * `[Int]?`, an optional nested type such as `SubRequest?`) is never an
   * array; unless it is one of the five optional scalars it becomes a structValue.
   */
  lemma {:induction false} OptionalSuffixNotArray(typeText: string)
    requires Trim(typeText) != [] && Trim(typeText)[|Trim(typeText)| - 1] == '?'
    ensures KindOf(typeText) == Nested || (KindOf(typeText).Scalar? && Trim(typeText) in OptionalScalarNames)
  {
    var c := Classify(typeText);
    assert c.SimpleType?;
  }

  // ----- Member filtering and the assembled declaration -----

  /** The members that pass the guard, in member order. */
  function FieldsOf(members: seq<MemberDecl>): seq<Field> {
    CompactMap(members, FieldOf)
  }

  function Mapped<A, B>(xs: seq<A>, g: A -> B): (ys: seq<B>)
    ensures |ys| == |xs| && forall i :: 0 <= i < |xs| ==> ys[i] == g(xs[i])
  {
    seq(|xs|, i requires 0 <= i < |xs| => g(xs[i]))
  }

  function SnapshotOf(f: Field): string {
    GenerateParameter(f.name, f.typeText).value
  }

  function CaseOf(f: Field): string {
    GenerateCase(f.name, f.typeText).value
  }

  /** A closure that returns a value exactly for the fields the guard lets through drops nothing and reorders nothing. */
  lemma {:induction false} CompactMapAfterGuard<B>(ms: seq<MemberDecl>, f: MemberDecl -> Option<B>, g: Field -> B)
    requires forall m :: f(m) == (match FieldOf(m) case None => None case Some(x) => Some(g(x)))
    ensures CompactMap(ms, f) == Mapped(FieldsOf(ms), g)
    decreases |ms|
  {
    if ms != [] {
      CompactMapAfterGuard(ms[1..], f, g);
    }
  }

  /** `compactMap` keeps order: the result for `xs + ys` is the result for `xs` followed by that for `ys`. */
  lemma {:induction false} CompactMapConcat<A, B>(xs: seq<A>, ys: seq<A>, f: A -> Option<B>)
    ensures CompactMap(xs + ys, f) == CompactMap(xs, f) + CompactMap(ys, f)
    decreases |xs|
  {
    if xs == [] {
      assert xs + ys == ys;
    } else {
      assert (xs + ys)[1..] == xs[1..] + ys;
      CompactMapConcat(xs[1..], ys, f);
    }
  }

  /** Only the first binding of a declaration is read. */
  lemma FirstBindingOnly(b: PatternBinding, rest: seq<PatternBinding>)
    ensures FieldOf(VariableDecl([b] + rest)) == FieldOf(VariableDecl([b]))
  {
  }

  /**
   * Both generated lists come from the same guarded members, one entry each,
   * in member order; try? never discards one.
   */
  lemma ExpansionLists(members: seq<MemberDecl>)
    ensures CompactMap(members, ParameterDecl) == Mapped(FieldsOf(members), SnapshotOf)
    ensures CompactMap(members, CaseDecl) == Mapped(FieldsOf(members), CaseOf)
    ensures |CompactMap(members, ParameterDecl)| == |CompactMap(members, CaseDecl)| == |FieldsOf(members)|
  {
    forall m ensures ParameterDecl(m) == (match FieldOf(m) case None => None case Some(x) => Some(SnapshotOf(x))) {
    }
    forall m ensures CaseDecl(m) == (match FieldOf(m) case None => None case Some(x) => Some(CaseOf(x))) {
    }
    CompactMapAfterGuard(members, ParameterDecl, SnapshotOf);
    CompactMapAfterGuard(members, CaseDecl, CaseOf);
  }

  lemma ConcatEnds(a: string, b: string)
    ensures HasPrefix(a + b, a) && HasSuffix(a + b, b)
  {
    assert (a + b)[..|a|] == a;
    assert (a + b)[|a + b| - |b|..] == b;
  }

  lemma PrefixExtends(x: string, y: string, a: string)
    requires HasPrefix(x, a)
    ensures HasPrefix(x + y, a)
  {
    assert (x + y)[..|a|] == x[..|a|];
  }

  /**
   * The single generated declaration: the snapshot entries joined by ",\n"
   * inside `return [...]`, then the loop over the input list whose switch holds
   * the cases and always ends with `default: break`.
   */
  lemma ExpansionText(members: seq<MemberDecl>)
    ensures |Expansion(members)| == 1
    ensures Expansion(members)[0]
         == SnapshotHeader + Join(Mapped(FieldsOf(members), SnapshotOf), ",\n")
          + ApplyHeader + Join(Mapped(FieldsOf(members), CaseOf), "\n") + DefaultTail
    ensures HasPrefix(Expansion(members)[0], SnapshotHeader)
    ensures HasSuffix(Expansion(members)[0], DefaultTail)
  {
    ExpansionLists(members);
    var decls := Join(Mapped(FieldsOf(members), SnapshotOf), ",\n");
    var cases := Join(Mapped(FieldsOf(members), CaseOf), "\n");
    ConcatEnds(SnapshotHeader, decls);
    PrefixExtends(SnapshotHeader + decls, ApplyHeader, SnapshotHeader);
    PrefixExtends(SnapshotHeader + decls + ApplyHeader, cases, SnapshotHeader);
    PrefixExtends(SnapshotHeader + decls + ApplyHeader + cases, DefaultTail, SnapshotHeader);
    ConcatEnds(SnapshotHeader + decls + ApplyHeader + cases, DefaultTail);
  }
}
