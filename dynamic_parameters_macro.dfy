/**
 * The member-generation logic of the `@DynamicParameters` macro: from the
 * member declarations of a type it produces the source text of a
 * `parameters` snapshot getter and an `updateParameters` apply method.
 * The syntax tree is replaced by the few facts the macro reads from it, and
 * the generated text is modelled exactly as the macro writes it.
 */
module DynamicParametersMacro {
  import opened Wrappers
  import opened SwiftText

  /** The macro's error type; no generator ever produces one. */
  datatype MacroError = MacroError(message: string) {
    function Description(): string { "MacroError: " + message }
  }

  /** The pattern of a binding; only an identifier pattern names a field. */
  datatype Pattern = IdentifierPattern(identifier: string) | OtherPattern

  /** One binding of a `var`/`let`; the annotation is the type's source text, surrounding trivia included. */
  datatype PatternBinding = PatternBinding(pattern: Pattern, typeAnnotation: Option<string>)

  /** A member of the type's member block: a variable declaration with its bindings, or anything else. */
  datatype MemberDecl = VariableDecl(bindings: seq<PatternBinding>) | OtherDecl

  /** A member that passes the guard: its identifier and its raw type text. */
  datatype Field = Field(name: string, typeText: string)

  /** The guard of both `compactMap` closures: a variable declaration whose first binding is an annotated identifier. */
  function FieldOf(m: MemberDecl): Option<Field> {
    match m
    case OtherDecl => None
    case VariableDecl(bindings) =>
      if bindings == [] then None
      else match (bindings[0].pattern, bindings[0].typeAnnotation)
        case (IdentifierPattern(name), Some(typeText)) => Some(Field(name, typeText))
        case _ => None
  }

  // ----- Type classification -----

  /** The textual split both generators make before their `switch`. */
  datatype Classification = ArrayType(elementType: string) | SimpleType(typeName: string)

  /** Trim the type text; `[...]` is an array whose element type is the trimmed interior. */
  function Classify(typeText: string): (c: Classification)
    ensures var t := Trim(typeText);
      && (c.ArrayType? <==> |t| >= 2 && t[0] == '[' && t[|t| - 1] == ']')
      && (c.ArrayType? ==> c.elementType == Trim(t[1..|t| - 1]))
      && (c.SimpleType? ==> c.typeName == t)
  {
    var typeName := Trim(typeText);
    if HasPrefix(typeName, "[") && HasSuffix(typeName, "]") then
      assert typeName[..1][0] == '[' && typeName[|typeName| - 1..][0] == ']';
      ArrayType(Trim(typeName[1..|typeName| - 1]))
    else
      SimpleType(typeName)
  }

  // ----- Text templates shared by the generated strings -----

  /** `.<tag>(<payload>, defaultValue: <payload>)`: every generated value uses one expression for both. */
  function Tagged(tag: string, payload: string): string {
    "." + tag + "(" + payload + ", defaultValue: " + payload + ")"
  }

  /** `Parameter(key: "<name>", value: <value>)`. */
  function ParameterEntry(name: string, value: string): string {
    "Parameter(key: \"" + name + "\", value: " + value + ")"
  }

  /** `<name>.map { <element> }`: one generated element per array element. */
  function MapEach(name: string, element: string): string {
    name + ".map { " + element + " }"
  }

  /** The four-line `case` clause: match the key, destructure one tag, run one statement. */
  function CaseClause(name: string, tag: string, binder: string, statement: string): string {
    "case \"" + name + "\":\n    if case let ." + tag + "(" + binder + ", _) = parameter.value {\n        "
      + statement + "\n    }"
  }

  // ----- Snapshot entries -----

  /** `generateParameter`. */
  function GenerateParameter(name: string, typeText: string): (r: Result<string, MacroError>)
    ensures r.Success?
  {
    match Classify(typeText)
    case ArrayType(elementType) => GenerateArrayParameter(name, elementType)
    case SimpleType(typeName) => GenerateSimpleParameter(name, typeName)
  }

  /** `generateArrayParameter`: five scalar element types, anything else a nested element. */
  function GenerateArrayParameter(name: string, elementType: string): (r: Result<string, MacroError>)
    ensures r.Success?
  {
    match elementType
    case "String" => Success(ParameterEntry(name, Tagged("arrayValue", MapEach(name, Tagged("stringValue", "$0")))))
    case "Int" => Success(ParameterEntry(name, Tagged("arrayValue", MapEach(name, Tagged("intValue", "$0")))))
    case "Float" => Success(ParameterEntry(name, Tagged("arrayValue", MapEach(name, Tagged("floatValue", "$0")))))
    case "Double" => Success(ParameterEntry(name, Tagged("arrayValue", MapEach(name, Tagged("doubleValue", "$0")))))
    case "Bool" => Success(ParameterEntry(name, Tagged("arrayValue", MapEach(name, Tagged("boolValue", "$0")))))
    case _ => Success(ParameterEntry(name, Tagged("arrayValue", MapEach(name, Tagged("structValue", "$0.parameters")))))
  }

  /** `generateSimpleParameter`: ten scalar or optional names, anything else a nested value. */
  function GenerateSimpleParameter(name: string, typeName: string): (r: Result<string, MacroError>)
    ensures r.Success?
  {
    match typeName
    case "String" => Success(ParameterEntry(name, Tagged("stringValue", name)))
    case "String?" => Success(ParameterEntry(name, Tagged("optionalStringValue", name)))
    case "Int" => Success(ParameterEntry(name, Tagged("intValue", name)))
    case "Int?" => Success(ParameterEntry(name, Tagged("optionalIntValue", name)))
    case "Float" => Success(ParameterEntry(name, Tagged("floatValue", name)))
    case "Float?" => Success(ParameterEntry(name, Tagged("optionalFloatValue", name)))
    case "Double" => Success(ParameterEntry(name, Tagged("doubleValue", name)))
    case "Double?" => Success(ParameterEntry(name, Tagged("optionalDoubleValue", name)))
    case "Bool" => Success(ParameterEntry(name, Tagged("boolValue", name)))
    case "Bool?" => Success(ParameterEntry(name, Tagged("optionalBoolValue", name)))
    case _ => Success(ParameterEntry(name, Tagged("structValue", name + ".parameters")))
  }

  // ----- Apply cases -----

  /** The case labels of the two scalar branches of `generateCase` and of the scalar branch of `generateArrayCase`. */
  const PlainScalarNames: seq<string> := ["String", "Int", "Float", "Double", "Bool"]
  const OptionalScalarNames: seq<string> := ["String?", "Int?", "Float?", "Double?", "Bool?"]

  /** `generateCase`. */
  function GenerateCase(name: string, typeText: string): (r: Result<string, MacroError>)
    ensures r.Success?
  {
    match Classify(typeText)
    case ArrayType(elementType) => GenerateArrayCase(name, elementType)
    case SimpleType(typeName) =>
      if typeName in PlainScalarNames then
        Success(CaseClause(name, SimpleTypeToValueType(typeName), "value", name + " = value"))
      else if typeName in OptionalScalarNames then
        Success(CaseClause(name, SimpleTypeToValueType(typeName), "value", name + " = value"))
      else
        Success(CaseClause(name, "structValue", "parameters", name + ".updateParameters(parameters)"))
  }

  /** `generateArrayCase`: scalar elements are copied as they are, other elements rebuilt from their parameters. */
  function GenerateArrayCase(name: string, elementType: string): (r: Result<string, MacroError>)
    ensures r.Success?
  {
    if elementType in PlainScalarNames then
      Success(CaseClause(name, "arrayValue", "values", name + " = values.map { $0 }"))
    else
      Success(CaseClause(name, "arrayValue", "values", name + " = values.map { " + elementType + "(parameters: $0) }"))
  }

  /** `simpleTypeToValueType`: the ten-entry tag table. */
  function SimpleTypeToValueType(typeName: string): string {
    match typeName
    case "String" => "stringValue"
    case "String?" => "optionalStringValue"
    case "Int" => "intValue"
    case "Int?" => "optionalIntValue"
    case "Float" => "floatValue"
    case "Float?" => "optionalFloatValue"
    case "Double" => "doubleValue"
    case "Double?" => "optionalDoubleValue"
    case "Bool" => "boolValue"
    case "Bool?" => "optionalBoolValue"
    case _ => "unknownValue"
  }

  // ----- Expansion -----

  /** Swift's `compactMap`: the non-nil results, in order. */
  function CompactMap<A, B>(xs: seq<A>, f: A -> Option<B>): seq<B>
    decreases |xs|
  {
    if xs == [] then []
    else match f(xs[0])
      case Some(y) => [y] + CompactMap(xs[1..], f)
      case None => CompactMap(xs[1..], f)
  }

  /** The closure that builds `parameterDecls`. */
  function ParameterDecl(m: MemberDecl): Option<string> {
    match FieldOf(m)
    case None => None
    case Some(f) => GenerateParameter(f.name, f.typeText).ToOption()
  }

  /** The closure that builds `cases`. */
  function CaseDecl(m: MemberDecl): Option<string> {
    match FieldOf(m)
    case None => None
    case Some(f) => GenerateCase(f.name, f.typeText).ToOption()
  }

  const SnapshotHeader: string := "var parameters: [Parameter] {\n    return [\n        "
  const ApplyHeader: string := "\n    ]\n}\n\nfunc updateParameters(_ parameters: [Parameter]) {\n    for parameter in parameters {\n        switch parameter.key {\n        "
  const DefaultTail: string := "\n        default:\n            break\n        }\n    }\n}"

  /** `expansion`: one declaration holding the snapshot getter and the apply method. */
  function Expansion(members: seq<MemberDecl>): seq<string> {
    var parameterDecls := Join(CompactMap(members, ParameterDecl), ",\n");
    var cases := CompactMap(members, CaseDecl);
    [SnapshotHeader + parameterDecls + ApplyHeader + Join(cases, "\n") + DefaultTail]
  }
}
