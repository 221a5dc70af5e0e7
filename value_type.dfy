/** The tagged-value model every snapshot and apply operation works on. */
module ValueTypes {
  import opened Wrappers

  /** Swift's `Int`: stored and compared, never computed on. */
  newtype Int64 = x: int | -0x8000_0000_0000_0000 <= x < 0x8000_0000_0000_0000

  /** Swift's `Float` and `Double`, kept as their IEEE bit patterns: payloads are only stored. */
  type Float = bv32
  type Double = bv64

  /**
   * One case per Swift `ValueType` case; each carries the current payload
   * and the `defaultValue` payload, in that order.
   */
  datatype ValueType =
    | IntValue(Int64, Int64)
    | OptionalIntValue(Option<Int64>, Option<Int64>)
    | FloatValue(Float, Float)
    | OptionalFloatValue(Option<Float>, Option<Float>)
    | DoubleValue(Double, Double)
    | OptionalDoubleValue(Option<Double>, Option<Double>)
    | StringValue(string, string)
    | OptionalStringValue(Option<string>, Option<string>)
    | BoolValue(bool, bool)
    | OptionalBoolValue(Option<bool>, Option<bool>)
    | ArrayValue(values: seq<ValueType>, defaultValues: seq<ValueType>)
    | StructValue(fields: seq<Parameter>, defaultFields: seq<Parameter>)

  datatype Parameter = Parameter(key: string, value: ValueType)

  /** The Swift case name of a value, as the generated code spells it after the leading dot. */
  function CaseName(v: ValueType): string {
    match v
    case IntValue(_, _) => "intValue"
    case OptionalIntValue(_, _) => "optionalIntValue"
    case FloatValue(_, _) => "floatValue"
    case OptionalFloatValue(_, _) => "optionalFloatValue"
    case DoubleValue(_, _) => "doubleValue"
    case OptionalDoubleValue(_, _) => "optionalDoubleValue"
    case StringValue(_, _) => "stringValue"
    case OptionalStringValue(_, _) => "optionalStringValue"
    case BoolValue(_, _) => "boolValue"
    case OptionalBoolValue(_, _) => "optionalBoolValue"
    case ArrayValue(_, _) => "arrayValue"
    case StructValue(_, _) => "structValue"
  }

  /** The default payload is the current payload (what every snapshot produces). */
  predicate DefaultIsCurrent(v: ValueType) {
    match v
    case IntValue(c, d) => c == d
    case OptionalIntValue(c, d) => c == d
    case FloatValue(c, d) => c == d
    case OptionalFloatValue(c, d) => c == d
    case DoubleValue(c, d) => c == d
    case OptionalDoubleValue(c, d) => c == d
    case StringValue(c, d) => c == d
    case OptionalStringValue(c, d) => c == d
    case BoolValue(c, d) => c == d
    case OptionalBoolValue(c, d) => c == d
    case ArrayValue(c, d) => c == d
    case StructValue(c, d) => c == d
  }

  /** The keys of a parameter list, in list order. */
  function Keys(ps: seq<Parameter>): (ks: seq<string>)
    ensures |ks| == |ps|
    ensures forall i :: 0 <= i < |ps| ==> ks[i] == ps[i].key
  {
    if ps == [] then [] else [ps[0].key] + Keys(ps[1..])
  }
}
