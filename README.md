# DynamicParameters: snapshot/apply generation and the tagged-value model

This project models two pieces, each as Dafny functions, methods and lemmas.

The first piece is the member-generation logic of the Swift `@DynamicParameters`
attached macro. From the member declarations of a class, the macro writes the
source text of two members:

- `var parameters: [Parameter]`, a snapshot, as a list of key/tagged-value
  pairs, of every variable declaration whose first binding is an identifier
  with a type annotation (stored, computed or static alike);
- `func updateParameters(_:)`, which loops over such a list, switches on
  the key, and writes each well-tagged payload back.

The macro classifies each property by its type text. It trims the text. Text
wrapped in `[`…`]` is an array, with the trimmed interior as its element type.
The ten scalar and optional-scalar names each have their own `ValueType` tag.
Every other type is a nested structure.

The second piece is the tagged-value model (`ValueType`, `Parameter`) and the
two hand-written classes `SubRequest` and `SampleRequest`. Their
`parameters`/`updateParameters` pairs are what the macro is meant to produce.
`updateParameters` is a loop that overwrites fields in place. For the nested
`subRequest` it calls `updateParameters` on the referenced object.

Layout:

- `wrappers.dfy`, module `Wrappers`: `Option` and `Result`. A Swift `throws`
  function returns a `Result`; `try?` is `ToOption`.
- `value_type.dfy`, module `ValueTypes`: `ValueType`, `Parameter`, Swift's
  case names.
- `requests.dfy`, module `Requests`: the value-level meaning of both classes.
  - The snapshot functions.
  - The apply step and its fold over a parameter list.
  - A reference definition `Latest` of "the last well-tagged entry wins".
  - The lemmas about all of these.
- `request_objects.dfy`, module `RequestObjects`: the two classes.
  - Each has fields, a `Parameters` getter and an `UpdateParameters` loop.
  - Each `UpdateParameters` is proved to reach exactly the state that
    `Requests` computes.
- `text.dfy`, module `SwiftText`: the few Swift string operations the macro
  uses.
  - `trimmingCharacters(in: .whitespacesAndNewlines)`, with Foundation's
    whitespace-and-newline set.
  - `hasPrefix`/`hasSuffix` and `joined(separator:)`.
- `dynamic_parameters_macro.dfy`, module `DynamicParametersMacro`: the
  member guard, the classifier, the five generators (`generateParameter`,
  `generateArrayParameter`, `generateSimpleParameter`, `generateCase`,
  `generateArrayCase`), the tag table, and the assembled expansion text.
- `macro_properties.dfy`, module `MacroProperties`: what the generators
  promise.
  - The tag table knows exactly ten names.
  - The snapshot entry and the apply case of a field use one tag.
  - Both lists come from the same guard, in member order.
  - Nothing is ever dropped by `try?`.
  - The shape of the assembled text.
- `agreement.dfy`, module `HandWrittenAgreement`: the macro applied to the
  declarations of `SubRequest` and `SampleRequest` in
  `MyMacro/Sources/MyMacroClient/main.swift`. Each field that the hand-written
  `parameters` in `APITest/ValueType.swift` lists gets the key and the tag that
  list uses. The macro also sees `requests: [SubRequest]`, which the
  hand-written list lacks; it becomes an array of nested requests.

## Model

| member | source | states |
|---|---|---|
| DynamicParametersMacro.Classify | MyMacro/Sources/MyMacroMacros/DynamicParametersMacro.swift:74-79 | a type is an array exactly when its trimmed text has two or more characters and starts with `[` and ends with `]`; the element type is the interior with first and last character dropped, trimmed again; otherwise the simple type name is the trimmed text |
| DynamicParametersMacro.GenerateParameter | MyMacro/Sources/MyMacroMacros/DynamicParametersMacro.swift:73-84 | never throws, for any name and type text |
| DynamicParametersMacro.GenerateArrayParameter | MyMacro/Sources/MyMacroMacros/DynamicParametersMacro.swift:87-115 | never throws, for any element type |
| DynamicParametersMacro.GenerateSimpleParameter | MyMacro/Sources/MyMacroMacros/DynamicParametersMacro.swift:118-143 | never throws, for any type name |
| DynamicParametersMacro.GenerateCase | MyMacro/Sources/MyMacroMacros/DynamicParametersMacro.swift:146-178 | never throws, for any name and type text |
| DynamicParametersMacro.GenerateArrayCase | MyMacro/Sources/MyMacroMacros/DynamicParametersMacro.swift:181-198 | never throws, for any element type |
| MacroProperties.TagTableKnowsExactlyTen | MyMacro/Sources/MyMacroMacros/DynamicParametersMacro.swift:201-215 | the tag table answers something other than `unknownValue` if and only if the name is one of the ten scalar and optional-scalar names |
| MacroProperties.TagTableInjective | MyMacro/Sources/MyMacroMacros/DynamicParametersMacro.swift:202-212 | on the ten names the tag table is injective |
| MacroProperties.SimpleParameterTag | MyMacro/Sources/MyMacroMacros/DynamicParametersMacro.swift:119-139 | each of the ten names gives the entry `Parameter(key: "<name>", value: .<tag>(<name>, defaultValue: <name>))`, where the tag is the one the tag table gives that name |
| MacroProperties.SimpleParameterNested | MyMacro/Sources/MyMacroMacros/DynamicParametersMacro.swift:140-141 | every other type name gives `.structValue(<name>.parameters, defaultValue: <name>.parameters)` under the field's key |
| MacroProperties.ArrayParameterShape | MyMacro/Sources/MyMacroMacros/DynamicParametersMacro.swift:88-114 | an array of one of the five plain scalars maps each element into that scalar's tag; any other element type maps each element into `.structValue($0.parameters, defaultValue: $0.parameters)`; one expression is both value and default |
| MacroProperties.GeneratorsAgree | MyMacro/Sources/MyMacroMacros/DynamicParametersMacro.swift:73-178 | for every name and type text, both generators succeed and follow one classification. The snapshot entry is keyed by the name and repeats one payload as value and default. The apply case matches the same tag the entry builds: `.arrayValue` for every array, `.structValue` for every nested type, and a scalar array copies `values.map { $0 }` while a nested array rebuilds its elements |
| MacroProperties.OptionalSuffixNotArray | MyMacro/Sources/MyMacroMacros/DynamicParametersMacro.swift:76-83 | a type text ending in `?` (such as `[Int]?` or `SubRequest?`) is never classified as an array; unless it is one of the five optional scalars it becomes a nested structValue |
| MacroProperties.CompactMapConcat | MyMacro/Sources/MyMacroMacros/DynamicParametersMacro.swift:29-38 | `compactMap` keeps order: its result on `xs + ys` is its result on `xs` followed by its result on `ys` |
| MacroProperties.FirstBindingOnly | MyMacro/Sources/MyMacroMacros/DynamicParametersMacro.swift:30-33 | only the first binding of a declaration decides whether and how it is a field |
| MacroProperties.ExpansionLists | MyMacro/Sources/MyMacroMacros/DynamicParametersMacro.swift:29-49 | the snapshot entries and the apply cases are the two generators applied to the same guarded fields, one entry each, in member order; `try?` drops none, so both lists have as many entries as there are fields |
| MacroProperties.ExpansionText | MyMacro/Sources/MyMacroMacros/DynamicParametersMacro.swift:51-69 | the macro returns one declaration: the entries joined by `",\n"` inside `return [...]`, then the loop over the input whose `switch` holds the cases joined by newlines; it starts with the snapshot getter and always ends with `default: break` |
| SwiftText.TrimRemovesOnlySpace | MyMacro/Sources/MyMacroMacros/DynamicParametersMacro.swift:74 | everything trimming cuts from either end is whitespace or newline |
| SwiftText.TrimLeavesNoOuterSpace | MyMacro/Sources/MyMacroMacros/DynamicParametersMacro.swift:147 | the trimmed text neither starts nor ends with whitespace or newline |
| SwiftText.TrimUnchanged | MyMacro/Sources/MyMacroMacros/DynamicParametersMacro.swift:78 | text that does not start or end with whitespace is left as it is |
| HandWrittenAgreement.SubRequestFields | MyMacro/Sources/MyMacroClient/main.swift:19-29 | the guard turns `SubRequest`'s members into the fields `name: String`, `success: Bool`, `subTitle: String?`, in that order, and skips the initializer |
| HandWrittenAgreement.SampleRequestFields | MyMacro/Sources/MyMacroClient/main.swift:4-16 | the guard turns `SampleRequest`'s members into `command`, `duration`, `subRequest`, `requests` with their type texts, in that order |
| HandWrittenAgreement.SubRequestAgrees | APITest/ValueType.swift:84-90 | field by field, the macro's classification of `SubRequest` uses the key and the `ValueType` case of the hand-written snapshot |
| HandWrittenAgreement.SampleRequestAgrees | APITest/ValueType.swift:53-59 | the same for the three fields `SampleRequest`'s hand-written snapshot lists |
| HandWrittenAgreement.SampleRequestExtraField | MyMacro/Sources/MyMacroClient/main.swift:8 | the macro also sees `requests: [SubRequest]` and treats it as an array of nested requests; the hand-written snapshot has no such key |
| HandWrittenAgreement.KindOfSubRequestArray | MyMacro/Sources/MyMacroMacros/DynamicParametersMacro.swift:76-79 | the type text `[SubRequest]` is an array whose element type `SubRequest` is not a scalar |
| ValueTypes.Keys | APITest/ValueType.swift:18-21 | the keys of a parameter list, one per entry, in list order |
| Requests.SubParameters | APITest/ValueType.swift:84-90 | exactly three entries keyed `name`, `success`, `subTitle` in that order, tagged string, bool and optionalString, each with its default equal to its current value |
| Requests.LatestIsLastPick | APITest/ValueType.swift:93-106 | the reference meaning of "the last well-tagged entry wins": if entry `j` is well tagged for a field and no later one is, the field ends up holding entry `j`'s payload |
| Requests.LatestWithoutPick | APITest/ValueType.swift:93-108 | with no well-tagged entry for a field, the field keeps its value |
| Requests.SubUpdateFieldwise | APITest/ValueType.swift:92-111 | after the loop each of `name`, `success`, `subTitle` holds the payload of the last entry with its key and its case, or its old value when there is none |
| Requests.SubUnknownKeysIgnored | APITest/ValueType.swift:107-108 | a list whose keys name no field leaves every field unchanged |
| Requests.SubMismatchIgnored | APITest/ValueType.swift:96-106 | an entry whose key names a field but whose case is not that field's case (for example `"success"` with `.stringValue`) changes nothing |
| Requests.SubMismatchAnywhere | APITest/ValueType.swift:93-106 | an entry whose key names a field but whose case is wrong changes nothing wherever it stands in the list |
| Requests.SubTitleNilClears | APITest/ValueType.swift:103-106 | an `.optionalStringValue(nil, _)` entry sets `subTitle` to nil, whatever its default payload says, and changes no other field |
| Requests.SubUpdateConcat | APITest/ValueType.swift:93 | entries are processed in list order: applying `a + b` is applying `a` and then `b` |
| Requests.SubSnapshotOverwrites | APITest/ValueType.swift:84-111 | applying the snapshot of any state `s` onto any state yields exactly `s` |
| Requests.SubRoundTrip | APITest/ValueType.swift:84-111 | applying an object's own snapshot changes nothing, so the snapshot afterwards equals the one before |
| Requests.SampleParameters | APITest/ValueType.swift:53-59 | exactly three entries keyed `command`, `duration`, `subRequest` in that order, tagged string and int; the third is `.structValue(subRequest.parameters, defaultValue: subRequest.parameters)`; every default equals its current value |
| Requests.SampleUpdateFieldwise | APITest/ValueType.swift:61-80 | after the loop `command` and `duration` hold the payload of their last well-tagged entry, or their old value. The nested request receives every well-tagged `subRequest` list, concatenated in list order, and nothing else |
| Requests.SampleUpdateConcat | APITest/ValueType.swift:62 | entries are processed in list order: applying `a + b` is applying `a` and then `b`, nested fields included, so a no-op entry anywhere in the list changes nothing |
| Requests.SampleMismatchAnywhere | APITest/ValueType.swift:62-75 | an entry whose key names a field but whose case is wrong changes nothing wherever it stands in the list, nested fields included |
| Requests.SampleNestedDelegates | APITest/ValueType.swift:72-75 | a well-tagged `subRequest` entry applies its list to the nested request and leaves `command` and `duration` alone |
| Requests.SampleUnknownKeysIgnored | APITest/ValueType.swift:76-77 | a list whose keys name no field leaves every field unchanged, nested fields included |
| Requests.SampleMismatchIgnored | APITest/ValueType.swift:65-75 | an entry whose key names a field but whose case is wrong (for example `"duration"` with `.stringValue`) changes nothing |
| Requests.SampleLastDurationWins | APITest/ValueType.swift:62-71 | among several `duration` entries the last one carrying `.intValue` determines the field |
| Requests.SampleSnapshotOverwrites | APITest/ValueType.swift:53-80 | applying the snapshot of any state `s` onto any state yields exactly `s`, nested fields included |
| Requests.SampleRoundTrip | APITest/ValueType.swift:53-111 | applying an object's own snapshot changes nothing, nested fields included, so the snapshot afterwards equals the one before |
| RequestObjects.SubRequest.constructor | APITest/ValueType.swift:45-49 | the new object holds the three given values |
| RequestObjects.SubRequest.Parameters | APITest/ValueType.swift:84-90 | the getter is the snapshot of the object's current state, and applying it to that state changes nothing |
| RequestObjects.SubRequest.UpdateParameters | APITest/ValueType.swift:92-111 | the loop changes only the object's own fields and leaves them in the state the fold of the per-entry step computes from the old state |
| RequestObjects.SampleRequest.constructor | APITest/ValueType.swift:33-37 | the new object holds the given values and refers to the given `SubRequest` |
| RequestObjects.SampleRequest.Parameters | APITest/ValueType.swift:53-59 | the getter is the snapshot of the object's current state, the nested entry being the referenced object's own snapshot, and applying it changes nothing |
| RequestObjects.SampleRequest.UpdateParameters | APITest/ValueType.swift:61-80 | the loop writes only `command`, `duration` and the referenced `SubRequest`. It never replaces the reference, and it reaches the state the fold of the per-entry step computes, with nested lists applied to the referenced object in place |
| RequestObjects.RoundTrip | APITest/ValueType.swift:53-111 | `r.updateParameters(r.parameters)` keeps the same nested reference and leaves the state, and so `r.parameters`, as they were |

## Left out

- The SwiftSyntax traversal is not modelled (`DynamicParametersMacro.swift:1-26`, `30-33`). A member is reduced to what the guard reads: whether it is a variable declaration, and its first binding's pattern and type annotation. This covers the `CompilerPlugin` registration, `DeclGroupSyntax`, and the conversion of the generated text into `DeclSyntax`. A type annotation is modelled as its raw text, which is what `TypeSyntax.description` yields before trimming.
- `MacroError` and `throws`: no generator throws. The `Result` wrapping lets the model say so (`ensures r.Success?`), and `try?` is modelled as `ToOption`.
- The model does not check whether the generated Swift type-checks. For example, `values.map { $0 }` at `DynamicParametersMacro.swift:187` assigns a `[ValueType]` to a typed array, and `init(parameters:)` at `:194` exists nowhere. The text is modelled as written.
- The literals of the generators are assembled from four template functions, which yield the same characters. Swift's indentation stripping of multi-line literals is applied by hand in these templates and in the expansion constants.
  - `generateArrayParameter` (six literals, `DynamicParametersMacro.swift:90-113`) and `generateSimpleParameter` (eleven literals, `:121-141`) are built from `ParameterEntry` and `Tagged`, and the array ones also from `MapEach`. Within each function the literals differ only in the tag and the payload.
  - The five literals of `generateCase` and `generateArrayCase` (`:157-196`) are built from `CaseClause`.
- Strings are sequences of Unicode scalars. Swift compares `String` by grapheme clusters and canonical equivalence, which the model does not reproduce.
- `Float` and `Double` payloads are modelled as their bit patterns (`bv32`, `bv64`), because they are only stored, never computed on. `Int` is a 64-bit range with no arithmetic on it.
- The `DynamicParameters` protocol (`ValueType.swift:23-26`) has no counterpart in the model. Both classes implement its two members directly.
- `SubRequest`'s `subTitle = nil` default argument: the constructor always takes all three values.
- Aliasing: no property covers two `SampleRequest`s that share one `SubRequest`. `RoundTrip` is stated for a single object together with its own nested request.
- Other bracketed types: any trimmed type text that starts with `[` and ends with `]` is classified as an array, whatever is between. `Classify`'s contract covers these cases; no separate lemma is about them.
  - A dictionary `[String: Int]` gets the element type `String: Int`.
  - A function type `[Int] -> [Int]` gets the element type `Int] -> [Int` and becomes a nested-element `arrayValue`.
- `APITest/ContentView.swift` is not part of this model. It is commented out and is SwiftUI reflection code.
- `MyMacro/Sources/MyMacro/MyMacro.swift` is not part of this model. It only declares the macros.
- `MyMacro/Sources/MyMacroClient/main.swift` is used only as sample input for the agreement lemmas.
- Concurrency: nothing in the core is concurrent.

## Notes

- No guarded member is dropped because of its type. A field whose type text is neither an array nor one of the ten names becomes a nested `structValue`; this includes optional nested types such as `SubRequest?` and function types unless their text starts with `[` and ends with `]` (see "## Left out"). `try?` never drops a guarded member (`ExpansionLists`, `OptionalSuffixNotArray`).
- The guard itself does drop declarations (`DynamicParametersMacro.swift:30-33`, `FirstBindingOnly`).
  - `var count = 0` has no type annotation, so it is dropped.
  - In `var a: Int, b: Int` only the first binding `a` is used.
  - `var a, b: Int` is dropped entirely, because the annotation belongs to the second binding.
