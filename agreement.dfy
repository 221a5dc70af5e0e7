/**
 * The macro applied to the declarations of `SubRequest` and `SampleRequest`
 * classifies each field with the tag that their hand-written `parameters`
 * uses, under the same key and in the same order.
 */
module HandWrittenAgreement {
  import opened Wrappers
  import opened SwiftText
  import opened ValueTypes
  import opened Requests
  import opened DynamicParametersMacro
  import opened MacroProperties

  /** `var <name>: <typeText>`, a single annotated identifier binding. */
  function Var(name: string, typeText: string): MemberDecl {
    VariableDecl([PatternBinding(IdentifierPattern(name), Some(typeText))])
  }

  /** The members of `SubRequest`: three stored properties and the initializer. */
  const SubRequestMembers: seq<MemberDecl> :=
    [Var("name", "String"), Var("success", "Bool"), Var("subTitle", "String?"), OtherDecl]

  /** The members of the macro-annotated `SampleRequest`, which adds `requests: [SubRequest]`. */
  const SampleRequestMembers: seq<MemberDecl> :=
    [Var("command", "String"), Var("duration", "Int"), Var("subRequest", "SubRequest"),
     Var("requests", "[SubRequest]"), OtherDecl]

  lemma SubRequestFields()
    ensures FieldsOf(SubRequestMembers) == [Field("name", "String"), Field("success", "Bool"), Field("subTitle", "String?")]
  {
  }

  lemma SampleRequestFields()
    ensures FieldsOf(SampleRequestMembers)
         == [Field("command", "String"), Field("duration", "Int"), Field("subRequest", "SubRequest"),
             Field("requests", "[SubRequest]")]
  {
  }

  lemma KindOfString()
    ensures KindOf("String") == Scalar("stringValue")
  {
    TrimUnchanged("String");
  }

  lemma KindOfBool()
    ensures KindOf("Bool") == Scalar("boolValue")
  {
    TrimUnchanged("Bool");
  }

  lemma KindOfOptionalString()
    ensures KindOf("String?") == Scalar("optionalStringValue")
  {
    TrimUnchanged("String?");
  }

  lemma KindOfInt()
    ensures KindOf("Int") == Scalar("intValue")
  {
    TrimUnchanged("Int");
  }

  lemma KindOfSubRequest()
    ensures KindOf("SubRequest") == Nested
  {
    TrimUnchanged("SubRequest");
  }

  lemma ClassifySubRequestArray()
    ensures Classify("[SubRequest]") == ArrayType("SubRequest")
  {
    var t := "[SubRequest]";
    TrimUnchanged(t);
    assert t[1..|t| - 1] == "SubRequest";
    TrimUnchanged("SubRequest");
  }

  lemma KindOfSubRequestArray()
    ensures KindOf("[SubRequest]") == NestedArray("SubRequest")
  {
    ClassifySubRequestArray();
    assert "SubRequest" !in PlainScalarNames;
  }

  /** A generated entry for `f` and the hand-written entry `p` use the same key and the same case. */
  predicate Agree(f: Field, p: Parameter) {
    f.name == p.key && MatchedTag(KindOf(f.typeText)) == CaseName(p.value)
  }

  lemma SubAgreesAt0(s: SubFields)
    ensures Agree(FieldsOf(SubRequestMembers)[0], SubParameters(s)[0])
  {
    SubRequestFields();
    KindOfString();
  }

  lemma SubAgreesAt1(s: SubFields)
    ensures Agree(FieldsOf(SubRequestMembers)[1], SubParameters(s)[1])
  {
    SubRequestFields();
    KindOfBool();
  }

  lemma SubAgreesAt2(s: SubFields)
    ensures Agree(FieldsOf(SubRequestMembers)[2], SubParameters(s)[2])
  {
    SubRequestFields();
    KindOfOptionalString();
  }

  lemma SampleAgreesAt0(s: SampleFields)
    ensures Agree(FieldsOf(SampleRequestMembers)[0], SampleParameters(s)[0])
  {
    SampleRequestFields();
    KindOfString();
  }

  lemma SampleAgreesAt1(s: SampleFields)
    ensures Agree(FieldsOf(SampleRequestMembers)[1], SampleParameters(s)[1])
  {
    SampleRequestFields();
    KindOfInt();
  }

  lemma SampleAgreesAt2(s: SampleFields)
    ensures Agree(FieldsOf(SampleRequestMembers)[2], SampleParameters(s)[2])
  {
    SampleRequestFields();
    KindOfSubRequest();
  }

  /** Field by field, the macro's snapshot of `SubRequest` uses the keys and cases of the hand-written one. */
  lemma SubRequestAgrees(s: SubFields)
    ensures var fs, ps := FieldsOf(SubRequestMembers), SubParameters(s);
      |fs| == |ps| && forall i :: 0 <= i < |fs| ==> Agree(fs[i], ps[i])
  {
    SubRequestFields();
    SubAgreesAt0(s);
    SubAgreesAt1(s);
    SubAgreesAt2(s);
  }

  /** The same for the three fields `SampleRequest`'s hand-written snapshot lists. */
  lemma SampleRequestAgrees(s: SampleFields)
    ensures var fs, ps := FieldsOf(SampleRequestMembers), SampleParameters(s);
      |fs| == |ps| + 1 && forall i :: 0 <= i < |ps| ==> Agree(fs[i], ps[i])
  {
    SampleRequestFields();
    SampleAgreesAt0(s);
    SampleAgreesAt1(s);
    SampleAgreesAt2(s);
  }

  /**
   * The macro-visible declaration of `SampleRequest` also has
   * `requests: [SubRequest]`, which the macro treats as an array of nested
   * requests and the hand-written snapshot does not list.
   */
  lemma SampleRequestExtraField()
    ensures var fs := FieldsOf(SampleRequestMembers);
      |fs| == 4 && fs[3].name == "requests" && KindOf(fs[3].typeText) == NestedArray("SubRequest")
  {
    SampleRequestFields();
    KindOfSubRequestArray();
  }
}
