/**
 * What the hand-written `parameters` / `updateParameters` pair of `SubRequest`
 * and `SampleRequest` computes, stated on the field values of one object.
 * The classes in module RequestObjects are proved to follow these functions.
 */
module Requests {
  import opened Wrappers
  import opened ValueTypes

  /** The fields of a `SubRequest`. */
  datatype SubFields = SubFields(name: string, success: bool, subTitle: Option<string>)

  /** The fields of a `SampleRequest`, with those of the `SubRequest` it refers to. */
  datatype SampleFields = SampleFields(command: string, duration: Int64, subRequest: SubFields)

  // ----- Last well-tagged entry for one field -----

  /**
   * The payload of the last entry of `ps` that `pick` accepts, or `init`
   * when it accepts none: the reference meaning of "the last match wins".
   */
  function Latest<T>(ps: seq<Parameter>, pick: Parameter -> Option<T>, init: T): T
    decreases |ps|
  {
    if ps == [] then init
    else match pick(ps[|ps| - 1])
      case Some(v) => v
      case None => Latest(ps[..|ps| - 1], pick, init)
  }

  lemma {:induction false} LatestIsLastPick<T>(ps: seq<Parameter>, pick: Parameter -> Option<T>, init: T, j: nat)
    requires j < |ps| && pick(ps[j]).Some?
    requires forall k :: j < k < |ps| ==> pick(ps[k]).None?
    ensures Latest(ps, pick, init) == pick(ps[j]).value
    decreases |ps|
  {
    if j < |ps| - 1 {
      var front := ps[..|ps| - 1];
      assert front[j] == ps[j];
      forall k | j < k < |front| ensures pick(front[k]).None? {
        assert front[k] == ps[k];
      }
      LatestIsLastPick(front, pick, init, j);
    }
  }

  lemma {:induction false} LatestWithoutPick<T>(ps: seq<Parameter>, pick: Parameter -> Option<T>, init: T)
    requires forall k :: 0 <= k < |ps| ==> pick(ps[k]).None?
    ensures Latest(ps, pick, init) == init
    decreases |ps|
  {
    if ps != [] {
      var front := ps[..|ps| - 1];
      forall k | 0 <= k < |front| ensures pick(front[k]).None? {
        assert front[k] == ps[k];
      }
      LatestWithoutPick(front, pick, init);
    }
  }

  // ----- SubRequest -----

  const SubKeys: set<string> := {"name", "success", "subTitle"}

  /** `SubRequest.parameters`. */
  function SubParameters(s: SubFields): (ps: seq<Parameter>)
    ensures Keys(ps) == ["name", "success", "subTitle"]
    ensures CaseName(ps[0].value) == "stringValue" && CaseName(ps[1].value) == "boolValue"
      && CaseName(ps[2].value) == "optionalStringValue"
    ensures forall i :: 0 <= i < |ps| ==> DefaultIsCurrent(ps[i].value)
  {
    [ Parameter("name", StringValue(s.name, s.name)),
      Parameter("success", BoolValue(s.success, s.success)),
      Parameter("subTitle", OptionalStringValue(s.subTitle, s.subTitle)) ]
  }

  /** One iteration of the loop in `SubRequest.updateParameters`. */
  function SubEntry(s: SubFields, p: Parameter): SubFields {
    match p.key
    case "name" => (match p.value case StringValue(v, _) => s.(name := v) case _ => s)
    case "success" => (match p.value case BoolValue(v, _) => s.(success := v) case _ => s)
    case "subTitle" => (match p.value case OptionalStringValue(v, _) => s.(subTitle := v) case _ => s)
    case _ => s
  }

  /** `SubRequest.updateParameters`: the entries are applied in list order. */
  function SubUpdate(s: SubFields, ps: seq<Parameter>): SubFields
    decreases |ps|
  {
    if ps == [] then s else SubEntry(SubUpdate(s, ps[..|ps| - 1]), ps[|ps| - 1])
  }

  function PickName(p: Parameter): Option<string> {
    if p.key == "name" then (match p.value case StringValue(v, _) => Some(v) case _ => None) else None
  }

  function PickSuccess(p: Parameter): Option<bool> {
    if p.key == "success" then (match p.value case BoolValue(v, _) => Some(v) case _ => None) else None
  }

  function PickSubTitle(p: Parameter): Option<Option<string>> {
    if p.key == "subTitle" then (match p.value case OptionalStringValue(v, _) => Some(v) case _ => None) else None
  }

  /** Each field ends up holding the payload of the last well-tagged entry for its key, or keeps its value. */
  lemma {:induction false} SubUpdateFieldwise(s: SubFields, ps: seq<Parameter>)
    ensures SubUpdate(s, ps) == SubFields(Latest(ps, PickName, s.name),
                                          Latest(ps, PickSuccess, s.success),
                                          Latest(ps, PickSubTitle, s.subTitle))
    decreases |ps|
  {
    if ps != [] {
      SubUpdateFieldwise(s, ps[..|ps| - 1]);
    }
  }

  /** Applying a list whose keys name no field changes nothing. */
  lemma SubUnknownKeysIgnored(s: SubFields, ps: seq<Parameter>)
    requires forall k :: 0 <= k < |ps| ==> ps[k].key !in SubKeys
    ensures SubUpdate(s, ps) == s
  {
    SubUpdateFieldwise(s, ps);
    LatestWithoutPick(ps, PickName, s.name);
    LatestWithoutPick(ps, PickSuccess, s.success);
    LatestWithoutPick(ps, PickSubTitle, s.subTitle);
  }

  /** An entry whose key names a field but whose case is not that field's is a no-op. */
  lemma SubMismatchIgnored(s: SubFields, ps: seq<Parameter>, p: Parameter)
    requires p.key == "name" ==> !p.value.StringValue?
    requires p.key == "success" ==> !p.value.BoolValue?
    requires p.key == "subTitle" ==> !p.value.OptionalStringValue?
    ensures SubUpdate(s, ps + [p]) == SubUpdate(s, ps)
  {
    assert (ps + [p])[..|ps|] == ps;
  }

  /** An entry with a known key and the wrong case is a no-op wherever it stands in the list. */
  lemma SubMismatchAnywhere(s: SubFields, a: seq<Parameter>, p: Parameter, b: seq<Parameter>)
    requires p.key == "name" ==> !p.value.StringValue?
    requires p.key == "success" ==> !p.value.BoolValue?
    requires p.key == "subTitle" ==> !p.value.OptionalStringValue?
    ensures SubUpdate(s, a + [p] + b) == SubUpdate(s, a + b)
  {
    SubUpdateConcat(s, a + [p], b);
    SubMismatchIgnored(s, a, p);
    SubUpdateConcat(s, a, b);
  }

  /** An `optionalStringValue(nil, _)` entry clears `subTitle` whatever its default says. */
  lemma SubTitleNilClears(s: SubFields, ps: seq<Parameter>, d: Option<string>)
    ensures SubUpdate(s, ps + [Parameter("subTitle", OptionalStringValue(None, d))])
         == SubUpdate(s, ps).(subTitle := None)
  {
    assert (ps + [Parameter("subTitle", OptionalStringValue(None, d))])[..|ps|] == ps;
  }

  /** Applying `a + b` is applying `a`, then `b`. */
  lemma {:induction false} SubUpdateConcat(s: SubFields, a: seq<Parameter>, b: seq<Parameter>)
    ensures SubUpdate(s, a + b) == SubUpdate(SubUpdate(s, a), b)
    decreases |b|
  {
    if b == [] {
      assert a + b == a;
    } else {
      assert (a + b)[..|a + b| - 1] == a + b[..|b| - 1];
      SubUpdateConcat(s, a, b[..|b| - 1]);
    }
  }

  /** Applying the snapshot of `s` onto any state yields `s`; with `t == s` it is the round trip. */
  lemma SubSnapshotOverwrites(t: SubFields, s: SubFields)
    ensures SubUpdate(t, SubParameters(s)) == s
  {
    var ps := SubParameters(s);
    assert ps[..1][..0] == [];
    assert ps[..2][..1] == ps[..1];
    assert ps[..|ps| - 1] == ps[..2];
    assert SubUpdate(t, ps[..1]) == t.(name := s.name);
    assert SubUpdate(t, ps[..2]) == t.(name := s.name, success := s.success);
  }

  /** Round trip: applying an object's own snapshot changes nothing, so the snapshot afterwards is the same. */
  lemma SubRoundTrip(s: SubFields)
    ensures SubUpdate(s, SubParameters(s)) == s
    ensures SubParameters(SubUpdate(s, SubParameters(s))) == SubParameters(s)
  {
    SubSnapshotOverwrites(s, s);
  }

  // ----- SampleRequest -----

  const SampleKeys: set<string> := {"command", "duration", "subRequest"}

  /** `SampleRequest.parameters`: the nested snapshot is both payload and default of the structValue entry. */
  function SampleParameters(s: SampleFields): (ps: seq<Parameter>)
    ensures Keys(ps) == ["command", "duration", "subRequest"]
    ensures CaseName(ps[0].value) == "stringValue" && CaseName(ps[1].value) == "intValue"
      && ps[2].value == StructValue(SubParameters(s.subRequest), SubParameters(s.subRequest))
    ensures forall i :: 0 <= i < |ps| ==> DefaultIsCurrent(ps[i].value)
  {
    [ Parameter("command", StringValue(s.command, s.command)),
      Parameter("duration", IntValue(s.duration, s.duration)),
      Parameter("subRequest", StructValue(SubParameters(s.subRequest), SubParameters(s.subRequest))) ]
  }

  /** One iteration of the loop in `SampleRequest.updateParameters`; a structValue is applied to the nested object. */
  function SampleEntry(s: SampleFields, p: Parameter): SampleFields {
    match p.key
    case "command" => (match p.value case StringValue(v, _) => s.(command := v) case _ => s)
    case "duration" => (match p.value case IntValue(v, _) => s.(duration := v) case _ => s)
    case "subRequest" =>
      (match p.value case StructValue(v, _) => s.(subRequest := SubUpdate(s.subRequest, v)) case _ => s)
    case _ => s
  }

  /** `SampleRequest.updateParameters`. */
  function SampleUpdate(s: SampleFields, ps: seq<Parameter>): SampleFields
    decreases |ps|
  {
    if ps == [] then s else SampleEntry(SampleUpdate(s, ps[..|ps| - 1]), ps[|ps| - 1])
  }

  function PickCommand(p: Parameter): Option<string> {
    if p.key == "command" then (match p.value case StringValue(v, _) => Some(v) case _ => None) else None
  }

  function PickDuration(p: Parameter): Option<Int64> {
    if p.key == "duration" then (match p.value case IntValue(v, _) => Some(v) case _ => None) else None
  }

  /** The nested lists of all well-tagged `subRequest` entries, concatenated in list order. */
  function NestedParameters(ps: seq<Parameter>): seq<Parameter>
    decreases |ps|
  {
    if ps == [] then []
    else
      var last := ps[|ps| - 1];
      NestedParameters(ps[..|ps| - 1])
        + (if last.key == "subRequest" then (match last.value case StructValue(v, _) => v case _ => []) else [])
  }

  /**
   * `command` and `duration` take the last well-tagged payload for their key;
   * the nested object receives every nested list, in order, and nothing else.
   */
  lemma {:induction false} SampleUpdateFieldwise(s: SampleFields, ps: seq<Parameter>)
    ensures SampleUpdate(s, ps) == SampleFields(Latest(ps, PickCommand, s.command),
                                                Latest(ps, PickDuration, s.duration),
                                                SubUpdate(s.subRequest, NestedParameters(ps)))
    decreases |ps|
  {
    if ps != [] {
      var front, last := ps[..|ps| - 1], ps[|ps| - 1];
      SampleUpdateFieldwise(s, front);
      var before := SampleUpdate(s, front);
      assert SampleUpdate(s, ps) == SampleEntry(before, last);
      if last.key == "subRequest" && last.value.StructValue? {
        var v := last.value.fields;
        assert NestedParameters(ps) == NestedParameters(front) + v;
        SubUpdateConcat(s.subRequest, NestedParameters(front), v);
      } else {
        assert NestedParameters(ps) == NestedParameters(front) + [];
        assert NestedParameters(front) + [] == NestedParameters(front);
        assert SampleEntry(before, last).subRequest == before.subRequest;
      }
    }
  }

  /** Applying `a + b` is applying `a`, then `b`, nested fields included. */
  lemma {:induction false} SampleUpdateConcat(s: SampleFields, a: seq<Parameter>, b: seq<Parameter>)
    ensures SampleUpdate(s, a + b) == SampleUpdate(SampleUpdate(s, a), b)
    decreases |b|
  {
    if b == [] {
      assert a + b == a;
    } else {
      assert (a + b)[..|a + b| - 1] == a + b[..|b| - 1];
      SampleUpdateConcat(s, a, b[..|b| - 1]);
    }
  }

  /** An entry with a known key and the wrong case is a no-op wherever it stands in the list. */
  lemma SampleMismatchAnywhere(s: SampleFields, a: seq<Parameter>, p: Parameter, b: seq<Parameter>)
    requires p.key == "command" ==> !p.value.StringValue?
    requires p.key == "duration" ==> !p.value.IntValue?
    requires p.key == "subRequest" ==> !p.value.StructValue?
    ensures SampleUpdate(s, a + [p] + b) == SampleUpdate(s, a + b)
  {
    SampleUpdateConcat(s, a + [p], b);
    SampleMismatchIgnored(s, a, p);
    SampleUpdateConcat(s, a, b);
  }

  /** A `subRequest` entry delegates to the nested update and leaves `command` and `duration` alone. */
  lemma SampleNestedDelegates(s: SampleFields, ps: seq<Parameter>, v: seq<Parameter>, d: seq<Parameter>)
    ensures SampleUpdate(s, ps + [Parameter("subRequest", StructValue(v, d))])
         == SampleUpdate(s, ps).(subRequest := SubUpdate(SampleUpdate(s, ps).subRequest, v))
  {
    assert (ps + [Parameter("subRequest", StructValue(v, d))])[..|ps|] == ps;
  }

  /** Applying a list whose keys name no field changes nothing, nested fields included. */
  lemma SampleUnknownKeysIgnored(s: SampleFields, ps: seq<Parameter>)
    requires forall k :: 0 <= k < |ps| ==> ps[k].key !in SampleKeys
    ensures SampleUpdate(s, ps) == s
  {
    SampleUpdateFieldwise(s, ps);
    LatestWithoutPick(ps, PickCommand, s.command);
    LatestWithoutPick(ps, PickDuration, s.duration);
    NoNestedParameters(ps);
  }

  lemma {:induction false} NoNestedParameters(ps: seq<Parameter>)
    requires forall k :: 0 <= k < |ps| ==> ps[k].key != "subRequest"
    ensures NestedParameters(ps) == []
    decreases |ps|
  {
    if ps != [] {
      var front := ps[..|ps| - 1];
      forall k | 0 <= k < |front| ensures front[k].key != "subRequest" {
        assert front[k] == ps[k];
      }
      NoNestedParameters(front);
    }
  }

  /** An entry whose key names a field but whose case is not that field's is a no-op. */
  lemma SampleMismatchIgnored(s: SampleFields, ps: seq<Parameter>, p: Parameter)
    requires p.key == "command" ==> !p.value.StringValue?
    requires p.key == "duration" ==> !p.value.IntValue?
    requires p.key == "subRequest" ==> !p.value.StructValue?
    ensures SampleUpdate(s, ps + [p]) == SampleUpdate(s, ps)
  {
    assert (ps + [p])[..|ps|] == ps;
  }

  /** Among several well-tagged `duration` entries the last one determines the field. */
  lemma SampleLastDurationWins(s: SampleFields, ps: seq<Parameter>, j: nat)
    requires j < |ps| && ps[j].key == "duration" && ps[j].value.IntValue?
    requires forall k :: j < k < |ps| ==> ps[k].key == "duration" ==> !ps[k].value.IntValue?
    ensures SampleUpdate(s, ps).duration == PickDuration(ps[j]).value
  {
    SampleUpdateFieldwise(s, ps);
    LatestIsLastPick(ps, PickDuration, s.duration, j);
  }

  /** Applying the snapshot of `s` onto any state yields `s`; with `t == s` it is the round trip. */
  lemma SampleSnapshotOverwrites(t: SampleFields, s: SampleFields)
    ensures SampleUpdate(t, SampleParameters(s)) == s
  {
    var ps := SampleParameters(s);
    assert ps[..1][..0] == [];
    assert ps[..2][..1] == ps[..1];
    assert ps[..|ps| - 1] == ps[..2];
    assert SampleUpdate(t, ps[..1]) == t.(command := s.command);
    assert SampleUpdate(t, ps[..2]) == t.(command := s.command, duration := s.duration);
    SubSnapshotOverwrites(t.subRequest, s.subRequest);
  }

  /** Round trip: applying an object's own snapshot changes nothing, nested fields included. */
  lemma SampleRoundTrip(s: SampleFields)
    ensures SampleUpdate(s, SampleParameters(s)) == s
    ensures SampleParameters(SampleUpdate(s, SampleParameters(s))) == SampleParameters(s)
  {
    SampleSnapshotOverwrites(s, s);
  }
}
