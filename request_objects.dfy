/**
 * The two hand-written classes. Their fields are updated in place; each
 * `UpdateParameters` loops over the input list and is proved to leave the
 * object in the state that module Requests computes.
 */
module RequestObjects {
  import opened Wrappers
  import opened ValueTypes
  import opened Requests

  class SubRequest {
    var name: string
    var success: bool
    var subTitle: Option<string>

    /** Swift's `subTitle` defaults to `nil`; here the caller always passes it. */
    constructor (name: string, success: bool, subTitle: Option<string>)
      ensures State() == SubFields(name, success, subTitle)
    {
      this.name := name;
      this.success := success;
      this.subTitle := subTitle;
    }

    /** The field values, as one value. */
    function State(): SubFields
      reads this
    {
      SubFields(name, success, subTitle)
    }

    /**
     * `parameters`: three entries, each default the current value. The list is
     * written out over the fields, as the Swift getter reads them; the ensures
     * ties it to the value-level snapshot that the lemmas are about.
     */
    function Parameters(): (ps: seq<Parameter>)
      reads this
      ensures ps == SubParameters(State())
      ensures SubUpdate(State(), ps) == State()
    {
      SubRoundTrip(State());
      [ Parameter("name", StringValue(name, name)),
        Parameter("success", BoolValue(success, success)),
        Parameter("subTitle", OptionalStringValue(subTitle, subTitle)) ]
    }

    method UpdateParameters(parameters: seq<Parameter>)
      modifies this
      ensures State() == SubUpdate(old(State()), parameters)
    {
      for i := 0 to |parameters|
        invariant State() == SubUpdate(old(State()), parameters[..i])
      {
        assert parameters[..i + 1][..i] == parameters[..i];
        var parameter := parameters[i];
        match parameter.key {
          case "name" =>
            match parameter.value {
              case StringValue(value, _) => name := value;
              case _ =>
            }
          case "success" =>
            match parameter.value {
              case BoolValue(value, _) => success := value;
              case _ =>
            }
          case "subTitle" =>
            match parameter.value {
              case OptionalStringValue(value, _) => subTitle := value;
              case _ =>
            }
          case _ =>
        }
      }
      assert parameters[..|parameters|] == parameters;
    }
  }

  class SampleRequest {
    var command: string
    var duration: Int64
    var subRequest: SubRequest

    constructor (command: string, duration: Int64, subRequest: SubRequest)
      ensures this.subRequest == subRequest
      ensures State() == SampleFields(command, duration, subRequest.State())
    {
      this.command := command;
      this.duration := duration;
      this.subRequest := subRequest;
    }

    /** The field values, with those of the referenced `SubRequest`. */
    function State(): SampleFields
      reads this, subRequest
    {
      SampleFields(command, duration, subRequest.State())
    }

    /**
     * `parameters`: the nested entry carries the referenced object's snapshot
     * twice. As for `SubRequest`, the list is written over the fields and the
     * nested getter, and the ensures ties it to the value-level snapshot.
     */
    function Parameters(): (ps: seq<Parameter>)
      reads this, subRequest
      ensures ps == SampleParameters(State())
      ensures SampleUpdate(State(), ps) == State()
    {
      SampleRoundTrip(State());
      [ Parameter("command", StringValue(command, command)),
        Parameter("duration", IntValue(duration, duration)),
        Parameter("subRequest", StructValue(subRequest.Parameters(), subRequest.Parameters())) ]
    }

    /**
     * `updateParameters`: `command` and `duration` are overwritten here; a
     * `subRequest` entry updates the referenced object in place and never
     * replaces the reference.
     */
    method UpdateParameters(parameters: seq<Parameter>)
      modifies this`command, this`duration, subRequest
      ensures subRequest == old(subRequest)
      ensures State() == SampleUpdate(old(State()), parameters)
    {
      for i := 0 to |parameters|
        invariant State() == SampleUpdate(old(State()), parameters[..i])
      {
        assert parameters[..i + 1][..i] == parameters[..i];
        var parameter := parameters[i];
        match parameter.key {
          case "command" =>
            match parameter.value {
              case StringValue(value, _) => command := value;
              case _ =>
            }
          case "duration" =>
            match parameter.value {
              case IntValue(value, _) => duration := value;
              case _ =>
            }
          case "subRequest" =>
            match parameter.value {
              case StructValue(value, _) => subRequest.UpdateParameters(value);
              case _ =>
            }
          case _ =>
        }
      }
      assert parameters[..|parameters|] == parameters;
    }
  }

  /** Round trip on objects: `r.updateParameters(r.parameters)` leaves `r.parameters` as it was. */
  method RoundTrip(r: SampleRequest)
    modifies r, r.subRequest
    ensures r.subRequest == old(r.subRequest)
    ensures r.State() == old(r.State())
    ensures r.Parameters() == old(r.Parameters())
  {
    var ps := r.Parameters();
    r.UpdateParameters(ps);
  }
}
