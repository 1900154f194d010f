/** The orchestration of the agent calls in the workflows: `run_vision`,
    `run_workflow` (the SARA chat flow) and `run_planner` (validator, then
    planner). Each agent call is a function parameter from the transcript
    it is given to the record it returns; every method also returns the
    list of calls it made, so that its contract can say which agent ran
    and what transcript it saw. */
module Workflows {
  import opened Values
  import opened Text
  import Phalanx

  datatype Role = User | Assistant
  datatype Part = InputText(text: string) | InputImage(imageUrl: string)

  /** A transcript entry: a role-tagged message, or an item of another kind
      that the agent runner produced. */
  datatype Item = Message(role: Role, content: seq<Part>) | RunnerItem(description: string)

  type Transcript = seq<Item>

  datatype Agent = VisionAnalyzer | Sara | Planner | SaraFormatter | DataValidator

  /** One agent invocation and the transcript it was given. */
  datatype Call = Call(agent: Agent, input: Transcript)

  /** The result of a workflow that may raise. */
  datatype Outcome<T> = Done(value: T) | RuntimeError(message: string) | ValueError(message: string)

  // ---------------------------------------------------------------------
  // run_vision

  /** The `drone_location_at_snapshot` entry of the vision agent's output. */
  datatype LocationField =
    | LocationAbsent
    | LocationNull
    | LocationDict(fields: map<string, real>)
    | LocationOther(truthy: bool)

  /** The vision agent's output as a dictionary; None for an absent key
      (or, for priority, a null one). */
  datatype VisionOutput = VisionOutput(
    useCase: string,
    missionId: Option<string>,
    priority: Option<int>,
    location: LocationField)

  const LocationKeys: set<string> := {"lat", "lon", "alt_agl_ft"}
  const UndefinedVisionResult: string := "Agent result is undefined"
  const MissingLocation: string := "Agent failed to extract drone location (lat, lon, alt_agl_ft) from prompt"
  const IncompleteLocation: string := "Agent extracted incomplete location data. Required: lat, lon, alt_agl_ft"
  const InvalidLocation: string := "Agent returned invalid location data format"

  /** `not value` for the location entry. */
  predicate LocationFalsy(l: LocationField): (falsy: bool)
    ensures l.LocationAbsent? || l.LocationNull? ==> falsy
    ensures l.LocationDict? ==> (falsy <==> l.fields == map[])
  {
    match l
    case LocationAbsent => true
    case LocationNull => true
    case LocationDict(fields) => |fields| == 0
    case LocationOther(truthy) => !truthy
  }

  /** The one user message sent to the vision agent: the two text lines and
      the image. */
  function VisionRequest(prompt: string, imageDataUrl: string, missionId: string): (t: Transcript)
    ensures |t| == 1 && t[0].Message? && t[0].role == User
    ensures t[0].content == [InputText(("target_prompt: " + prompt) + "\n" + ("mission_id: " + missionId)),
                             InputImage(imageDataUrl)]
  {
    JoinTwo("target_prompt: " + prompt, "mission_id: " + missionId, "\n");
    [Message(User, [InputText(Join(["target_prompt: " + prompt, "mission_id: " + missionId], "\n")),
                    InputImage(imageDataUrl)])]
  }

  /** `run_vision`. On success the mission id is the agent's when it gave a
      non-empty one and the argument otherwise, the priority is the agent's
      or 3, and the location is reduced to exactly lat, lon and alt_agl_ft;
      the other outcomes are the errors the source raises. */
  method RunVision(prompt: string, imageDataUrl: string, missionId: string,
                   vision: Transcript -> Option<VisionOutput>)
    returns (r: Outcome<VisionOutput>, calls: seq<Call>)
    ensures calls == [Call(VisionAnalyzer, VisionRequest(prompt, imageDataUrl, missionId))]
    ensures var reply := vision(VisionRequest(prompt, imageDataUrl, missionId));
            && (reply.None? ==> r == RuntimeError(UndefinedVisionResult))
            && (reply.Some? && LocationFalsy(reply.value.location) ==> r == ValueError(MissingLocation))
            && (reply.Some? && reply.value.location.LocationOther? && reply.value.location.truthy ==>
                  r == ValueError(InvalidLocation))
            && ((reply.Some? && reply.value.location.LocationDict? && |reply.value.location.fields| > 0
                 && !(LocationKeys <= reply.value.location.fields.Keys)) ==> r == ValueError(IncompleteLocation))
            && (reply.Some? && reply.value.location.LocationDict? && LocationKeys <= reply.value.location.fields.Keys ==>
                  r.Done?)
    ensures r.Done? ==>
              var o := vision(VisionRequest(prompt, imageDataUrl, missionId)).value;
              && r.value.useCase == o.useCase
              && r.value.missionId == (if Truthy(o.missionId) then o.missionId else Some(missionId))
              && r.value.priority == (if o.priority.Some? then o.priority else Some(3))
              && o.location.LocationDict?
              && r.value.location.LocationDict?
              && r.value.location.fields.Keys == LocationKeys
              && forall k :: k in LocationKeys ==> r.value.location.fields[k] == o.location.fields[k]
  {
    var inputParts := ["target_prompt: " + prompt, "mission_id: " + missionId];
    var inputText := Join(inputParts, "\n");
    var items := [Message(User, [InputText(inputText), InputImage(imageDataUrl)])];
    calls := [Call(VisionAnalyzer, items)];

    var reply := vision(items);
    if reply.None? {
      return RuntimeError(UndefinedVisionResult), calls;
    }
    var output := reply.value;
    if !Truthy(output.missionId) {
      output := output.(missionId := Some(missionId));
    }
    if output.priority.None? {
      output := output.(priority := Some(3));
    }
    if LocationFalsy(output.location) {
      return ValueError(MissingLocation), calls;
    }
    var location := output.location;
    if location.LocationDict? {
      if !("lat" in location.fields && "lon" in location.fields && "alt_agl_ft" in location.fields) {
        return ValueError(IncompleteLocation), calls;
      }
      output := output.(location := LocationDict(map[
        "lat" := location.fields["lat"],
        "lon" := location.fields["lon"],
        "alt_agl_ft" := location.fields["alt_agl_ft"]]));
    } else {
      return ValueError(InvalidLocation), calls;
    }
    return Done(output), calls;
  }

  // ---------------------------------------------------------------------
  // run_workflow

  /** SARA's run: the items it adds, its output as JSON text, and the two
      fields of its output the code reads. */
  datatype SaraRun = SaraRun(newItems: Transcript, outputText: string, status: string,
                             messageForConsole: Option<string>)

  datatype PlannerRun = PlannerRun(newItems: Transcript, outputText: string, parsed: Phalanx.PlannerOutput)

  datatype FormatterRun = FormatterRun(newItems: Transcript, outputText: string)

  datatype WorkflowResult = WorkflowResult(response: string, consoleMessage: Option<string>)

  const MissionReady: string := "MISSION_READY"
  const CreatedPrefix: string := "Mission created successfully. Mission ID: "
  const NotCreatedPrefix: string := "Mission plan generated, but failed to create in Phalanx: "
  const CreationFailedPrefix: string := "Mission plan generated, but creation failed: "

  /** The opening transcript: the user's text, and the image when one is given. */
  function InitialTranscript(inputText: string, imageDataUrl: Option<string>): (t: Transcript)
    ensures |t| == 1 && t[0].Message? && t[0].role == User
    ensures |t[0].content| == (if Truthy(imageDataUrl) then 2 else 1)
    ensures t[0].content[0] == InputText(inputText)
    ensures Truthy(imageDataUrl) ==> t[0].content[1] == InputImage(imageDataUrl.value)
  {
    var parts := [InputText(inputText)];
    [Message(User, if Truthy(imageDataUrl) then parts + [InputImage(imageDataUrl.value)] else parts)]
  }

  /** The console message on the planner path, from SARA's message and the
      outcome of the publish step. */
  function PlannerConsoleMessage(saraMessage: Option<string>, publish: Phalanx.Publish): (m: Option<string>)
    ensures Truthy(m)
  {
    match publish
    case Returned(missionId, detail) =>
      if Truthy(missionId) then Some(CreatedPrefix + missionId.value)
      else if Truthy(saraMessage) then saraMessage
      else Some(NotCreatedPrefix + detail)
    case Raised(error) =>
      if Truthy(saraMessage) then saraMessage
      else Some(CreationFailedPrefix + error)
  }

  /** Precedence of the console message: a created mission always wins; a
      failed or raising publish never replaces a message SARA gave, and
      without one it leaves a note that names the failure. Either way the
      planner path always ends with a non-empty console message. */
  lemma ConsoleMessagePrecedence(saraMessage: Option<string>, publish: Phalanx.Publish)
    ensures var m := PlannerConsoleMessage(saraMessage, publish);
            && (publish.Returned? && Truthy(publish.missionId) ==>
                  m == Some(CreatedPrefix + publish.missionId.value))
            && (!(publish.Returned? && Truthy(publish.missionId)) && Truthy(saraMessage) ==> m == saraMessage)
            && (publish.Returned? && !Truthy(publish.missionId) && !Truthy(saraMessage) ==>
                  m == Some(NotCreatedPrefix + publish.detail))
            && (publish.Raised? && !Truthy(saraMessage) ==> m == Some(CreationFailedPrefix + publish.error))
            && Truthy(m)
  {
  }

  /** `run_workflow`. SARA runs on the opening transcript; her items are
      appended; then exactly one more agent runs on that transcript: the
      planner, followed by the publish step, when the status is
      MISSION_READY, and the formatter otherwise. `sent` is the request the
      publish step posted. */
  method RunWorkflow(inputText: string, imageDataUrl: Option<string>,
                     sara: Transcript -> SaraRun, planner: Transcript -> PlannerRun,
                     formatter: Transcript -> FormatterRun,
                     env: Phalanx.Env, parseInt: string -> Phalanx.IntParse,
                     post: Phalanx.Request -> Phalanx.PostResult)
    returns (result: WorkflowResult, calls: seq<Call>, sent: Option<Phalanx.Request>)
    ensures var t0 := InitialTranscript(inputText, imageDataUrl);
            var s := sara(t0);
            var t1 := t0 + s.newItems;
            && |calls| == 2
            && calls[0] == Call(Sara, t0)
            && calls[1].input == t1
            && (calls[1].agent == Planner <==> s.status == MissionReady)
            && (calls[1].agent == SaraFormatter <==> s.status != MissionReady)
            && (s.status == MissionReady ==>
                  var p := planner(t1);
                  && result.response == p.outputText
                  && result.consoleMessage ==
                       PlannerConsoleMessage(s.messageForConsole, Phalanx.PublishResult(p.parsed, env, parseInt, post))
                  && sent == (var plan := Phalanx.MissionPlan(p.parsed, env, parseInt);
                              if plan.Send? then Some(plan.request) else None))
            && (s.status != MissionReady ==>
                  result == WorkflowResult(formatter(t1).outputText, s.messageForConsole) && sent == None)
  {
    var conversationHistory := InitialTranscript(inputText, imageDataUrl);
    calls := [Call(Sara, conversationHistory)];
    var saraResult := sara(conversationHistory);
    conversationHistory := conversationHistory + saraResult.newItems;

    var consoleMessage := saraResult.messageForConsole;

    if saraResult.status == MissionReady {
      calls := calls + [Call(Planner, conversationHistory)];
      var plannerResult := planner(conversationHistory);
      conversationHistory := conversationHistory + plannerResult.newItems;

      var publish;
      publish, sent := Phalanx.CreateMissionInPhalanx(plannerResult.parsed, env, parseInt, post);
      match publish {
        case Returned(missionId, errorDetail) =>
          if Truthy(missionId) {
            consoleMessage := Some(CreatedPrefix + missionId.value);
          } else if !Truthy(consoleMessage) {
            consoleMessage := Some(NotCreatedPrefix + errorDetail);
          }
        case Raised(error) =>
          if !Truthy(consoleMessage) {
            consoleMessage := Some(CreationFailedPrefix + error);
          }
      }
      result := WorkflowResult(plannerResult.outputText, consoleMessage);
    } else {
      calls := calls + [Call(SaraFormatter, conversationHistory)];
      var formatterResult := formatter(conversationHistory);
      conversationHistory := conversationHistory + formatterResult.newItems;
      result := WorkflowResult(formatterResult.outputText, consoleMessage);
      sent := None;
    }
  }

  // ---------------------------------------------------------------------
  // run_planner

  /** An item the runner reports, seen through its raw form: only a raw
      item that is a dictionary is appended to the transcript. */
  datatype RunItem = DictItem(item: Item) | OtherItem

  datatype ValidatorStatus = StatusOk | StatusError

  datatype ValidatorRun = ValidatorRun(newItems: seq<RunItem>, status: ValidatorStatus, errors: seq<string>)

  const UndefinedValidatorResult: string := "Data validator result is undefined"
  const UndefinedPlannerResult: string := "Planner agent result is undefined"
  const ValidationFailedPrefix: string := "Data validation failed: "

  /** The dictionary items of a run, in order. */
  function DictItems(items: seq<RunItem>): (t: Transcript)
    ensures |t| <= |items|
    ensures (forall k :: 0 <= k < |items| ==> items[k].DictItem?) ==> |t| == |items|
    ensures items != [] && items[|items| - 1].DictItem? ==> t != [] && t[|t| - 1] == items[|items| - 1].item
    decreases |items|
  {
    if items == [] then []
    else
      var last := items[|items| - 1];
      DictItems(items[..|items| - 1]) + (if last.DictItem? then [last.item] else [])
  }

  /** The items of two runs in a row are the items of the first run
      followed by those of the second. */
  lemma {:induction false} DictItemsAppend(a: seq<RunItem>, b: seq<RunItem>)
    ensures DictItems(a + b) == DictItems(a) + DictItems(b)
    decreases |b|
  {
    if b == [] {
      assert a + b == a;
    } else {
      var init := b[..|b| - 1];
      DictItemsAppend(a, init);
      assert (a + b)[..|a + b| - 1] == a + init;
      assert (a + b)[|a + b| - 1] == b[|b| - 1];
    }
  }

  /** What DictItems keeps: exactly the dictionary items, none invented,
      and never more entries than the run reported. */
  lemma {:induction false} DictItemsExactly(items: seq<RunItem>, x: Item)
    ensures x in DictItems(items) <==> DictItem(x) in items
    ensures |DictItems(items)| <= |items|
    decreases |items|
  {
    if items != [] {
      var init := items[..|items| - 1];
      DictItemsExactly(init, x);
      assert items == init + [items[|items| - 1]];
    }
  }

  /** The text of the ValueError for a failed validation. */
  function ValidationErrorText(errors: seq<string>): (msg: string)
    ensures errors == [] ==> msg == ValidationFailedPrefix + "Validation failed"
    ensures |errors| == 1 ==> msg == ValidationFailedPrefix + errors[0]
    ensures errors != [] ==> msg == ValidationFailedPrefix + Join(errors, ". ")
  {
    ValidationFailedPrefix + (if errors != [] then Join(errors, ". ") else "Validation failed")
  }

  /** `run_planner`. The validator runs on the request; its dictionary items
      are appended; a validator status of ERROR raises before the planner
      is called; otherwise the planner runs on the extended transcript. A
      missing result of either agent raises RuntimeError. */
  method RunPlanner(inputText: string, validator: Transcript -> Option<ValidatorRun>,
                    planner: Transcript -> Option<Phalanx.PlannerOutput>)
    returns (r: Outcome<Phalanx.PlannerOutput>, calls: seq<Call>)
    ensures var t0 := [Message(User, [InputText(inputText)])];
            var v := validator(t0);
            && 1 <= |calls| <= 2
            && calls[0] == Call(DataValidator, t0)
            && (v.None? ==> r == RuntimeError(UndefinedValidatorResult) && |calls| == 1)
            && (v.Some? && v.value.status == StatusError ==>
                  r == ValueError(ValidationErrorText(v.value.errors)) && |calls| == 1)
            && (v.Some? && v.value.status == StatusOk ==>
                  var t1 := t0 + DictItems(v.value.newItems);
                  && |calls| == 2
                  && calls[1] == Call(Planner, t1)
                  && r == (if planner(t1).None? then RuntimeError(UndefinedPlannerResult) else Done(planner(t1).value)))
  {
    var conversationHistory := [Message(User, [InputText(inputText)])];
    calls := [Call(DataValidator, conversationHistory)];
    var validatorResult := validator(conversationHistory);
    if validatorResult.None? {
      return RuntimeError(UndefinedValidatorResult), calls;
    }
    var validatorOutput := validatorResult.value;

    ghost var t0 := conversationHistory;
    var newItems := validatorOutput.newItems;
    var i := 0;
    while i < |newItems|
      invariant 0 <= i <= |newItems|
      invariant conversationHistory == t0 + DictItems(newItems[..i])
    {
      var rawItem := newItems[i];
      if rawItem.DictItem? {
        conversationHistory := conversationHistory + [rawItem.item];
      }
      assert newItems[..i + 1][..i] == newItems[..i];
      i := i + 1;
    }
    assert newItems[..i] == newItems;

    if validatorOutput.status == StatusError {
      var errorMessages := if validatorOutput.errors != [] then Join(validatorOutput.errors, ". ") else "Validation failed";
      return ValueError(ValidationFailedPrefix + errorMessages), calls;
    }

    calls := calls + [Call(Planner, conversationHistory)];
    var plannerResult := planner(conversationHistory);
    if plannerResult.None? {
      return RuntimeError(UndefinedPlannerResult), calls;
    }
    return Done(plannerResult.value), calls;
  }
}
