/** The mission publisher of the workflows: `create_mission_in_phalanx`
    turns the planner's output into the request body of the mission backend
    ("Phalanx") and posts it. Everything up to the POST is modelled; the
    environment is a parameter, `int()` on a string is the parameter
    `parseInt`, and the POST with its three failure branches is the
    parameter `post`. */
module Phalanx {
  import opened Values
  import opened Text

  /** One task of the planner's output, with the keys the code may read;
      None stands for a key that is absent. */
  datatype PlannerTask = PlannerTask(
    kind: Option<string>,
    lat: Option<real>,
    lon: Option<real>,
    altAglFt: Option<real>,
    durationS: Option<real>,
    speedMps: Option<real>)

  /** The value found under "priority": absent, null, or a JSON scalar.
      (A Python bool is an int, so it is kept apart from the other values.) */
  datatype PriorityValue =
    | PriorityAbsent
    | PriorityNull
    | PriorityBool(flag: bool)
    | PriorityInt(number: int)
    | PriorityFloat(x: real)
    | PriorityString(text: string)

  /** The planner's output as a dictionary; `tasks` is None when the key
      is absent. */
  datatype PlannerOutput = PlannerOutput(priority: PriorityValue, tasks: Option<seq<PlannerTask>>)

  /** One task in the backend's vocabulary: exactly the keys `type`,
      `alt_agl_ft` and `duration_s`. */
  datatype MissionTask = MissionTask(kind: string, altAglFt: real, durationS: int)

  /** The JSON body that is posted. */
  datatype MissionData = MissionData(priority: int, leaseTtlS: int, tasks: seq<MissionTask>)

  /** The three environment variables, None when unset. */
  datatype Env = Env(phalanxApiUrl: Option<string>, viteApiBaseUrl: Option<string>, apiBaseUrl: Option<string>)

  /** What `int(s)` does with a string: a number, or the message of the
      exception it raises. */
  datatype IntParse = Parsed(value: int) | NotAnInt(message: string)

  /** What the POST comes to: the backend's `data` field on success, or the
      detail text of whichever failure branch was taken (HTTP status,
      connection error, unexpected error). */
  datatype PostResult = Accepted(data: Option<string>) | Rejected(detail: string)

  datatype Request = Request(url: string, body: MissionData)

  /** The outcome of `create_mission_in_phalanx`: the returned pair
      (mission id, detail), or an exception that escapes it. */
  datatype Publish = Returned(missionId: Option<string>, detail: string) | Raised(error: string)

  const MissionTaskTypes: set<string> := {"LOITER", "PATROL", "ORBIT"}
  const MovementTaskTypes: set<string> := {"MOVE_TO", "VISION_WAYPOINT"}
  // The source's default is the integer 100; altitudes are modelled as reals.
  const DefaultAltitude: real := 100.0
  const DefaultDuration: real := 60.0
  const DefaultPriority: int := 3
  const LeaseTtlS: int := 3600
  const MissionsRoute: string := "/notifications/missions/available"
  const NotConfigured: string :=
    "PHALANX_API_URL, VITE_API_BASE_URL, or API_BASE_URL not configured - skipping mission creation"
  const NoValidTasks: string := "No valid tasks found in planner output"

  // ---------------------------------------------------------------------
  // Base URL

  /** `PHALANX_API_URL or VITE_API_BASE_URL or API_BASE_URL`: the first
      variable that is set to a non-empty value. */
  function ConfiguredBaseUrl(env: Env): (base: Option<string>)
    ensures base.Some? <==> Truthy(env.phalanxApiUrl) || Truthy(env.viteApiBaseUrl) || Truthy(env.apiBaseUrl)
    ensures base.Some? ==> base.value != ""
    ensures Truthy(env.phalanxApiUrl) ==> base == env.phalanxApiUrl
    ensures !Truthy(env.phalanxApiUrl) && Truthy(env.viteApiBaseUrl) ==> base == env.viteApiBaseUrl
    ensures !Truthy(env.phalanxApiUrl) && !Truthy(env.viteApiBaseUrl) && Truthy(env.apiBaseUrl) ==>
              base == env.apiBaseUrl
  {
    if Truthy(env.phalanxApiUrl) then env.phalanxApiUrl
    else if Truthy(env.viteApiBaseUrl) then env.viteApiBaseUrl
    else if Truthy(env.apiBaseUrl) then env.apiBaseUrl
    else None
  }

  /** All trailing slashes removed, then `/api` appended unless already
      there. The result always ends in `/api`. */
  function NormalizeBaseUrl(url: string): (r: string)
    ensures EndsWith(r, "/api")
    ensures r == TrimTrailing(url, '/') || r == TrimTrailing(url, '/') + "/api"
    ensures EndsWith(TrimTrailing(url, '/'), "/api") ==> r == TrimTrailing(url, '/')
  {
    var trimmed := TrimTrailing(url, '/');
    if EndsWith(trimmed, "/api") then trimmed else trimmed + "/api"
  }

  /** Normalising a normalised URL changes nothing. */
  lemma NormalizeIdempotent(url: string)
    ensures NormalizeBaseUrl(NormalizeBaseUrl(url)) == NormalizeBaseUrl(url)
  {
    var n := NormalizeBaseUrl(url);
    assert n[|n| - 1] == 'i' by {
      assert n[|n| - 4..][3] == 'i';
    }
    assert TrimTrailing(n, '/') == n;
  }

  /** The POST target: the normalised base and the missions route. */
  function MissionsEndpoint(base: string): (url: string)
    ensures EndsWith(url, "/api" + MissionsRoute)
  {
    var n := NormalizeBaseUrl(base);
    EndsWithAppend(n, "/api", MissionsRoute);
    n + MissionsRoute
  }

  // ---------------------------------------------------------------------
  // Tasks

  /** The backend task type for a planner task type: upper-cased first;
      LOITER, PATROL and ORBIT pass through; MOVE_TO, VISION_WAYPOINT and
      everything else (an absent type reads as "") become LOITER. */
  function MissionTaskType(kind: Option<string>): (t: string)
    ensures t in MissionTaskTypes
    ensures var up := ToUpper(if kind.Some? then kind.value else "");
            (up in MissionTaskTypes ==> t == up) && (up !in MissionTaskTypes ==> t == "LOITER")
  {
    var up := ToUpper(if kind.Some? then kind.value else "");
    if up in MissionTaskTypes then up
    else if up in MovementTaskTypes then "LOITER"
    else "LOITER"
  }

  /** The mapping does not depend on the case of the input. */
  lemma TaskTypeIgnoresCase(kind: string)
    ensures MissionTaskType(Some(kind)) == MissionTaskType(Some(ToUpper(kind)))
  {
    UpperIdempotent(kind);
  }

  /** The three accepted types map to themselves; the movement types, an
      empty type and an absent type map to LOITER. */
  lemma TaskTypeTable()
    ensures MissionTaskType(Some("LOITER")) == "LOITER"
    ensures MissionTaskType(Some("PATROL")) == "PATROL"
    ensures MissionTaskType(Some("ORBIT")) == "ORBIT"
    ensures MissionTaskType(Some("orbit")) == "ORBIT"
    ensures MissionTaskType(Some("MOVE_TO")) == "LOITER"
    ensures MissionTaskType(Some("VISION_WAYPOINT")) == "LOITER"
    ensures MissionTaskType(Some("")) == "LOITER"
    ensures MissionTaskType(None) == "LOITER"
  {
    UpperOfCapitals("LOITER");
    UpperOfCapitals("PATROL");
    UpperOfCapitals("ORBIT");
    UpperOfCapitals("MOVE_TO");
    UpperOfCapitals("VISION_WAYPOINT");
    assert ToUpper("orbit") == "ORBIT";
  }

  /** `int(x)` on a float: truncation toward zero. */
  function TruncateToInt(x: real): (n: int)
    ensures x >= 0.0 ==> 0 <= n && n as real <= x < n as real + 1.0
    ensures x < 0.0 ==> n <= 0 && n as real - 1.0 < x <= n as real
  {
    if x >= 0.0 then x.Floor else -((-x).Floor)
  }

  /** One planner task in the backend's vocabulary. */
  function ToMissionTask(t: PlannerTask): (m: MissionTask)
    ensures m.kind in MissionTaskTypes
    ensures m.altAglFt == if t.altAglFt.Some? then t.altAglFt.value else 100.0
    ensures t.durationS.None? ==> m.durationS == 60
    ensures t.durationS.Some? ==> m.durationS == TruncateToInt(t.durationS.value)
  {
    MissionTask(
      MissionTaskType(t.kind),
      if t.altAglFt.Some? then t.altAglFt.value else DefaultAltitude,
      TruncateToInt(if t.durationS.Some? then t.durationS.value else DefaultDuration))
  }

  /** `planner_output.get("tasks", [])`. */
  function PlannerTasks(output: PlannerOutput): (tasks: seq<PlannerTask>)
    ensures output.tasks.None? ==> tasks == []
    ensures output.tasks.Some? ==> tasks == output.tasks.value
  {
    if output.tasks.Some? then output.tasks.value else []
  }

  /** The converted task list: one entry per planner task, in order. */
  function MissionTasks(tasks: seq<PlannerTask>): (r: seq<MissionTask>)
    ensures |r| == |tasks|
    ensures forall i :: 0 <= i < |tasks| ==> r[i] == ToMissionTask(tasks[i])
  {
    seq(|tasks|, i requires 0 <= i < |tasks| => ToMissionTask(tasks[i]))
  }

  // ---------------------------------------------------------------------
  // Priority

  /** Python's `round` on a float: to the nearest integer, ties to even. */
  function RoundHalfEven(x: real): (n: int)
    ensures n as real - 0.5 <= x <= n as real + 0.5
    ensures x - x.Floor as real == 0.5 ==> n % 2 == 0
    ensures x - x.Floor as real != 0.5 ==> n as real - 0.5 < x < n as real + 0.5
  {
    var f := x.Floor;
    var d := x - f as real;
    if d < 0.5 then f
    else if d > 0.5 then f + 1
    else if f % 2 == 0 then f
    else f + 1
  }

  /** `max(1, min(5, p))`. */
  function ClampPriority(p: int): (r: int)
    ensures 1 <= r <= 5
    ensures 1 <= p <= 5 ==> r == p
    ensures p < 1 ==> r == 1
    ensures p > 5 ==> r == 5
  {
    var upper := if 5 < p then 5 else p;
    if 1 < upper then upper else 1
  }

  /** The integer that the priority value is turned into before clamping:
      a float is rounded, an int (a bool included) is kept, a falsy value
      (null, "") gives 3, an absent key gives the default 3, and a
      non-empty string goes through `int()`, which may raise. */
  function CoercePriority(v: PriorityValue, parseInt: string -> IntParse): (r: IntParse)
    ensures v.PriorityString? && v.text != "" ==> r == parseInt(v.text)
    ensures !(v.PriorityString? && v.text != "") ==> r.Parsed?
    ensures v.PriorityAbsent? || v.PriorityNull? || v == PriorityString("") ==> r == Parsed(3)
    ensures v.PriorityInt? ==> r == Parsed(v.number)
    ensures v.PriorityFloat? ==> r == Parsed(RoundHalfEven(v.x))
    ensures v.PriorityBool? ==> r == Parsed(if v.flag then 1 else 0)
  {
    match v
    case PriorityAbsent => Parsed(DefaultPriority)
    case PriorityNull => Parsed(DefaultPriority)
    case PriorityBool(b) => Parsed(if b then 1 else 0)
    case PriorityInt(n) => Parsed(n)
    case PriorityFloat(x) => Parsed(RoundHalfEven(x))
    case PriorityString(s) => if s == "" then Parsed(DefaultPriority) else parseInt(s)
  }

  /** The priority that is sent: coerced, then clamped to [1, 5];
      NotAnInt when `int()` raises. */
  function MissionPriority(v: PriorityValue, parseInt: string -> IntParse): (r: IntParse)
    ensures r.Parsed? ==> 1 <= r.value <= 5
    ensures r.NotAnInt? <==> CoercePriority(v, parseInt).NotAnInt?
    ensures r.NotAnInt? ==> r == CoercePriority(v, parseInt)
    ensures v.PriorityAbsent? || v.PriorityNull? || v == PriorityString("") ==> r == Parsed(3)
    ensures v.PriorityInt? ==> r == Parsed(ClampPriority(v.number))
    ensures v.PriorityInt? && 1 <= v.number <= 5 ==> r == Parsed(v.number)
    ensures v.PriorityFloat? ==> r == Parsed(ClampPriority(RoundHalfEven(v.x)))
    ensures v.PriorityBool? ==> r == Parsed(1)
    ensures v.PriorityString? && v.text != "" && parseInt(v.text).Parsed? ==>
              r == Parsed(ClampPriority(parseInt(v.text).value))
  {
    match CoercePriority(v, parseInt)
    case NotAnInt(message) => NotAnInt(message)
    case Parsed(p) => Parsed(ClampPriority(p))
  }

  // ---------------------------------------------------------------------
  // The whole transformation

  /** What the function decides before any network traffic. */
  datatype Plan = Skip(detail: string) | Fail(error: string) | Send(request: Request)

  function MissionPlan(output: PlannerOutput, env: Env, parseInt: string -> IntParse): (plan: Plan)
    ensures plan.Skip? ==> plan.detail == NotConfigured || plan.detail == NoValidTasks
    ensures plan.Send? <==> ConfiguredBaseUrl(env).Some? && PlannerTasks(output) != [] &&
                            MissionPriority(output.priority, parseInt).Parsed?
    ensures plan.Fail? <==> ConfiguredBaseUrl(env).Some? && PlannerTasks(output) != [] &&
                            MissionPriority(output.priority, parseInt).NotAnInt?
    ensures plan.Fail? ==> plan.error == MissionPriority(output.priority, parseInt).message
    ensures plan.Send? ==>
              (&& ConfiguredBaseUrl(env).Some?
               && MissionPriority(output.priority, parseInt).Parsed?
               && plan.request == Request(MissionsEndpoint(ConfiguredBaseUrl(env).value),
                                          MissionData(MissionPriority(output.priority, parseInt).value, 3600,
                                                      MissionTasks(PlannerTasks(output)))))
  {
    var base := ConfiguredBaseUrl(env);
    if base.None? then Skip(NotConfigured)
    else
      var tasks := MissionTasks(PlannerTasks(output));
      if tasks == [] then Skip(NoValidTasks)
      else
        match MissionPriority(output.priority, parseInt)
        case NotAnInt(message) => Fail(message)
        case Parsed(p) =>
          Send(Request(MissionsEndpoint(base.value), MissionData(p, LeaseTtlS, tasks)))
  }

  /** The result of `create_mission_in_phalanx` for a given POST outcome. */
  function PublishResult(output: PlannerOutput, env: Env, parseInt: string -> IntParse,
                         post: Request -> PostResult): (r: Publish)
    ensures r.Raised? <==> MissionPlan(output, env, parseInt).Fail?
    ensures r.Raised? ==> r.error == MissionPlan(output, env, parseInt).error
    ensures r.Returned? && r.missionId.Some? ==>
              MissionPlan(output, env, parseInt).Send? &&
              post(MissionPlan(output, env, parseInt).request) == Accepted(r.missionId)
    ensures MissionPlan(output, env, parseInt).Skip? ==>
              r == Returned(None, MissionPlan(output, env, parseInt).detail)
    ensures MissionPlan(output, env, parseInt).Send? &&
            post(MissionPlan(output, env, parseInt).request).Rejected? ==>
              r == Returned(None, post(MissionPlan(output, env, parseInt).request).detail)
    ensures MissionPlan(output, env, parseInt).Send? &&
            post(MissionPlan(output, env, parseInt).request).Accepted? ==>
              r == Returned(post(MissionPlan(output, env, parseInt).request).data, "")
  {
    match MissionPlan(output, env, parseInt)
    case Skip(detail) => Returned(None, detail)
    case Fail(error) => Raised(error)
    case Send(request) =>
      match post(request)
      case Accepted(id) => Returned(id, "")
      case Rejected(detail) => Returned(None, detail)
  }

  /** Every request that is sent is well formed: it goes to the missions
      route under `/api`, has priority in [1, 5] and the fixed lease, and
      carries one task in the backend's vocabulary per planner task. */
  lemma SentRequestIsWellFormed(output: PlannerOutput, env: Env, parseInt: string -> IntParse)
    ensures MissionPlan(output, env, parseInt).Send? ==>
            var r := MissionPlan(output, env, parseInt).request;
            && EndsWith(r.url, "/api" + MissionsRoute)
            && 1 <= r.body.priority <= 5
            && r.body.leaseTtlS == 3600
            && |r.body.tasks| == |PlannerTasks(output)| > 0
            && (forall i :: 0 <= i < |r.body.tasks| ==> r.body.tasks[i].kind in MissionTaskTypes)
            && forall i :: 0 <= i < |r.body.tasks| ==>
                 r.body.tasks[i].kind == MissionTaskType(PlannerTasks(output)[i].kind)
  {
  }

  /** Nothing is sent without a configured URL or without tasks, and these
      are the only two reasons to skip. */
  lemma NothingSentWhenSkipped(output: PlannerOutput, env: Env, parseInt: string -> IntParse)
    ensures ConfiguredBaseUrl(env).None? ==> MissionPlan(output, env, parseInt) == Skip(NotConfigured)
    ensures ConfiguredBaseUrl(env).Some? && PlannerTasks(output) == [] ==>
              MissionPlan(output, env, parseInt) == Skip(NoValidTasks)
    ensures MissionPlan(output, env, parseInt).Skip? <==> ConfiguredBaseUrl(env).None? || PlannerTasks(output) == []
  {
  }

  /** Lines that resolve the URL: the first configured variable, its
      trailing slashes stripped, `/api` appended when missing; None when
      no variable is set. */
  method ResolveApiUrl(env: Env) returns (url: Option<string>)
    ensures ConfiguredBaseUrl(env).None? ==> url == None
    ensures ConfiguredBaseUrl(env).Some? ==> url == Some(NormalizeBaseUrl(ConfiguredBaseUrl(env).value))
  {
    var configured := env.phalanxApiUrl;
    if !Truthy(configured) { configured := env.viteApiBaseUrl; }
    if !Truthy(configured) { configured := env.apiBaseUrl; }
    if !Truthy(configured) {
      return None;
    }
    var u := TrimTrailing(configured.value, '/');
    if !EndsWith(u, "/api") {
      u := u + "/api";
    }
    return Some(u);
  }

  /** The loop that converts the planner's tasks one by one. */
  method ConvertTasks(tasks: seq<PlannerTask>) returns (missionTasks: seq<MissionTask>)
    ensures missionTasks == MissionTasks(tasks)
  {
    missionTasks := [];
    var i := 0;
    while i < |tasks|
      invariant 0 <= i <= |tasks|
      invariant |missionTasks| == i
      invariant forall k :: 0 <= k < i ==> missionTasks[k] == ToMissionTask(tasks[k])
    {
      var task := tasks[i];
      var taskType := ToUpper(if task.kind.Some? then task.kind.value else "");
      var missionType: string;
      if taskType in MissionTaskTypes {
        missionType := taskType;
      } else if taskType in MovementTaskTypes {
        missionType := "LOITER";
      } else {
        missionType := "LOITER";
      }
      missionTasks := missionTasks + [MissionTask(
        missionType,
        if task.altAglFt.Some? then task.altAglFt.value else DefaultAltitude,
        TruncateToInt(if task.durationS.Some? then task.durationS.value else DefaultDuration))];
      i := i + 1;
    }
  }

  /** The lines that turn the priority value into the number that is sent,
      reassigning it step by step. */
  method ComputePriority(value: PriorityValue, parseInt: string -> IntParse) returns (r: IntParse)
    ensures r == MissionPriority(value, parseInt)
  {
    var priorityValue := if value.PriorityAbsent? then PriorityInt(DefaultPriority) else value;
    var priority: int;
    if priorityValue.PriorityFloat? {
      priority := RoundHalfEven(priorityValue.x);
    } else if priorityValue.PriorityInt? {
      priority := priorityValue.number;
    } else if priorityValue.PriorityBool? {
      priority := if priorityValue.flag then 1 else 0;
    } else if priorityValue.PriorityString? && priorityValue.text != "" {
      var parsed := parseInt(priorityValue.text);
      if parsed.NotAnInt? {
        return parsed;
      }
      priority := parsed.value;
    } else {
      priority := DefaultPriority;
    }
    priority := ClampPriority(priority);
    return Parsed(priority);
  }

  /** `create_mission_in_phalanx`: resolve the URL, convert the tasks,
      stop on an empty list, compute the priority, then post. `sent` is
      the request handed to the POST, None when no POST is attempted. */
  method CreateMissionInPhalanx(output: PlannerOutput, env: Env, parseInt: string -> IntParse,
                                post: Request -> PostResult)
    returns (result: Publish, sent: Option<Request>)
    ensures result == PublishResult(output, env, parseInt, post)
    ensures MissionPlan(output, env, parseInt).Send? ==> sent == Some(MissionPlan(output, env, parseInt).request)
    ensures !MissionPlan(output, env, parseInt).Send? ==> sent == None
  {
    var url := ResolveApiUrl(env);
    if url.None? {
      return Returned(None, NotConfigured), None;
    }

    var missionTasks := ConvertTasks(PlannerTasks(output));
    if missionTasks == [] {
      return Returned(None, NoValidTasks), None;
    }

    var priority := ComputePriority(output.priority, parseInt);
    if priority.NotAnInt? {
      return Raised(priority.message), None;
    }

    var request := Request(url.value + MissionsRoute, MissionData(priority.value, LeaseTtlS, missionTasks));
    sent := Some(request);
    var reply := post(request);
    if reply.Accepted? {
      result := Returned(reply.data, "");
    } else {
      result := Returned(None, reply.detail);
    }
  }
}
