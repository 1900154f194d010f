# Mission publisher and data-URL encoder of the vision/mission proxy

This project models the deterministic logic of an HTTP proxy. The proxy sends
drone-image and mission-planning requests to hosted LLM agents and forwards
the resulting plan to a mission backend called Phalanx. Two parts of the
repository make decisions in code rather than in prompt text. Both are
modelled here:

- **`app/workflows.py`.**
  - *Mission publisher* (`create_mission_in_phalanx`): resolves and normalises
    the backend URL and maps the planner's tasks onto the backend's three task
    types. It also coerces and clamps the priority, fixes the lease, and
    returns early when no URL is set or there are no tasks.
  - *Agent glue*: `run_vision` post-processes the vision agent's output.
    `run_workflow` routes on SARA's status and decides the console message.
    `run_planner` stops when the validator reports `ERROR`.
- **`app/utils.py`.** `to_data_url` picks a MIME type by a fixed precedence
  and emits `data:<mime>;base64,<payload>`, the data-URL form of section 3 of
  RFC 2397. The payload is Base64 as in section 4 of RFC 4648.

External collaborators are function-typed parameters (oracles). They are:

- every agent call;
- `int()` on a string (`parseInt`);
- `mimetypes.guess_type` (`guess`);
- the HTTP POST (`post`).

The environment variables form a value (`Phalanx.Env`). Each agent call is a
function from the transcript it receives to the record it returns. Each
workflow method also returns the list of calls it made (`calls`), which lets
its contract say which agent ran on which transcript. The publisher returns
the request it posted (`sent`), which is `None` whenever no POST happens.

Modules:

- `Values`: an Option type, and the truthiness Python gives to an optional
  string.
- `Text`: the `str` operations used (`upper`, `endswith`, `rstrip('/')`,
  `join`).
- `Base64`: encoder, decoder and their round trip.
- `Utils`: `to_data_url`.
- `Phalanx`: the mission publisher.
- `Workflows`: the three orchestration functions.

Four facts about the code that the model follows:

- `create_mission_in_phalanx` can raise: `int(priority)` on a string
  (app/workflows.py:413) is outside its `try` block, so a non-numeric
  string raises out of it. `Phalanx.Publish.Raised` models this, and
  `run_workflow` catches it (`Workflows.RunWorkflow`).
- `run_workflow` sends every SARA status other than MISSION_READY to the
  formatter (app/workflows.py:171, 211), not only MISSION_DATA_MISSING and
  ERROR.
- A missing backend URL is not silent: `create_mission_in_phalanx` returns
  a "not configured" detail (app/workflows.py:364-368), and that detail
  reaches the console message when SARA gave none.
- The docstring of `to_data_url` shows `data:image/{format};base64,...`
  (app/utils.py:18), but the code emits whatever MIME type it chose.

## Model

| member | source | states |
|---|---|---|
| `Base64.Encode` | app/utils.py:27 | the Base64 text of n bytes has 4·⌈n/3⌉ characters |
| `Base64.EncodeShape` | app/utils.py:27 | in the Base64 text of n bytes, all but the last Padding(n) characters are symbols of the standard alphabet, and the last Padding(n) are `=` |
| `Base64.DecodeEncode` | app/utils.py:27 | decoding the Base64 encoding of any byte sequence gives back exactly that sequence |
| `Base64.ShortTestVectors` | app/utils.py:27 | the encoder produces the first test vectors of section 10 of RFC 4648: "", "Zg==", "Zm8=", "Zm9v" |
| `Base64.PaddedTestVectors` | app/utils.py:27 | the encoder produces the test vectors "Zm9vYg==" and "Zm9vYmE=" of section 10 of RFC 4648 |
| `Base64.TwoGroupTestVector` | app/utils.py:27 | the encoder produces the test vector "Zm9vYmFy" of section 10 of RFC 4648 |
| `Utils.ChooseMime` | app/utils.py:20-25 | a non-empty explicit MIME type is used verbatim; otherwise the guess from the file name, or `application/octet-stream` when the guess is missing or empty; the result is never empty |
| `Utils.ExplicitMimeIgnoresFilename` | app/utils.py:20-21 | with a non-empty explicit MIME type, the chosen type does not depend on the file name or the guesser |
| `Utils.ToDataUrl` | app/utils.py:9-28 | the URL starts with `data:`; its length is 5 + length of the MIME type + 8 + 4·⌈n/3⌉ |
| `Utils.DataUrlRoundTrip` | app/utils.py:27-28 | the URL is exactly `data:` + MIME + `;base64,` + payload, where the payload (the text after the last comma) decodes to the original data |
| `Utils.EmptyDataUrl` | app/utils.py:27-28 | empty data gives exactly `data:<mime>;base64,` |
| `Text.ToUpper` | app/workflows.py:388 | `upper()`: same length, each character mapped to its capital, so no lower-case ASCII letter remains |
| `Text.EndsWith` | app/workflows.py:377 | `endswith`: the suffix is no longer than the string and matches its last characters one by one |
| `Text.Join` | app/workflows.py:322 | `join` (also used at line 63): no parts give "", one part gives itself |
| `Text.JoinAppend` | app/workflows.py:322 | joining one more part appends the separator and that part, for any non-empty list |
| `Text.TrimTrailing` | app/workflows.py:371 | `rstrip('/')`: the result is a prefix of the input, only `/` characters were removed, and it does not end in `/` |
| `Phalanx.ConfiguredBaseUrl` | app/workflows.py:358-368 | the base URL is the first non-empty of PHALANX_API_URL, VITE_API_BASE_URL and API_BASE_URL, each of the three cases stated; there is none exactly when all three are unset or empty |
| `Phalanx.NormalizeBaseUrl` | app/workflows.py:370-379 | the normalised URL always ends in `/api`; it is the input without trailing slashes, with `/api` appended only when that does not already end in `/api` |
| `Phalanx.NormalizeIdempotent` | app/workflows.py:370-379 | normalising twice gives the same URL as normalising once |
| `Phalanx.MissionsEndpoint` | app/workflows.py:427-428 | the POST target ends in `/api/notifications/missions/available` |
| `Phalanx.ResolveApiUrl` | app/workflows.py:358-379 | the step-by-step reassignment of the URL gives None when nothing is configured, and otherwise the normalised first configured URL |
| `Phalanx.MissionTaskType` | app/workflows.py:388-396 | every emitted task type is LOITER, PATROL or ORBIT; the upper-cased input is kept when it is one of these, and any other input becomes LOITER |
| `Phalanx.TaskTypeIgnoresCase` | app/workflows.py:388 | the mapping gives the same type for an input and for its upper-case form |
| `Phalanx.TaskTypeTable` | app/workflows.py:391-396 | LOITER, PATROL and ORBIT map to themselves, and "orbit" maps to ORBIT; MOVE_TO, VISION_WAYPOINT, "" and an absent type map to LOITER |
| `Phalanx.TruncateToInt` | app/workflows.py:401 | `int(x)` on a float truncates toward zero: the result lies within 1 of x, on zero's side |
| `Phalanx.ToMissionTask` | app/workflows.py:388-402 | the emitted type is LOITER, PATROL or ORBIT; alt_agl_ft is the planner's value or 100; duration_s is the truncated planner value or 60 |
| `Phalanx.PlannerTasks` | app/workflows.py:387 | `get("tasks", [])`: the planner's task list, or no tasks when the key is absent |
| `Phalanx.MissionTasks` | app/workflows.py:386-402 | one mission task per planner task, same order, each with type, alt_agl_ft (default 100) and duration_s (truncated, default 60) |
| `Phalanx.ConvertTasks` | app/workflows.py:386-402 | the append loop builds exactly the converted task list |
| `Phalanx.RoundHalfEven` | app/workflows.py:410-411 | `round` on a float: the result is within 1/2 of the input; at an exact half it is the even neighbour, and otherwise it is strictly nearer than 1/2 |
| `Phalanx.ClampPriority` | app/workflows.py:414-415 | the clamped priority lies in [1,5]; a value in range is kept, and values below or above become 1 or 5 |
| `Phalanx.CoercePriority` | app/workflows.py:408-413 | an absent key, null or "" gives 3; an int is kept; a float is rounded half to even; a bool counts as 1 or 0; a non-empty string goes through `int()`, the only case that can fail |
| `Phalanx.MissionPriority` | app/workflows.py:408-415 | the priority that is sent lies in [1,5]: 3 for an absent, null or empty value; the clamped int, the clamped rounded float, or the clamped parsed string otherwise, so an in-range int is sent unchanged; a bool gives 1; it fails exactly when `int()` on the string fails, with the error `int()` raised |
| `Phalanx.ComputePriority` | app/workflows.py:408-415 | the step-by-step reassignment of the priority computes MissionPriority |
| `Phalanx.MissionPlan` | app/workflows.py:358-428 | the decision before the POST: a skip carries one of the two fixed details; it fails exactly when a URL and tasks are present and `int()` on the priority fails, with that error; a request goes to the missions endpoint of the configured URL with the computed priority, lease 3600 and the converted tasks; a request is sent exactly when a URL is configured, tasks are present and the priority converts |
| `Phalanx.PublishResult` | app/workflows.py:339-456 | an exception escapes exactly when the plan fails, and it carries the plan's error text; a mission id is reported only when a request was posted and accepted with that id; a skip returns no id and its detail; a rejected POST returns no id and the rejection detail; an accepted POST returns the id the backend gave and an empty detail |
| `Phalanx.SentRequestIsWellFormed` | app/workflows.py:404-428 | a request that is sent targets `…/api/notifications/missions/available`, has priority in [1,5], lease_ttl_s 3600, and one backend-typed task per planner task (at least one), each typed by mapping the type of the planner task at the same position |
| `Phalanx.NothingSentWhenSkipped` | app/workflows.py:364-406 | without a configured URL the result is the not-configured skip; with a URL but no tasks it is "No valid tasks found in planner output"; these are the only cases that skip |
| `Phalanx.CreateMissionInPhalanx` | app/workflows.py:339-456 | the returned pair or exception is PublishResult; a POST is made exactly when the plan is Send, and with exactly the planned request |
| `Workflows.LocationFalsy` | app/workflows.py:100 | `not value` on the location entry: an absent or null entry is falsy, and a dictionary is falsy exactly when it is empty |
| `Workflows.VisionRequest` | app/workflows.py:56-73 | the vision agent gets one user message: `target_prompt: <prompt>` newline `mission_id: <id>`, then the image |
| `Workflows.RunVision` | app/workflows.py:36-118 | the vision agent is called once. A missing result raises RuntimeError. A falsy, non-dict or incomplete location raises ValueError with the source's message. On success the mission id falls back to the argument, the priority to 3, and the location keeps exactly lat, lon and alt_agl_ft with their values |
| `Workflows.InitialTranscript` | app/workflows.py:131-148 | the opening transcript is one user message with the text, plus the image only when a non-empty image URL is given |
| `Workflows.PlannerConsoleMessage` | app/workflows.py:190-205 | on the planner path the console message is always non-empty |
| `Workflows.ConsoleMessagePrecedence` | app/workflows.py:168-205 | a created mission overrides the console message; a failed or raising publish keeps SARA's non-empty message and otherwise leaves a note naming the failure; the planner path always ends with a non-empty message |
| `Workflows.RunWorkflow` | app/workflows.py:121-232 | SARA runs first. Exactly one more agent then runs, on the transcript extended by SARA's items: the planner when the status is MISSION_READY (with a publish and the precedence rule), the formatter otherwise. Nothing is posted on the formatter path, and the response is that agent's output text |
| `Workflows.DictItems` | app/workflows.py:313-318 | the kept items are never more than the runner's items; all of them are kept when all are dictionaries; a trailing dictionary item stays last |
| `Workflows.DictItemsAppend` | app/workflows.py:313-318 | the items kept from two runs in a row are those of the first followed by those of the second, so order is preserved |
| `Workflows.DictItemsExactly` | app/workflows.py:313-318 | the items appended after validation are exactly the runner's dictionary items, with nothing added |
| `Workflows.ValidationErrorText` | app/workflows.py:321-323 | the ValueError text is "Data validation failed: " followed by the errors joined with ". ", or by "Validation failed" when there are none; a single error appears as it is |
| `Workflows.RunPlanner` | app/workflows.py:269-336 | the validator runs on the request. A missing result raises RuntimeError. ERROR raises ValueError without calling the planner. On OK the planner gets the transcript with the validator's items appended, and a missing planner result raises RuntimeError |

## Left out

- Agent reasoning: what SARA, the planner, the validator, the formatter and the vision analyzer decide is not modelled. They are oracles returning schema-shaped records, and the agent definition modules under app/agents/ are configuration only.
- Rules that exist only in prompt text: the low/normal/high priority words, the forced priority 5 on OBJECT_CONFIRMED, the coordinate ranges, and the altitude floor with its +20 offset. No code enforces them. The default altitude of 100 ft is only a missing-field default.
- The HTTP POST: it is the `post` parameter. Its three failure branches (HTTP status, connection error, unexpected error) collapse into `Rejected(detail)`. The detail texts and the 10-second timeout are not modelled.
- Logging, dotenv loading, trace metadata and workflow identifiers have no effect on results and are left out.
- `int()` on a string is the `parseInt` parameter, and `mimetypes.guess_type` is the `guess` parameter. Both are library calls.
- Phalanx.ToMissionTask: the default altitude is the integer 100 in the source and the real 100.0 here, so the JSON number form of a defaulted altitude is not modelled. The planner schema requires `alt_agl_ft`, so the default does not arise.
- Phalanx.RoundHalfEven: floats are modelled as exact reals, so NaN and infinities (on which `round` raises) are not covered.
- Phalanx.TruncateToInt: floats are modelled as exact reals, so a NaN or infinite `duration_s` (on which `int` raises, app/workflows.py:401) is not covered.
- Text.ToUpper: only ASCII letters, U+0131 and U+017F are upper-cased. Python maps more of Unicode, but none of those characters upper-case into the capitals that spell LOITER, PATROL or ORBIT.
- Workflows.RunVision: the `float(...)` conversions of the location values are not modelled. The values are already reals.
- Workflows.RunWorkflow: a missing `final_output` would raise AttributeError in the source. This is not modelled, because its oracles always return a record. The unused `previous_history` parameter has no behaviour to model.
- Workflows.RunPlanner: the request is taken as already-serialised text. `json.dumps(input_data)` is a library call.
- Planner output shapes the schema rules out are not modelled: a `tasks` value of null, a non-string task type, and non-numeric altitudes or durations. The value under `data` in the backend reply is taken to be an optional string.
- `run_chat_workflow` (app/workflows.py:235-266) only repackages the result of `run_workflow` under fixed keys. It is not modelled.
- app/main.py is not part of this model. That covers the FastAPI handler, image decoding and the 400/500 mapping. Its call `run_vision(prompt, data_url)` (app/main.py:59) passes two arguments where three are required.
- app/agent_def.py, app/agents/__init__.py, api/index.py, test_run.py and app/schemas.py are re-exports or entry points with no logic.
