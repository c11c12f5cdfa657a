# Crisis triage: priority scoring and incident lifecycle, in Dafny

This project models the decision logic of CrisisTriage AI. That logic has two parts.

- **The priority scoring engine** (`calculate_rescue_score`). It maps the extractor's structured record (`TriageData`) and the raw message text to a priority score and a list of reasons. The stages run in a fixed order:
  1. an injury lookup (80/60/20/0) combined with `5 * urgency` by `max`;
  2. bonuses for vulnerable groups, scale and critical resources;
  3. a spam penalty floored at 0;
  4. a clamp to 100;
  5. a floor of 85 for critical injuries, applied last.
- **The incident lifecycle.** A stored incident goes from `"Needs Dispatch"` to `"Acknowledged"` to `"Dispatched: <team>"`. Each transition is guarded, and a failed guard changes nothing. Creation scores a non-blank message, stores it with the default status and requests an alert iff the score is at least 75. Listing returns all incidents by descending score.

Files:

- `wrappers.dfy`: `Option`, standing for Python's `Optional` / `None`.
- `triage.dfy` (module `Triage`): the engine.
  - `CalculateRescueScore` is the imperative method. Like the Python function, it reassigns a local score and appends to a local reasoning list.
  - The method is proved against the specification functions `PriorityScore` and `Reasoning`.
  - Each stage has its own function. The engine's promises are contracts on these functions and lemmas about them.
- `incidents.dfy` (module `Incidents`): the lifecycle.
  - The transitions are pure functions on the store's map (`AcknowledgeIncident`, `DispatchTeam`). The lifecycle lemmas are proved about these functions.
  - `IncidentStore` is the incident table. It is a class with a `map<int, Incident>` field and the next row id. Its methods update one record's `status` in place, and each is proved equal to the matching pure function.

On these points the model follows the code:

- The vulnerability bonus is `15 * len(list)`. Duplicate entries count, so the list is a `seq<string>`, not a set.
- `urgency` and `people_affected` are not range-checked, so both are unbounded `int`s. The bounds are proved for every integer.
- `injury_severity` is a free string compared with `==`. Any value other than `"Critical"`, `"Serious"` or `"Minor"` gives base 0. Only the exact string `"None"` can trigger the spam penalty.
- The status column is a string. The three lifecycle statuses are string constants, and "dispatched" means "starts with `Dispatched: `".

## Model

| member | source | states |
|---|---|---|
| `Triage.CalculateRescueScore` | src/rescue_gent/triage_logic.py:16-74 | The staged computation returns exactly `PriorityScore` and `Reasoning` of its inputs, and echoes the input record unchanged as `details`. |
| `Triage.PriorityScore` | src/rescue_gent/triage_logic.py:57-66 | For every input, the score lies in [0, 100]. A `"Critical"` severity gives at least 85. Any other severity gives exactly the clamped running score `min(score, 100)`. |
| `Triage.BaseThreat` | src/rescue_gent/triage_logic.py:25-34 | The injury baseline lies in [0, 80]. It is 80 iff the severity is `"Critical"`. It is at least 50 iff the severity is Critical or Serious. It is 0 iff the severity is none of the three named tiers. |
| `Triage.StageOneScore` | src/rescue_gent/triage_logic.py:36-37 | After stage 1 the score is the larger of the baseline and `5 * urgency`. It is never negative, whatever the urgency. |
| `Triage.HighUrgencyReasonIff` | src/rescue_gent/triage_logic.py:38-39 | The "High Urgency" entry is in the reasoning iff `urgency >= 8` and the baseline is below 50. |
| `Triage.VulnerabilityBonus` | src/rescue_gent/triage_logic.py:42-45 | The vulnerability bonus is exactly 15 times the number of list entries. It is 0 for an empty list. |
| `Triage.VulnerabilityCountsDuplicates` | src/rescue_gent/triage_logic.py:43 | Repeating a group that is already listed adds another 15: duplicates count. |
| `Triage.ScaleBonus` | src/rescue_gent/triage_logic.py:47-50 | The scale bonus is 0 for at most one person. Above one person it lies in (0, 20] and never exceeds `2 * people`. From 10 people on it is 20. |
| `Triage.ScaleBonusMonotone` | src/rescue_gent/triage_logic.py:47-48 | The scale bonus never decreases as `people_affected` grows. |
| `Triage.AnyCriticalNeed` | src/rescue_gent/triage_logic.py:52-53 | The short-circuit scan returns true iff some need, lower-cased, is firefighters, ambulance or heavy machinery. |
| `Triage.ResourceBonus` | src/rescue_gent/triage_logic.py:52-55 | The resource bonus is 0 or 5. It is 5 iff some need is critical. |
| `Triage.ResourceBonusOnce` | src/rescue_gent/triage_logic.py:53-55 | Two need lists with the same entries, in any order and with any repetition, earn the same resource bonus: a critical need is counted once. |
| `Triage.AdditiveScore` | src/rescue_gent/triage_logic.py:36-55 | The bonuses never lower the stage-1 score. The total is at most stage 1 plus `15 * len(vulnerable)` + 20 + 5. |
| `Triage.ScoreBeforeClamp` | src/rescue_gent/triage_logic.py:58-60 | After the spam check the score is non-negative and at most the additive score. When all three penalty conditions hold it is exactly `max(0, score - 30)`. When any of them fails it is unchanged. |
| `Triage.PenaltyReasonIff` | src/rescue_gent/triage_logic.py:58-60 | The penalty entry is in the reasoning iff `urgency <= 2`, severity is `"None"` and the message has fewer than 20 characters. |
| `Triage.CriticalScore` | src/rescue_gent/triage_logic.py:62-66 | Stage order: for a critical report the final score is `max(min(score, 100), 85)`. The floor runs after the clamp. |
| `Triage.ElevationReasonIff` | src/rescue_gent/triage_logic.py:64-66 | The "elevated to minimum" entry is in the reasoning iff the critical floor changed the clamped score. |
| `Triage.Reasoning` | src/rescue_gent/triage_logic.py:68 | The reasoning is never empty. The default entry appears, alone, exactly when no stage fired. Otherwise the reasoning is the fired stages' entries in order. |
| `Triage.UrgencyMonotone` | src/rescue_gent/triage_logic.py:36-66 | Raising the urgency, all else equal, never lowers the final score. |
| `Triage.ExtractionFallbackScore` | src/rescue_gent/llm_parser.py:113 | The record used when extraction fails scores 0 for a message shorter than 20 characters and 5 otherwise. |
| `Triage.ScenarioCriticalWithChild` | src/rescue_gent/triage_logic.py:25-66 | Urgency 9, Critical, one child, 3 people and an ambulance give 100. The reasons are critical injury, +15 vulnerable, +6 scale and +5 resources. |
| `Triage.ScenarioSpam` | src/rescue_gent/triage_logic.py:58-60 | Urgency 1, severity "None" and message "hi" give 0, with the penalty as the only reason. |
| `Triage.ScenarioSerious` | src/rescue_gent/triage_logic.py:25-37 | Urgency 3 with Serious injuries gives 60, with one reason. |
| `Incidents.FindClosestTeam` | src/rescue_gent/main.py:21-24 | The team selector always returns one of the registered volunteer teams. |
| `Incidents.AcknowledgeIncident` | src/rescue_gent/main.py:59-65 | Acknowledge succeeds iff the incident exists with status "Needs Dispatch". On success the status becomes "Acknowledged" and nothing else changes. Otherwise it fails with no reason and the store is unchanged. |
| `Incidents.DispatchTeam` | src/rescue_gent/main.py:67-78 | Dispatch succeeds iff the incident exists with status "Acknowledged". On success the status becomes "Dispatched: " plus the selected team, and nothing else changes. Otherwise it fails with "Incident must be acknowledged first." and the store is unchanged. |
| `Incidents.AlertFor` | src/rescue_gent/main.py:36-37 | An alert is requested iff the score is at least 75. It carries the incident's score, message, resource needs and id. |
| `Incidents.InsertByScore` | src/rescue_gent/main.py:47 | Inserting into a list sorted by descending score keeps it sorted and adds exactly the one record. |
| `Incidents.SortByScore` | src/rescue_gent/main.py:47 | The result is sorted by descending priority score and is a permutation of the input. |
| `Incidents.RecordsInRange` | src/rescue_gent/main.py:47 | Every stored record with an id in the range occurs exactly once, and nothing else does. |
| `Incidents.AllIncidents` | src/rescue_gent/main.py:45-47 | The listing is sorted by non-increasing priority score. Every element is a stored incident, and every stored incident occurs exactly once. |
| `Incidents.IncidentStore.constructor` | src/rescue_gent/models.py:4-12 | A new table is empty and well formed. |
| `Incidents.IncidentStore.ProcessAndSaveMessage` | src/rescue_gent/main.py:26-38 | A blank message creates nothing and requests no alert. Otherwise exactly one record is added under a fresh id, with the computed score, status "Needs Dispatch" and the extracted details. The alert is `AlertFor` that record. |
| `Incidents.IncidentStore.Acknowledge` | src/rescue_gent/main.py:59-65 | The in-place update gives the answer and the new table of `AcknowledgeIncident`, and keeps the table well formed. |
| `Incidents.IncidentStore.Dispatch` | src/rescue_gent/main.py:67-78 | The in-place update gives the answer and the new table of `DispatchTeam`, and keeps the table well formed. |
| `Incidents.IncidentStore.GetAllIncidents` | src/rescue_gent/main.py:45-47 | Returns every stored incident exactly once, in non-increasing order of priority score, and nothing else. |
| `Incidents.TransitionsPreserveWellFormed` | src/rescue_gent/main.py:59-78 | Transitions keep the ids, the scores in [0, 100] and every status a lifecycle status. |
| `Incidents.DispatchedIsNotAGuardState` | src/rescue_gent/main.py:62-70 | A "Dispatched: ..." status equals neither "Needs Dispatch" nor "Acknowledged". |
| `Incidents.DispatchedIsTerminal` | src/rescue_gent/main.py:59-71 | On a dispatched incident, acknowledge and dispatch both fail and change nothing. |
| `Incidents.AcknowledgeTwiceFails` | src/rescue_gent/main.py:62-65 | A second acknowledge of the same incident fails and changes nothing. |
| `Incidents.DispatchBeforeAcknowledgeFails` | src/rescue_gent/main.py:70-71 | Dispatch on a "Needs Dispatch" incident fails with the "acknowledge first" reason and changes nothing. |
| `Incidents.LifecycleRun` | src/rescue_gent/main.py:59-78 | From "Needs Dispatch", acknowledge and then dispatch both succeed. The incident ends "Dispatched: Team Charlie (S&R)" with its other fields untouched. |
| `Incidents.CriticalReportAlerts` | src/rescue_gent/main.py:36-37 | A report with a critical injury always requests an alert when stored. |
| `Incidents.ExtractionFallbackNeverAlerts` | src/rescue_gent/main.py:28-37 | A report stored with the extraction-failure record never requests an alert. |

## Left out

- The language-model extraction (`llm_parser.py`): network calls and JSON parsing. Its output is a parameter of `ProcessAndSaveMessage`. Its failure record is the constant `Triage.ExtractionFallback`.
- The Slack notifier: network I/O. The model returns the alert's arguments as `Option<Alert>`.
- The chat bots, their launcher, the web dashboards and the frontend: forwarding, threading and UI.
- FastAPI routing, CORS, sessions and commits: framework plumbing. The webhook's background scheduling is concurrency.
- `generate_appeal`: a thin wrapper over a language-model call.
- Races between concurrent transitions: the code has no serialisation, and the model runs each operation atomically.
- Triage.Reasoning: entries are tags carrying their numbers and lists. The f-string text, the `" | "` join and the default sentence are not modelled.
- Triage.IsCriticalNeed: Python's `str.lower` is modelled as ASCII lower-casing. For membership in the three critical needs the two agree: the only non-ASCII character whose lower-case form is entirely ASCII is the Kelvin sign (to `k`), and no critical need contains `k`.
- Latitude and longitude are opaque `Option<real>` values. They are only passed to the team selector, which ignores them.
- Incidents.IncidentStore.ProcessAndSaveMessage: the database assigns the row id. It is modelled as a counter starting at 1 that never reuses ids, which is right because the core never deletes.
- Incidents.IncidentStore.ProcessAndSaveMessage: the JSON round trip of the stored details is assumed lossless.
- Incidents.AllIncidents: `ORDER BY priority_score DESC` leaves the order of equal scores unspecified. The model fixes one order (ascending id within equal scores, by insertion), and its contract promises only what SQL promises.
- Incidents.WellFormedStore assumes every row was written by this core. Rows with other status strings are not considered; the guards would reject them anyway.
