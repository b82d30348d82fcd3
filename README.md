# Campaign task scheduling, modelled in Dafny

This project models the core of the campaigns service of Empyloo. The
service keeps the tasks of a Cloud Tasks push queue in step with the
campaigns kept in a Supabase store. It has these parts:

- `CampaignService` validates its five configuration variables.
- It creates, deletes and edits ("delete, then create again") named tasks in
  the queue. A create is retried up to three attempts.
- It creates, edits and deletes campaign rows, together with the task of an
  instant campaign.
- `action_dispatcher` maps the three campaign action types to operations.
- The `Campaign` record is built from a request payload by keyword
  arguments. It is encoded as the parameters of the store's
  `create_campaign` procedure, one `_`-prefixed key per field.
- `extract_token_from_header` reads a bearer token from an `Authorization`
  header.
- The HTTP entry point `main` reads the action, builds the service, and
  routes five actions to their handlers. One handler parses its schedule
  time with `strptime(..., "%Y-%m-%d %H:%M:%S")`.
- `get_env_vars` is the loader `main` builds the service from.

Modules:

| file | module | models |
|---|---|---|
| common.dfy | `Common` | Option/Result, payload values, Python `str` and truthiness, remote outcomes, the error taxonomy |
| strings.dfy | `Strings` | `str.split`, `str.join` and substring `in`, with their laws |
| tokens.dfy | `Tokens` | `src/utils/token_extractor.py` |
| campaigns.dfy | `Campaigns` | `src/models/campaign.py` |
| datetimes.dfy | `DateTimes` | the `strptime` format used by `main.py` |
| service.dfy | `Service` | `src/services/campaign_service.py`: class `CampaignService` and the backing class `Store` |
| handler.dfy | `Handler` | `main.py`: `main` and its handlers |
| envvars.dfy | `EnvVars` | `src/utils/get_env_vars.py`, as written and corrected |

The service is a Dafny `class`. Its configuration is held in `const`
fields, and the remote queue's contents in `var queue: map<string, Task>`,
keyed by full task name. The Supabase store is a class `Store` whose
`records` map the methods update.

The model cannot predict what the remote queue or the store answers. Each
answer is a parameter:

- a delete gets one `RemoteOutcome`;
- a create gets a function from the attempt number (1, 2, 3) to that
  attempt's outcome;
- a store call gets a `Result<Value, string>`.

Every method states, for each answer, what it returns and what the queue
and the store hold afterwards.

Points where the code's behaviour is easy to misread, and which the
model follows:

- `delete_campaign` deletes the store row first and the task after
  (campaign_service.py:235-238). Its docstring (campaign_service.py:226-231)
  gives no order.
- After three failed create attempts, tenacity raises its `RetryError`,
  which wraps the last attempt's error (`Error.RetryError`). The original
  exception is not re-raised.
- `create_campaign` looks up `payload["type"]` only after the store call has
  succeeded. A payload without a type therefore leaves a stored row and
  raises KeyError.
- `main` reads `action` from inside the payload (main.py:24), whereas the
  tests put it at the top level of the request. A request without a
  payload raises AttributeError; it does not get a 400.
- The `create_schedule` handler exists (main.py:81-87), but `main` never
  routes to it.

## Model

| member | source | states |
|---|---|---|
| Strings.Split | src/utils/token_extractor.py:9 | `split(" ")` yields at least one part, and no part holds the separator |
| Strings.JoinSplit | src/utils/token_extractor.py:9 | joining the parts of a split with the separator gives back the string |
| Strings.SplitJoin | src/utils/token_extractor.py:9-10 | splitting a join of separator-free parts gives back the parts |
| Strings.ContainsAt | src/services/campaign_service.py:161 | the substring test `t in s` holds iff `t` occurs in `s` at some position |
| Tokens.Lookup | src/utils/token_extractor.py:5 | `headers.get(key)` finds a value iff some header has that key; the value found is that of the first entry with the key |
| Tokens.LookupUnique | src/utils/token_extractor.py:5 | in a dict (no key twice), `headers.get(key)` is `v` exactly when `(key, v)` is an item |
| Tokens.TokenOfItem | src/utils/token_extractor.py:4-13 | a dict whose `Authorization` item is `Bearer ` and a space-free token yields that token |
| Tokens.BearerSplit | src/utils/token_extractor.py:9-10 | the split gives exactly two parts with `Bearer` first iff the header is `Bearer`, one space and a space-free token; the parts are then the word and the token |
| Tokens.ExtractToken | src/utils/token_extractor.py:4-13 | missing or empty header: the no-header message; malformed header: the invalid-header message; bearer header: the header is `"Bearer " + result`; the result is space-free iff the header is well-formed |
| Tokens.ExtractTokenExample | tests/token_extractor_test.py:8-10 | `{"Authorization": "Bearer 12345"}` yields `12345` |
| Tokens.NoHeaderExample | tests/token_extractor_test.py:13-17 | `{}` yields `Error: No Authorization header found: {}` |
| Tokens.InvalidHeaderExample | tests/token_extractor_test.py:20-25 | a three-part header yields the invalid-header message with the dict's repr |
| Tokens.MalformedSingleHeader | src/utils/token_extractor.py:9-11 | a single non-empty malformed header yields the invalid-header message, with `{'Authorization': '<h>'}` as the repr |
| Campaigns.FindField | src/models/campaign.py:7-23 | a field found by attribute name is listed and has that name |
| Campaigns.FieldNamedInverse | src/models/campaign.py:7-23 | a field and its attribute name determine each other; every field is declared |
| Campaigns.FromPayload | src/models/campaign.py:7-23 | `Campaign(**payload)` succeeds iff every key is a field and every required field is present; otherwise a construction error; each field holds its argument or the default None |
| Campaigns.FieldsDetermine | src/models/campaign.py:7-23 | two records with equal fields are equal |
| Campaigns.ToRpcParams | src/models/campaign.py:25-27 | one entry per field, under `_` + its name, holding the field's value; no other keys |
| Campaigns.ParamsOfFields | src/models/campaign.py:27 | the comprehension over the listed fields has each field's entry and nothing else |
| Campaigns.RpcKeyInjective | src/models/campaign.py:27 | distinct fields get distinct prefixed keys, and equal keys mean equal fields |
| Campaigns.RpcKeysStripToFields | src/models/campaign.py:27 | removing the leading `_` from every key gives exactly the field names |
| Campaigns.RpcParamsSize | src/models/campaign.py:7-27 | the parameters have exactly sixteen entries, one per field |
| Campaigns.RpcRoundTrip | src/models/campaign.py:25-27 | decoding the parameters gives back the record |
| DateTimes.Parse | main.py:55-57 | a parsed text names a valid date and time and is its zero-padded format; a rejected text is misshapen or names no real date or time |
| DateTimes.FormatFields | main.py:55-57 | formatting the fields read from a well-shaped text gives the text back |
| DateTimes.FieldsFormat | main.py:55-57 | a formatted date is well shaped, and its fields read back unchanged |
| DateTimes.ParseFormat | main.py:55-57 | every valid date and time parses back from its format |
| DateTimes.RejectsInvalid | main.py:55-57 | the format of fields that make no real date or time is rejected |
| DateTimes.FormatInjective | main.py:55-57 | distinct dates have distinct texts |
| DateTimes.ParseExample | tests/main_test.py:4-13 | `2022-01-01 12:00:00` parses to noon on 1 January 2022 |
| DateTimes.RejectsMissingDay | main.py:55-57 | `2023-02-30 00:00:00` is rejected |
| Service.MissingVariables | src/services/campaign_service.py:59-62 | a variable is listed iff it is required and not truthy in the env |
| Service.MissingNone | src/services/campaign_service.py:63 | nothing is missing iff every required variable is set |
| Service.UnsetPositionsOrdered | src/services/campaign_service.py:60-62 | the positions are those of the unset variables, all of them, increasing |
| Service.MissingInOrder | src/services/campaign_service.py:52-62 | the missing list is the unset variables in the order of the check |
| Service.ActionDispatcher | src/services/campaign_service.py:37-44 | succeeds iff the action type is one of the three; the selected operation carries that name; otherwise `Invalid action type: <type>` |
| Service.DispatchName | src/services/campaign_service.py:37-42 | each operation is selected by its own name |
| Service.AttemptsUsed | src/services/campaign_service.py:68 | one to three attempts; each earlier attempt failed; the last succeeded or was the third |
| Service.AttemptsUsedUnique | src/services/campaign_service.py:68 | any attempt count that fits the retry policy is the one used |
| Service.DeleteVerdict | src/services/campaign_service.py:152-166 | True iff deleted; False iff permission is denied or the error text holds `entity was not found.`; otherwise the error is re-raised |
| Service.Store.Rpc | src/services/campaign_service.py:183-186 | on success, returns the new id and stores the parameters under it; on failure, store unchanged |
| Service.Store.Update | src/services/campaign_service.py:211-214 | on success, the data's keys overwrite the row's; a missing row or a failure changes nothing |
| Service.Store.Delete | src/services/campaign_service.py:235-237 | on success, the row is removed; on failure, nothing changes |
| Service.CampaignService.CheckVariables | src/services/campaign_service.py:46-66 | passes iff every required variable is set; otherwise a ValueError listing exactly the missing ones, in order |
| Service.CampaignService.constructor | src/services/campaign_service.py:18-26 | each field holds its variable; `audience` equals `url` |
| Service.CampaignService.New | src/services/campaign_service.py:18-26 | a service iff nothing is missing; otherwise the ValueError of the check |
| Service.CampaignService.QueueFor | src/services/campaign_service.py:80 | `queue_name or self.queue_name`: the given queue unless it is None or empty |
| Service.CampaignService.TaskPathSplit | src/services/campaign_service.py:93 | splitting the full task name at `/` gives its eight components |
| Service.CampaignService.TaskPathInjective | src/services/campaign_service.py:154 | distinct queues or tasks give distinct full names |
| Service.CampaignService.NewTask | src/services/campaign_service.py:84-100 | the task sent: full name, url, account, audience, body and schedule as given |
| Service.CampaignService.CreateTask | src/services/campaign_service.py:68-114 | attempts as the retry policy allows; on success that task is added to the queue under its name; after three failures, RetryError and the queue unchanged |
| Service.CampaignService.DeleteTask | src/services/campaign_service.py:145-166 | the verdict of the outcome; the task is removed only on a confirmed delete; when the answer fits the queue, a name the queue does not hold gives False and changes nothing, and True means the queue held the name and lost exactly that entry |
| Service.CampaignService.EditTask | src/services/campaign_service.py:116-143 | a failed delete raises and the queue is unchanged; False creates nothing; True recreates the task, or the task is gone with RetryError; when the delete's answer fits the queue, editing a task the queue does not hold creates nothing and makes no create attempt |
| Service.CampaignService.CreateCampaign | src/services/campaign_service.py:168-199 | construction, store and key errors leave the queue alone; an instant campaign gets a task named after the new id whose body holds the id; the queue changes only for an instant campaign that succeeds |
| Service.CampaignService.EditCampaign | src/services/campaign_service.py:201-223 | updates the row of `payload["id"]`, then edits that id's task on the configured queue, whatever the campaign's type; when the delete's answer fits the queue and there is no task for the id (a recurring campaign), no task is created |
| Service.CampaignService.DeleteCampaign | src/services/campaign_service.py:225-244 | removes the row first, then the task; a missing or forbidden task still returns the store's answer; when the answer fits the queue, a campaign without a task returns the store's answer and leaves the queue alone |
| Handler.RouteFor | main.py:37-49 | a selected handler's name is the action; `create_schedule` selects none |
| Handler.RouteForName | main.py:37-46 | each handler is selected by its own action |
| Handler.RunHandler | main.py:54-105 | the four guarded handlers always return text (the error text on failure); create-task succeeds iff the schedule time parses and the call succeeds |
| Handler.Main | main.py:22-51 | the outcomes: AttributeError without a payload; 400 without an action; 500 for an empty env; ValueError for an incomplete env; 200 iff a handler ran; otherwise 400 or 500 |
| Handler.RoutedActions | main.py:37-51 | each action in the table runs its handler with status 200, and create-task replies iff its time parses and the call succeeds |
| Handler.OtherActions | main.py:47-49 | every other action gets 400 `Invalid action provided` |
| Handler.CreateTaskTestRequest | tests/main_test.py:4-10 | the handler test's request, with `action` at the top level, gets 400 `No payload or action provided` from `main` |
| Handler.CreateTaskExample | main.py:22-60 | a create-task request with the action in its payload and the schedule time `2022-01-01 12:00:00` answers 200 `Created task` |
| EnvVars.GetEnvVarsAsWritten | src/utils/get_env_vars.py:7-15 | the loader's five keys, third `SCHEDULER_FUNCTION_URL`, each `os.environ.get` |
| EnvVars.AsWrittenNeverBuilds | src/utils/get_env_vars.py:12 | the loader's dict always lacks `SURVEY_EXECUTOR_FUNCTION_URL`, is never empty, and never builds a service |
| EnvVars.AsWrittenNeverRoutes | main.py:30-35 | with the loader as written, `main` only ever replies 400 for a missing action, and raises for any request with an action |
| EnvVars.GetEnvVars | src/utils/get_env_vars.py:7-15 | the corrected loader returns exactly the five required keys |
| EnvVars.BuildsWhenSet | src/utils/get_env_vars.py:9-15 | the corrected loader builds a service iff every required variable is set non-empty |

## Left out

- Logging and the `print` in `delete_campaign` are left out: they have no effect on results.
- The Cloud Tasks client, `queue_path`, the POST method and the OIDC token wrapper are left out. Their answers are parameters.
- The queue's answers are tied to its contents only for deletes, and only in the ensures clauses that assume `Service.AnswersAbsence` (an absent name is answered not-found or permission-denied). Without that assumption the model allows a delete of an absent name to succeed.
- A create's answers are not tied to the queue. The model does not capture the real queue rejecting a create under a name it already holds, nor a create-then-delete of one name always succeeding.
- The tenacity backoff wait (multiplier 1, cap 3) is left out: timing only. The attempt limit of three is modelled.
- Supabase is abstracted. Each call's answer is a parameter. The `create_campaign` procedure is modelled as storing the parameters it receives under the returned id; its real column mapping is not part of this model.
- `json.dumps(payload).encode()` is not modelled: the task body is kept as the payload.
- Flask and `functions_framework` response objects are reduced to a status and a text.
- The secret service, CRC32C checks, `src/models/campaigns.py` and `src/errors/verification_error.py` are not part of this model: the core does not call them.
- The handlers of `main.py` call service methods with signatures that do not match, and the last two call methods that do not exist (`edit_schedule`, `delete_schedule`). The model keeps only their control flow: the service's answer is a parameter `serviceError`. It does not model which argument fails.
- The `except` branch of `get_env_vars`, which returns `{}`, is not modelled: building the dict cannot raise.
- `tests/campaign_services_test.py` expects `check_variables()` to return `[]` with `SCHEDULER_FUNCTION_URL` set. The code returns None, and raises for that environment. The model follows the code.
- DateTimes.Parse: accepts only exactly two digits per field and a single space. Python's `strptime` also accepts single-digit fields, so the model rejects some texts Python accepts.
- Common.Truthy: every `Other` value (list, object) is taken as truthy; an empty list or dict would be falsy in Python.
- Tokens.HeadersRepr: models Python's `repr` of a dict of strings without escaping of quotes or backslashes.
- Service.Env: environment values are strings or None. Other Python types are not modelled.
- Service.ActionDispatcher: takes a string; Python would also accept non-string action types and reject them the same way.
- Concurrency between invocations is not modelled: each call runs alone.
- Service.CampaignService.CreateCampaign: `payload["id"] = campaign_id` (campaign_service.py:190) updates the caller's dict in place, so the caller sees `"id"` even when the task creation then raises. The model builds a new map for the task body, and does not capture that update or its aliasing.
- Tokens.Headers: a sequence of pairs. Lemmas that need dict semantics assume `Tokens.UniqueKeys`; `ExtractToken` itself is stated for any sequence, taking the first entry with a key.

## Findings

| source | as written | input that shows it | evidently intended | confidence | as-written member | corrected member |
|---|---|---|---|---|---|---|
| src/utils/get_env_vars.py:12 | the loader reads and returns the service URL under `SCHEDULER_FUNCTION_URL`, but `CampaignService` requires `SURVEY_EXECUTOR_FUNCTION_URL` (src/services/campaign_service.py:22,55), so `CampaignService(get_env_vars())` raises ValueError and `main` never answers 200 | any environment, even one setting all five variables, e.g. `{"PROJECT_ID": "p", "REGION": "r", "SURVEY_EXECUTOR_FUNCTION_URL": "u", "SERVICE_ACCOUNT": "s", "QUEUE_NAME": "q"}` | read and return `SURVEY_EXECUTOR_FUNCTION_URL`, as the loader's own test expects (tests/get_env_vars_test.py:9-18) | not executed | EnvVars.AsWrittenNeverBuilds | EnvVars.BuildsWhenSet |
