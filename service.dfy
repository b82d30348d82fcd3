/**
 * `CampaignService` (src/services/campaign_service.py): it validates its
 * configuration, keeps the tasks of a remote task queue, and writes
 * campaigns to a backing store, creating, recreating or deleting the
 * task of an instant campaign alongside.
 *
 * The remote queue is the service's `queue` field: a map from the full
 * task name to the task. Each call to the remote queue or to the store has
 * an answer the model cannot predict. It is passed in as a parameter: one
 * `RemoteOutcome` per delete, a function from the attempt number (1, 2,
 * 3) to its outcome per create, and an answer per store call.
 */
module Service {
  import opened Common
  import opened Strings
  import opened Campaigns
  import opened DateTimes

  /** The environment variables: a dict whose values may be None. */
  type Env = map<string, Option<string>>

  /** The variables `check_variables` demands, in the order it checks them. */
  const RequiredVariables: seq<string> :=
    ["PROJECT_ID", "REGION", "SURVEY_EXECUTOR_FUNCTION_URL", "SERVICE_ACCOUNT", "QUEUE_NAME"]

  /** How many times `create_task` is tried before the failure is final. */
  const MaxAttempts: nat := 3

  /** The text of a delete error that means the task does not exist. */
  const NotFoundMarker: string := "entity was not found."

  /** `env_vars.get(k)` is truthy: present, not None and not empty. */
  predicate IsSet(env: Env, k: string)
  {
    k in env && env[k].Some? && env[k].value != ""
  }

  /** The value of a set variable. */
  function Setting(env: Env, k: string): (v: string)
    requires IsSet(env, k)
    ensures v != ""
  {
    env[k].value
  }

  /** The variables of `vars` that are not set, in the order of `vars`. */
  function MissingVariables(vars: seq<string>, env: Env): (missing: seq<string>)
    ensures forall v :: v in missing <==> v in vars && !IsSet(env, v)
    ensures |missing| <= |vars|
  {
    if vars == [] then []
    else
      var init := MissingVariables(vars[..|vars| - 1], env);
      var last := vars[|vars| - 1];
      assert vars == vars[..|vars| - 1] + [last];
      if IsSet(env, last) then init else init + [last]
  }

  /** Nothing is missing exactly when every variable is set. */
  lemma MissingNone(vars: seq<string>, env: Env)
    ensures MissingVariables(vars, env) == [] <==> forall v :: v in vars ==> IsSet(env, v)
  {
    var missing := MissingVariables(vars, env);
    if missing != [] {
      assert missing[0] in missing;
    }
  }

  /** The positions in `vars` of the variables that are not set. */
  function UnsetPositions(vars: seq<string>, env: Env): (pos: seq<nat>)
    ensures forall k :: 0 <= k < |pos| ==> pos[k] < |vars|
  {
    if vars == [] then []
    else
      var init := UnsetPositions(vars[..|vars| - 1], env);
      if IsSet(env, vars[|vars| - 1]) then init else init + [|vars| - 1]
  }

  /** The positions are those of the unset variables, all of them, in increasing order. */
  lemma {:induction false} UnsetPositionsOrdered(vars: seq<string>, env: Env)
    ensures var pos := UnsetPositions(vars, env);
            (forall k :: 0 <= k < |pos| ==> !IsSet(env, vars[pos[k]]))
            && (forall k, l :: 0 <= k < l < |pos| ==> pos[k] < pos[l])
            && (forall i :: 0 <= i < |vars| && !IsSet(env, vars[i]) ==> i in pos)
  {
    if vars != [] {
      var init := vars[..|vars| - 1];
      UnsetPositionsOrdered(init, env);
      var p := UnsetPositions(init, env);
      assert forall k :: 0 <= k < |p| ==> vars[p[k]] == init[p[k]];
      assert forall i :: 0 <= i < |init| ==> vars[i] == init[i];
    }
  }

  /**
   * The missing variables are the variables at the unset positions, in
   * order: exactly the unset ones, listed in the order they are checked.
   */
  lemma {:induction false} MissingInOrder(vars: seq<string>, env: Env)
    ensures |MissingVariables(vars, env)| == |UnsetPositions(vars, env)|
    ensures forall k :: 0 <= k < |MissingVariables(vars, env)| ==>
              MissingVariables(vars, env)[k] == vars[UnsetPositions(vars, env)[k]]
  {
    if vars != [] {
      var init := vars[..|vars| - 1];
      var last := |vars| - 1;
      MissingInOrder(init, env);
      var m := MissingVariables(init, env);
      var p := UnsetPositions(init, env);
      assert forall k :: 0 <= k < |m| ==> m[k] == vars[p[k]];
      if IsSet(env, vars[last]) {
        assert MissingVariables(vars, env) == m;
        assert UnsetPositions(vars, env) == p;
      } else {
        assert MissingVariables(vars, env) == m + [vars[last]];
        assert UnsetPositions(vars, env) == p + [last];
      }
    }
  }

  /** The message of the ValueError `check_variables` raises. */
  function UndefinedMessage(missing: seq<string>): string
  {
    "Undefined environment variables: " + Join(missing, ", ")
  }

  /** A task as the service sends it to the queue (the HTTP method, always POST, is left out). */
  datatype Task = Task(
    name: string,
    url: string,
    serviceAccountEmail: string,
    audience: string,
    body: Payload,
    scheduleTime: Option<DateTime>)

  /** The operations `action_dispatcher` can select. */
  datatype CampaignAction = CreateCampaignAction | EditCampaignAction | DeleteCampaignAction

  /** The action type that selects an operation. */
  function ActionName(a: CampaignAction): string
  {
    match a
    case CreateCampaignAction => "create_campaign"
    case EditCampaignAction => "edit_campaign"
    case DeleteCampaignAction => "delete_campaign"
  }

  /**
   * `action_dispatcher`: each of the three action types selects its
   * operation, and every other action type raises ValueError.
   */
  function ActionDispatcher(actionType: string): (r: Result<CampaignAction, Error>)
    ensures r.Success? <==> actionType in {"create_campaign", "edit_campaign", "delete_campaign"}
    ensures r.Success? ==> ActionName(r.value) == actionType
    ensures r.Failure? ==> r.error == InvalidAction("Invalid action type: " + actionType)
  {
    if actionType == "create_campaign" then Success(CreateCampaignAction)
    else if actionType == "edit_campaign" then Success(EditCampaignAction)
    else if actionType == "delete_campaign" then Success(DeleteCampaignAction)
    else Failure(InvalidAction("Invalid action type: " + actionType))
  }

  /** Every operation is selected by its own name. */
  lemma DispatchName(a: CampaignAction)
    ensures ActionDispatcher(ActionName(a)) == Success(a)
  {
    match a
    case CreateCampaignAction =>
    case EditCampaignAction =>
      assert ActionName(a) != "create_campaign";
    case DeleteCampaignAction =>
      assert ActionName(a) != "create_campaign" && ActionName(a) != "edit_campaign";
  }

  /**
   * The number of create attempts the retry policy makes: it stops at the
   * first success and after the third attempt.
   */
  function AttemptsUsed(remote: nat -> RemoteOutcome): (n: nat)
    ensures 1 <= n <= MaxAttempts
    ensures forall k :: 1 <= k < n ==> remote(k) != Ok
    ensures remote(n) == Ok || n == MaxAttempts
  {
    if remote(1) == Ok then 1 else if remote(2) == Ok then 2 else 3
  }

  /** The attempt count is the only one that fits the policy. */
  lemma AttemptsUsedUnique(remote: nat -> RemoteOutcome, k: nat)
    requires 1 <= k <= MaxAttempts
    requires forall j :: 1 <= j < k ==> remote(j) != Ok
    requires remote(k) == Ok || k == MaxAttempts
    ensures k == AttemptsUsed(remote)
  {
  }

  /** How `delete_task` answers a remote outcome: True, False, or the error re-raised. */
  function DeleteVerdict(outcome: RemoteOutcome): (r: Result<bool, Error>)
    ensures r == Success(true) <==> outcome == Ok
    ensures r == Success(false) <==>
              outcome == PermissionDenied || (outcome.Failed? && Contains(outcome.message, NotFoundMarker))
    ensures r.Failure? ==> r.error == RemoteError(outcome)
  {
    match outcome
    case Ok => Success(true)
    case PermissionDenied => Success(false)
    case Failed(message) =>
      if Contains(message, NotFoundMarker) then Success(false) else Failure(RemoteError(outcome))
  }

  /**
   * How the real queue answers a delete of a name it does not hold: with
   * the not-found error, or with PermissionDenied when the caller may not
   * look. The methods below promise more when the delete's answer fits
   * the queue in this way.
   */
  predicate AnswersAbsence(queue: map<string, Task>, name: string, outcome: RemoteOutcome)
  {
    name !in queue ==> outcome == PermissionDenied || (outcome.Failed? && Contains(outcome.message, NotFoundMarker))
  }

  /** The backing store: the campaign rows, keyed by the text of their id. */
  class Store {
    var records: map<string, Payload>

    constructor (records: map<string, Payload>)
      ensures this.records == records
    {
      this.records := records;
    }

    /**
     * The `create_campaign` procedure: on success it returns the new id
     * and holds a row with the parameters under it.
     */
    method Rpc(params: Payload, answer: Result<Value, string>) returns (r: Result<Value, Error>)
      modifies this
      ensures answer.Success? ==> r == Success(answer.value) && records == old(records)[PyStr(answer.value) := params]
      ensures answer.Failure? ==> r == Failure(StoreError(answer.error)) && records == old(records)
    {
      if answer.Success? {
        records := records[PyStr(answer.value) := params];
        r := Success(answer.value);
      } else {
        r := Failure(StoreError(answer.error));
      }
    }

    /**
     * An update of the row whose id is `id`: the data's keys overwrite the
     * row's; without such a row nothing changes.
     */
    method Update(id: string, data: Payload, answer: Result<Value, string>) returns (r: Result<Value, Error>)
      modifies this
      ensures answer.Success? ==> r == Success(answer.value)
      ensures answer.Success? && id in old(records) ==> records == old(records)[id := old(records)[id] + data]
      ensures answer.Failure? ==> r == Failure(StoreError(answer.error))
      ensures answer.Failure? || id !in old(records) ==> records == old(records)
    {
      if answer.Success? {
        if id in records {
          records := records[id := records[id] + data];
        }
        r := Success(answer.value);
      } else {
        r := Failure(StoreError(answer.error));
      }
    }

    /** A delete of the row whose id is `id`. */
    method Delete(id: string, answer: Result<Value, string>) returns (r: Result<Value, Error>)
      modifies this
      ensures answer.Success? ==> r == Success(answer.value) && records == old(records) - {id}
      ensures answer.Failure? ==> r == Failure(StoreError(answer.error)) && records == old(records)
    {
      if answer.Success? {
        records := records - {id};
        r := Success(answer.value);
      } else {
        r := Failure(StoreError(answer.error));
      }
    }
  }

  /** `payload["type"] == "instant"`, for a payload that has a type. */
  predicate IsInstant(payload: Payload)
    requires "type" in payload
  {
    payload["type"] == Str("instant")
  }

  class CampaignService {
    const env: Env
    const project: string
    const location: string
    const url: string
    const audience: string
    const serviceAccountEmail: string
    const queueName: string

    /** The tasks of the remote queue, by full task name. */
    var queue: map<string, Task>

    /** The settings a constructed service holds: every one of them set. */
    ghost predicate Configured()
    {
      project != "" && location != "" && url != "" && audience != ""
      && serviceAccountEmail != "" && queueName != ""
    }

    /**
     * `check_variables`: every required variable is checked in turn, and
     * the missing ones are reported together.
     */
    static method CheckVariables(env: Env) returns (outcome: Outcome<Error>)
      ensures outcome.Pass? <==> forall v :: v in RequiredVariables ==> IsSet(env, v)
      ensures outcome.Fail? ==>
                outcome.error == ConfigurationError(UndefinedMessage(MissingVariables(RequiredVariables, env)))
    {
      var undefined: seq<string> := [];
      var i := 0;
      while i < |RequiredVariables|
        invariant 0 <= i <= |RequiredVariables|
        invariant undefined == MissingVariables(RequiredVariables[..i], env)
      {
        var v := RequiredVariables[i];
        assert RequiredVariables[..i + 1] == RequiredVariables[..i] + [v];
        if !IsSet(env, v) {
          undefined := undefined + [v];
        }
        i := i + 1;
      }
      assert RequiredVariables[..i] == RequiredVariables;
      MissingNone(RequiredVariables, env);
      if undefined != [] {
        outcome := Fail(ConfigurationError(UndefinedMessage(undefined)));
      } else {
        outcome := Pass;
      }
    }

    /** `__init__` once `check_variables` has passed; `tasks` is what the queue holds. */
    constructor (env: Env, tasks: map<string, Task>)
      requires forall v :: v in RequiredVariables ==> IsSet(env, v)
      ensures this.env == env && queue == tasks
      ensures project == Setting(env, "PROJECT_ID") && location == Setting(env, "REGION")
      ensures url == Setting(env, "SURVEY_EXECUTOR_FUNCTION_URL") && audience == url
      ensures serviceAccountEmail == Setting(env, "SERVICE_ACCOUNT") && queueName == Setting(env, "QUEUE_NAME")
      ensures Configured()
    {
      assert "PROJECT_ID" in RequiredVariables && "REGION" in RequiredVariables;
      assert "SURVEY_EXECUTOR_FUNCTION_URL" in RequiredVariables && "SERVICE_ACCOUNT" in RequiredVariables;
      assert "QUEUE_NAME" in RequiredVariables;
      this.env := env;
      project := Setting(env, "PROJECT_ID");
      location := Setting(env, "REGION");
      url := Setting(env, "SURVEY_EXECUTOR_FUNCTION_URL");
      audience := Setting(env, "SURVEY_EXECUTOR_FUNCTION_URL");
      serviceAccountEmail := Setting(env, "SERVICE_ACCOUNT");
      queueName := Setting(env, "QUEUE_NAME");
      queue := tasks;
    }

    /**
     * `CampaignService(env_vars)`: a service when every required variable
     * is set, and otherwise the ValueError of `check_variables`.
     */
    static method New(env: Env, tasks: map<string, Task>) returns (r: Result<CampaignService, Error>)
      ensures r.Success? <==> MissingVariables(RequiredVariables, env) == []
      ensures r.Failure? ==> r.error == ConfigurationError(UndefinedMessage(MissingVariables(RequiredVariables, env)))
      ensures r.Success? ==> fresh(r.value) && r.value.env == env && r.value.queue == tasks && r.value.Configured()
    {
      var checked := CheckVariables(env);
      MissingNone(RequiredVariables, env);
      if checked.Fail? {
        r := Failure(checked.error);
      } else {
        var service := new CampaignService(env, tasks);
        r := Success(service);
      }
    }

    /** `queue_name or self.queue_name`: the given queue unless it is None or empty. */
    function QueueFor(queueName: Option<string>): (q: string)
      requires Configured()
      ensures q != ""
      ensures queueName.Some? && queueName.value != "" ==> q == queueName.value
      ensures queueName.None? || queueName.value == "" ==> q == this.queueName
    {
      if queueName.Some? && queueName.value != "" then queueName.value else this.queueName
    }

    /** The full name of task `taskName` in queue `q`. */
    function TaskPath(q: string, taskName: string): string
    {
      "projects/" + project + "/locations/" + location + "/queues/" + q + "/tasks/" + taskName
    }

    /** Concatenation regrouped to the right. */
    static lemma Reassociate(a: string, b: string, c: string, d: string, e: string, f: string, g: string, h: string)
      ensures a + b + c + d + e + f + g + h == a + (b + (c + (d + (e + (f + (g + h))))))
    {
    }

    /** The components of the task path, none of them holding a `/`. */
    function PathComponents(q: string, taskName: string): seq<string>
    {
      ["projects", project, "locations", location, "queues", q, "tasks", taskName]
    }

    /**
     * When no component holds a `/`, splitting the task path at every `/`
     * gives back its eight components.
     */
    lemma TaskPathSplit(q: string, taskName: string)
      requires '/' !in project && '/' !in location && '/' !in q && '/' !in taskName
      ensures Split(TaskPath(q, taskName), '/') == PathComponents(q, taskName)
    {
      TaskPathGrouped(q, taskName);
      SplitGrouped(project, location, q, taskName);
    }

    /** The task path with each `/` between two components. */
    lemma TaskPathGrouped(q: string, taskName: string)
      ensures TaskPath(q, taskName) ==
              "projects" + "/" + (project + "/" + ("locations" + "/" + (location + "/" + ("queues" + "/"
              + (q + "/" + ("tasks" + "/" + taskName))))))
    {
      var u6 := q + ("/tasks/" + taskName);
      assert u6 == q + "/" + ("tasks" + "/" + taskName);
      var u4 := location + ("/queues/" + u6);
      assert u4 == location + "/" + ("queues" + "/" + u6);
      var u2 := project + ("/locations/" + u4);
      assert u2 == project + "/" + ("locations" + "/" + u4);
      assert "projects/" + u2 == "projects" + "/" + u2;
      Reassociate("projects/", project, "/locations/", location, "/queues/", q, "/tasks/", taskName);
    }

    /** Splitting components joined by `/` gives them back, when none holds a `/`. */
    static lemma SplitGrouped(project: string, location: string, q: string, taskName: string)
      requires '/' !in project && '/' !in location && '/' !in q && '/' !in taskName
      ensures Split("projects" + "/" + (project + "/" + ("locations" + "/" + (location + "/" + ("queues" + "/"
              + (q + "/" + ("tasks" + "/" + taskName)))))), '/')
              == ["projects", project, "locations", location, "queues", q, "tasks", taskName]
    {
      var s6 := "tasks" + "/" + taskName;
      var s5 := q + "/" + s6;
      var s4 := "queues" + "/" + s5;
      var s3 := location + "/" + s4;
      var s2 := "locations" + "/" + s3;
      var s1 := project + "/" + s2;
      SplitWithoutSeparator(taskName, '/');
      SplitAfterPart("tasks", taskName, '/');
      SplitAfterPart(q, s6, '/');
      SplitAfterPart("queues", s5, '/');
      SplitAfterPart(location, s4, '/');
      SplitAfterPart("locations", s3, '/');
      SplitAfterPart(project, s2, '/');
      SplitAfterPart("projects", s1, '/');
    }

    /** Distinct queues or task names give distinct task paths. */
    lemma TaskPathInjective(q: string, t: string, q': string, t': string)
      requires '/' !in project && '/' !in location
      requires '/' !in q && '/' !in t && '/' !in q' && '/' !in t'
      requires TaskPath(q, t) == TaskPath(q', t')
      ensures q == q' && t == t'
    {
      TaskPathSplit(q, t);
      TaskPathSplit(q', t');
      assert PathComponents(q, t)[5] == PathComponents(q', t')[5];
      assert PathComponents(q, t)[7] == PathComponents(q', t')[7];
    }

    /** The task `create_task` sends. */
    function NewTask(payload: Payload, taskName: string, scheduleTime: Option<DateTime>, queueName: Option<string>): (t: Task)
      requires Configured()
      ensures t.name == TaskPath(QueueFor(queueName), taskName)
      ensures t.url == url && t.audience == audience && t.serviceAccountEmail == serviceAccountEmail
      ensures t.body == payload && t.scheduleTime == scheduleTime
    {
      Task(TaskPath(QueueFor(queueName), taskName), url, serviceAccountEmail, audience, payload, scheduleTime)
    }

    /**
     * `create_task` under its retry policy: attempt `k` gets `remote(k)`.
     * The first success adds the task to the queue and ends the retries;
     * when all three attempts fail, RetryError wraps the last failure and
     * the queue is as it was.
     */
    method CreateTask(payload: Payload, taskName: string, scheduleTime: Option<DateTime>,
                      queueName: Option<string>, remote: nat -> RemoteOutcome)
      returns (r: Result<Task, Error>, attempts: nat)
      requires Configured()
      modifies this
      ensures attempts == AttemptsUsed(remote)
      ensures r.Success? <==> remote(attempts) == Ok
      ensures r.Success? ==>
                r.value == NewTask(payload, taskName, scheduleTime, queueName)
                && queue == old(queue)[r.value.name := r.value]
      ensures r.Failure? ==>
                attempts == MaxAttempts && r.error == RetryError(remote(MaxAttempts)) && queue == old(queue)
    {
      attempts := 0;
      while attempts < MaxAttempts
        invariant 0 <= attempts <= MaxAttempts
        invariant forall k :: 1 <= k <= attempts ==> remote(k) != Ok
        invariant queue == old(queue)
      {
        attempts := attempts + 1;
        var q := QueueFor(queueName);
        var task := Task(TaskPath(q, taskName), url, serviceAccountEmail, audience, map[], None);
        if scheduleTime.Some? {
          task := task.(scheduleTime := scheduleTime);
        }
        task := task.(body := payload);
        if remote(attempts) == Ok {
          queue := queue[task.name := task];
          AttemptsUsedUnique(remote, attempts);
          return Success(task), attempts;
        }
      }
      AttemptsUsedUnique(remote, attempts);
      r := Failure(RetryError(remote(MaxAttempts)));
    }

    /**
     * `delete_task`: True once the task is deleted; False, without raising,
     * when permission is denied or the task does not exist; any other
     * error is raised again.
     */
    method DeleteTask(taskName: string, queueName: Option<string>, outcome: RemoteOutcome)
      returns (r: Result<bool, Error>)
      requires Configured()
      modifies this
      ensures r == DeleteVerdict(outcome)
      ensures outcome == Ok ==> queue == old(queue) - {TaskPath(QueueFor(queueName), taskName)}
      ensures outcome != Ok ==> queue == old(queue)
      ensures var name := TaskPath(QueueFor(queueName), taskName);
              AnswersAbsence(old(queue), name, outcome) ==>
                (name !in old(queue) ==> r == Success(false) && queue == old(queue))
                && (r == Success(true) ==> name in old(queue) && |queue| == |old(queue)| - 1)
    {
      var name := TaskPath(QueueFor(queueName), taskName);
      if outcome == Ok {
        queue := queue - {name};
        r := Success(true);
      } else if outcome == PermissionDenied {
        r := Success(false);
      } else if Contains(outcome.message, NotFoundMarker) {
        r := Success(false);
      } else {
        r := Failure(RemoteError(outcome));
      }
    }

    /**
     * `edit_task`: delete the task, then create it anew only if the delete
     * returned True. `createAttempts` counts the create attempts.
     */
    method EditTask(payload: Payload, taskName: string, scheduleTime: Option<DateTime>, queueName: Option<string>,
                    deleteOutcome: RemoteOutcome, remote: nat -> RemoteOutcome)
      returns (r: Outcome<Error>, createAttempts: nat)
      requires Configured()
      modifies this
      ensures DeleteVerdict(deleteOutcome).Failure? ==>
                r == Fail(DeleteVerdict(deleteOutcome).error) && createAttempts == 0 && queue == old(queue)
      ensures DeleteVerdict(deleteOutcome) == Success(false) ==>
                r == Pass && createAttempts == 0 && queue == old(queue)
      ensures DeleteVerdict(deleteOutcome) == Success(true) ==>
                var task := NewTask(payload, taskName, scheduleTime, queueName);
                createAttempts == AttemptsUsed(remote)
                && (remote(createAttempts) == Ok ==> r == Pass && queue == (old(queue) - {task.name})[task.name := task])
                && (remote(createAttempts) != Ok ==>
                      r == Fail(RetryError(remote(MaxAttempts))) && queue == old(queue) - {task.name})
      ensures var name := TaskPath(QueueFor(queueName), taskName);
              AnswersAbsence(old(queue), name, deleteOutcome) && name !in old(queue) ==>
                r == Pass && createAttempts == 0 && queue == old(queue)
    {
      var deleted := DeleteTask(taskName, queueName, deleteOutcome);
      createAttempts := 0;
      if deleted.Failure? {
        r := Fail(deleted.error);
      } else if deleted.value {
        var created;
        created, createAttempts := CreateTask(payload, taskName, scheduleTime, queueName, remote);
        r := if created.Success? then Pass else Fail(created.error);
      } else {
        r := Pass;
      }
    }

    /**
     * `create_campaign`: build the record, store it through the
     * `create_campaign` procedure, and for an instant campaign create a
     * task named after the new id whose payload gains that id.
     */
    method CreateCampaign(store: Store, payload: Payload, rpcAnswer: Result<Value, string>,
                          remote: nat -> RemoteOutcome)
      returns (r: Result<Value, Error>)
      requires Configured()
      modifies this, store
      ensures FromPayload(payload).Failure? ==>
                r == Failure(FromPayload(payload).error) && store.records == old(store.records) && queue == old(queue)
      ensures FromPayload(payload).Success? && rpcAnswer.Failure? ==>
                r == Failure(StoreError(rpcAnswer.error)) && store.records == old(store.records) && queue == old(queue)
      ensures FromPayload(payload).Success? && rpcAnswer.Success? ==>
                store.records == old(store.records)[PyStr(rpcAnswer.value) := ToRpcParams(FromPayload(payload).value)]
      ensures FromPayload(payload).Success? && rpcAnswer.Success? && "type" !in payload ==>
                r == Failure(MissingKey("type")) && queue == old(queue)
      ensures FromPayload(payload).Success? && rpcAnswer.Success? && "type" in payload && !IsInstant(payload) ==>
                r == Success(rpcAnswer.value) && queue == old(queue)
      ensures FromPayload(payload).Success? && rpcAnswer.Success? && "type" in payload && IsInstant(payload) ==>
                var id := rpcAnswer.value;
                var task := NewTask(payload["id" := id], PyStr(id), None, Some(queueName));
                (remote(AttemptsUsed(remote)) == Ok ==> r == Success(id) && queue == old(queue)[task.name := task])
                && (remote(AttemptsUsed(remote)) != Ok ==>
                      r == Failure(RetryError(remote(MaxAttempts))) && queue == old(queue))
      ensures r.Success? ==> rpcAnswer.Success? && r.value == rpcAnswer.value
      ensures queue != old(queue) ==> r.Success? && "type" in payload && IsInstant(payload)
    {
      var campaign := FromPayload(payload);
      if campaign.Failure? {
        return Failure(campaign.error);
      }
      var id := store.Rpc(ToRpcParams(campaign.value), rpcAnswer);
      if id.Failure? {
        return Failure(id.error);
      }
      if "type" !in payload {
        return Failure(MissingKey("type"));
      }
      if payload["type"] == Str("instant") {
        var body := payload["id" := id.value];
        var created, _ := CreateTask(body, PyStr(id.value), None, Some(queueName), remote);
        if created.Failure? {
          return Failure(created.error);
        }
      }
      r := Success(id.value);
    }

    /**
     * `edit_campaign`: update the row of `payload["id"]` with the payload,
     * then recreate that id's task on the configured queue, whatever the
     * campaign's type.
     */
    method EditCampaign(store: Store, payload: Payload, updateAnswer: Result<Value, string>,
                        deleteOutcome: RemoteOutcome, remote: nat -> RemoteOutcome)
      returns (r: Result<Value, Error>)
      requires Configured()
      modifies this, store
      ensures "id" !in payload ==>
                r == Failure(MissingKey("id")) && store.records == old(store.records) && queue == old(queue)
      ensures "id" in payload && updateAnswer.Failure? ==>
                r == Failure(StoreError(updateAnswer.error)) && store.records == old(store.records) && queue == old(queue)
      ensures "id" in payload && updateAnswer.Success? && PyStr(payload["id"]) in old(store.records) ==>
                var id := PyStr(payload["id"]);
                store.records == old(store.records)[id := old(store.records)[id] + payload]
      ensures "id" in payload && updateAnswer.Success? && PyStr(payload["id"]) !in old(store.records) ==>
                store.records == old(store.records)
      ensures "id" in payload && updateAnswer.Success? ==>
                var task := NewTask(payload, PyStr(payload["id"]), None, Some(queueName));
                var verdict := DeleteVerdict(deleteOutcome);
                (verdict.Failure? ==> r == Failure(verdict.error) && queue == old(queue))
                && (verdict == Success(false) ==> r == Success(updateAnswer.value) && queue == old(queue))
                && (verdict == Success(true) && remote(AttemptsUsed(remote)) == Ok ==>
                      r == Success(updateAnswer.value) && queue == (old(queue) - {task.name})[task.name := task])
                && (verdict == Success(true) && remote(AttemptsUsed(remote)) != Ok ==>
                      r == Failure(RetryError(remote(MaxAttempts))) && queue == old(queue) - {task.name})
      ensures "id" in payload && updateAnswer.Success? ==>
                var name := TaskPath(queueName, PyStr(payload["id"]));
                AnswersAbsence(old(queue), name, deleteOutcome) && name !in old(queue) ==>
                  r == Success(updateAnswer.value) && queue == old(queue)
    {
      if "id" !in payload {
        return Failure(MissingKey("id"));
      }
      var campaignId := payload["id"];
      var updated := store.Update(PyStr(campaignId), payload, updateAnswer);
      if updated.Failure? {
        return Failure(updated.error);
      }
      var edited, _ := EditTask(payload, PyStr(campaignId), None, Some(queueName), deleteOutcome, remote);
      if edited.Fail? {
        return Failure(edited.error);
      }
      r := Success(updated.value);
    }

    /**
     * `delete_campaign`: delete the row of `payload["id"]` first, then that
     * id's task on the configured queue; a task that cannot be deleted
     * because it is missing or forbidden does not stop the call, which
     * returns the store's answer.
     */
    method DeleteCampaign(store: Store, payload: Payload, deleteAnswer: Result<Value, string>,
                          taskOutcome: RemoteOutcome)
      returns (r: Result<Value, Error>)
      requires Configured()
      modifies this, store
      ensures "id" !in payload ==>
                r == Failure(MissingKey("id")) && store.records == old(store.records) && queue == old(queue)
      ensures "id" in payload && deleteAnswer.Failure? ==>
                r == Failure(StoreError(deleteAnswer.error)) && store.records == old(store.records) && queue == old(queue)
      ensures "id" in payload && deleteAnswer.Success? ==>
                var id := PyStr(payload["id"]);
                var name := TaskPath(queueName, id);
                store.records == old(store.records) - {id}
                && (DeleteVerdict(taskOutcome).Failure? ==> r == Failure(DeleteVerdict(taskOutcome).error))
                && (DeleteVerdict(taskOutcome).Success? ==> r == Success(deleteAnswer.value))
                && (taskOutcome == Ok ==> queue == old(queue) - {name})
                && (taskOutcome != Ok ==> queue == old(queue))
                && (AnswersAbsence(old(queue), name, taskOutcome) && name !in old(queue) ==>
                      r == Success(deleteAnswer.value) && queue == old(queue))
    {
      if "id" !in payload {
        return Failure(MissingKey("id"));
      }
      var campaignId := payload["id"];
      var deleted := store.Delete(PyStr(campaignId), deleteAnswer);
      if deleted.Failure? {
        return Failure(deleted.error);
      }
      var taskDeleted := DeleteTask(PyStr(campaignId), Some(queueName), taskOutcome);
      if taskDeleted.Failure? {
        return Failure(taskDeleted.error);
      }
      r := Success(deleted.value);
    }
  }
}
