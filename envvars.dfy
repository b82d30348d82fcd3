/**
 * `get_env_vars` (src/utils/get_env_vars.py), which `main` uses to build
 * the campaign service: a dict of five settings read from the process
 * environment, each None when unset.
 *
 * As written it reads the service URL under `SCHEDULER_FUNCTION_URL`,
 * while the service demands `SURVEY_EXECUTOR_FUNCTION_URL`, so the dict
 * it returns never builds a service. `GetEnvVarsAsWritten` is that code;
 * `GetEnvVars` reads the key the service and the loader's own test use.
 */
module EnvVars {
  import opened Common
  import opened Service
  import opened Handler

  /** The process environment, `os.environ`. */
  type Environ = map<string, string>

  /** `os.environ.get(k)`. */
  function EnvGet(os: Environ, k: string): (v: Option<string>)
    ensures v.Some? <==> k in os
  {
    if k in os then Some(os[k]) else None
  }

  /** The loader as written, with `SCHEDULER_FUNCTION_URL` as the third key. */
  function GetEnvVarsAsWritten(os: Environ): (env: Env)
    ensures env.Keys == {"PROJECT_ID", "REGION", "SCHEDULER_FUNCTION_URL", "SERVICE_ACCOUNT", "QUEUE_NAME"}
    ensures forall k :: k in env ==> env[k] == EnvGet(os, k)
  {
    map["PROJECT_ID" := EnvGet(os, "PROJECT_ID"),
        "REGION" := EnvGet(os, "REGION"),
        "SCHEDULER_FUNCTION_URL" := EnvGet(os, "SCHEDULER_FUNCTION_URL"),
        "SERVICE_ACCOUNT" := EnvGet(os, "SERVICE_ACCOUNT"),
        "QUEUE_NAME" := EnvGet(os, "QUEUE_NAME")]
  }

  /**
   * Whatever the environment holds, the loader's dict lacks the service
   * URL the constructor demands, and it is never empty.
   */
  lemma AsWrittenNeverBuilds(os: Environ)
    ensures "SURVEY_EXECUTOR_FUNCTION_URL" in MissingVariables(RequiredVariables, GetEnvVarsAsWritten(os))
    ensures GetEnvVarsAsWritten(os) != map[] && !Buildable(GetEnvVarsAsWritten(os))
  {
    var env := GetEnvVarsAsWritten(os);
    assert "SURVEY_EXECUTOR_FUNCTION_URL" !in env;
    assert "SURVEY_EXECUTOR_FUNCTION_URL" in RequiredVariables;
    assert "PROJECT_ID" in env;
  }

  /**
   * Consequently `main`, given the loader's dict, never answers 200 or 500:
   * any request with an action raises the constructor's ValueError.
   */
  lemma AsWrittenNeverRoutes(request: Request, os: Environ, serviceError: Option<string>)
    ensures var r := Main(request, GetEnvVarsAsWritten(os), serviceError);
            r.Replied? ==> r.response == Response(400, NoActionText) && r.route.None?
    ensures request.payload.Some? && Truthy(ActionOf(request.payload.value)) ==>
              Main(request, GetEnvVarsAsWritten(os), serviceError).Raised?
  {
    AsWrittenNeverBuilds(os);
  }

  /** The loader with the key the service reads: it returns the five required settings. */
  function GetEnvVars(os: Environ): (env: Env)
    ensures env.Keys == set v | v in RequiredVariables
    ensures forall k :: k in env ==> env[k] == EnvGet(os, k)
  {
    map["PROJECT_ID" := EnvGet(os, "PROJECT_ID"),
        "REGION" := EnvGet(os, "REGION"),
        "SURVEY_EXECUTOR_FUNCTION_URL" := EnvGet(os, "SURVEY_EXECUTOR_FUNCTION_URL"),
        "SERVICE_ACCOUNT" := EnvGet(os, "SERVICE_ACCOUNT"),
        "QUEUE_NAME" := EnvGet(os, "QUEUE_NAME")]
  }

  /**
   * The corrected loader builds a service exactly when the process
   * environment sets every required variable to a non-empty value.
   */
  lemma BuildsWhenSet(os: Environ)
    ensures Buildable(GetEnvVars(os)) <==> forall v :: v in RequiredVariables ==> v in os && os[v] != ""
    ensures GetEnvVars(os) != map[]
  {
    var env := GetEnvVars(os);
    MissingNone(RequiredVariables, env);
    assert "PROJECT_ID" in RequiredVariables;
    forall v | v in RequiredVariables ensures IsSet(env, v) <==> v in os && os[v] != "" {
      assert v in env && env[v] == EnvGet(os, v);
    }
  }
}
