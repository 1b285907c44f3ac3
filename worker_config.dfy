/**
 * python-worker/config.py: the checks the worker makes on its environment
 * at start-up, and the settings it reads from it, each with its default.
 */
module WorkerConfig {
  import opened Wrappers
  import opened Text
  import opened Json
  import opened Environment

  const RequiredVars: seq<string> := ["RABBITMQ_URL"]

  const DefaultGeneratorUrl := "http://python-generator:8000"

  /** The warning logged when `GENERATOR_URL` is unset or empty. */
  const GeneratorUrlWarning := "GENERATOR_URL not set, using default: http://python-generator:8000"

  /** A required variable the worker cannot use. */
  predicate Unusable(value: Option<string>) {
    Blank(value)
  }

  /**
   * `Config._validate_environment()`: the warnings it logs and the
   * `ValueError` it raises, if any. Construction fails exactly when
   * `RABBITMQ_URL` is unset, empty or blank, and the error names it; a
   * missing `GENERATOR_URL` only warns.
   */
  method ValidateEnvironment(env: Env) returns (warnings: seq<string>, error: Option<Fault>)
    ensures error.Some? <==> Blank(GetEnv(env, "RABBITMQ_URL"))
    ensures error.Some? ==> error.value == ValueError(MissingMessage(["RABBITMQ_URL"]))
    ensures warnings == if GetEnvOr(env, "GENERATOR_URL", "") == "" then [GeneratorUrlWarning] else []
  {
    var missing: seq<string> := [];
    var i := 0;
    while i < |RequiredVars|
      invariant 0 <= i <= |RequiredVars|
      invariant missing == MissingVars(env, RequiredVars[..i], Unusable)
    {
      var value := GetEnv(env, RequiredVars[i]);
      if Unusable(value) {
        missing := missing + [RequiredVars[i]];
      }
      assert RequiredVars[..i + 1][..i] == RequiredVars[..i];
      i := i + 1;
    }
    assert RequiredVars[..1] == RequiredVars;
    MissingVarsMembers(env, RequiredVars, Unusable, "RABBITMQ_URL");
    warnings := [];
    var generatorUrl := GetEnv(env, "GENERATOR_URL");
    if generatorUrl.None? || generatorUrl.value == "" {
      warnings := [GeneratorUrlWarning];
    }
    if missing != [] {
      error := Some(ValueError(MissingMessage(missing)));
    } else {
      error := None;
    }
  }

  /** `config.rabbitmq_url`: the raw value, not stripped; `None` when unset. */
  function RabbitmqUrl(env: Env): (r: Option<string>)
    ensures "RABBITMQ_URL" in env ==> r == Some(env["RABBITMQ_URL"])
    ensures "RABBITMQ_URL" !in env ==> r == None
  {
    GetEnv(env, "RABBITMQ_URL")
  }

  /** `config.generator_url`: the value as given, surrounding spaces kept; the service's default when unset. */
  function GeneratorUrl(env: Env): (r: string)
    ensures "GENERATOR_URL" in env ==> r == env["GENERATOR_URL"]
    ensures "GENERATOR_URL" !in env ==> r == "http://python-generator:8000"
  {
    GetEnvOr(env, "GENERATOR_URL", DefaultGeneratorUrl)
  }

  /** `config.log_level`: the value upper-cased, "INFO" when unset. */
  function LogLevel(env: Env): (r: string)
    ensures "LOG_LEVEL" !in env ==> r == "INFO"
    ensures "LOG_LEVEL" in env ==>
      UpperCase(r) && |r| == |env["LOG_LEVEL"]| && Lower(r) == Lower(env["LOG_LEVEL"])
  {
    var v := GetEnvOr(env, "LOG_LEVEL", "INFO");
    UpperOfUpperCase("INFO");
    LowerOfUpper(v);
    Upper(v)
  }

  /**
   * `config.rabbitmq_connection_timeout`: 300 when unset; a set value is
   * read by `int()`, which raises `ValueError` naming the text when it is
   * not an integer.
   */
  function RabbitmqConnectionTimeout(env: Env): (r: Result<int, string>)
    ensures "RABBITMQ_TIMEOUT" !in env ==> r == Success(300)
    ensures "RABBITMQ_TIMEOUT" in env ==> r == ParseInt(env["RABBITMQ_TIMEOUT"])
    ensures "RABBITMQ_TIMEOUT" in env ==>
      forall n :: env["RABBITMQ_TIMEOUT"] == IntToString(n) ==> r == Success(n)
    ensures r.Failure? ==>
      "RABBITMQ_TIMEOUT" in env &&
      r.error == "invalid literal for int() with base 10: " + ErrorRepr(env["RABBITMQ_TIMEOUT"])
  {
    ParseDecimal300();
    assert forall n :: ParseInt(IntToString(n)) == Success(n) by {
      forall n ensures ParseInt(IntToString(n)) == Success(n) {
        ParseIntOfIntToString(n);
      }
    }
    ParseInt(GetEnvOr(env, "RABBITMQ_TIMEOUT", "300"))
  }

  /**
   * `config.health_check_interval`: 30 when unset; a set value is read by
   * `int()`, which raises `ValueError` naming the text when it is not an
   * integer.
   */
  function HealthCheckInterval(env: Env): (r: Result<int, string>)
    ensures "HEALTH_CHECK_INTERVAL" !in env ==> r == Success(30)
    ensures "HEALTH_CHECK_INTERVAL" in env ==> r == ParseInt(env["HEALTH_CHECK_INTERVAL"])
    ensures "HEALTH_CHECK_INTERVAL" in env ==>
      forall n :: env["HEALTH_CHECK_INTERVAL"] == IntToString(n) ==> r == Success(n)
    ensures r.Failure? ==>
      "HEALTH_CHECK_INTERVAL" in env &&
      r.error == "invalid literal for int() with base 10: " + ErrorRepr(env["HEALTH_CHECK_INTERVAL"])
  {
    ParseDecimal30();
    assert forall n :: ParseInt(IntToString(n)) == Success(n) by {
      forall n ensures ParseInt(IntToString(n)) == Success(n) {
        ParseIntOfIntToString(n);
      }
    }
    ParseInt(GetEnvOr(env, "HEALTH_CHECK_INTERVAL", "30"))
  }
}
