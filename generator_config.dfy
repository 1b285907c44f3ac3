/**
 * python-generator/config.py: the check the generator makes on its Gemini
 * API key at start-up, and the settings it reads, each with its default.
 */
module GeneratorConfig {
  import opened Wrappers
  import opened Text
  import opened Json
  import opened Environment

  const RequiredVars: seq<string> := ["GEMINI_API_KEY"]

  /** The value the project's sample `.env` file ships in place of a real key. */
  const PlaceholderKey := "your_gemini_api_key_here"

  /** A required variable the generator cannot use: blank, or still the sample value. */
  predicate Unusable(value: Option<string>) {
    Blank(value) || value == Some(PlaceholderKey)
  }

  /**
   * `Config._validate_environment()`: the `ValueError` it raises, if any.
   * Construction fails exactly when `GEMINI_API_KEY` is unset, empty,
   * blank, or the sample value, and the error names it.
   */
  method ValidateEnvironment(env: Env) returns (error: Option<Fault>)
    ensures error.Some? <==> Blank(GetEnv(env, "GEMINI_API_KEY")) || GetEnv(env, "GEMINI_API_KEY") == Some(PlaceholderKey)
    ensures error.Some? ==> error.value == ValueError(MissingMessage(["GEMINI_API_KEY"]))
  {
    var missing: seq<string> := [];
    var i := 0;
    while i < |RequiredVars|
      invariant 0 <= i <= |RequiredVars|
      invariant missing == MissingVars(env, RequiredVars[..i], Unusable)
    {
      var value := GetEnv(env, RequiredVars[i]);
      if Unusable(value) {
        missing := missing + [RequiredVars[i]];
      }
      assert RequiredVars[..i + 1][..i] == RequiredVars[..i];
      i := i + 1;
    }
    assert RequiredVars[..1] == RequiredVars;
    MissingVarsMembers(env, RequiredVars, Unusable, "GEMINI_API_KEY");
    if missing != [] {
      error := Some(ValueError(MissingMessage(missing)));
    } else {
      error := None;
    }
  }

  /** `config.gemini_api_key`: the raw value; `None` when unset. */
  function GeminiApiKey(env: Env): (r: Option<string>)
    ensures "GEMINI_API_KEY" in env ==> r == Some(env["GEMINI_API_KEY"])
    ensures "GEMINI_API_KEY" !in env ==> r == None
  {
    GetEnv(env, "GEMINI_API_KEY")
  }

  /** `config.output_dir`, as the text the `Path` is built from; "/app/output" when unset. */
  function OutputDir(env: Env): (r: string)
    ensures "OUTPUT_DIR" in env ==> r == env["OUTPUT_DIR"]
    ensures "OUTPUT_DIR" !in env ==> r == "/app/output"
  {
    GetEnvOr(env, "OUTPUT_DIR", "/app/output")
  }

  /** `config.text_model_name`: the value as given; "gemini-2.0-flash" when unset. */
  function TextModelName(env: Env): (r: string)
    ensures "GEMINI_TEXT_MODEL" in env ==> r == env["GEMINI_TEXT_MODEL"]
    ensures "GEMINI_TEXT_MODEL" !in env ==> r == "gemini-2.0-flash"
  {
    GetEnvOr(env, "GEMINI_TEXT_MODEL", "gemini-2.0-flash")
  }

  /** `config.image_model_name`: the value as given; the preview image model when unset. */
  function ImageModelName(env: Env): (r: string)
    ensures "GEMINI_IMAGE_MODEL" in env ==> r == env["GEMINI_IMAGE_MODEL"]
    ensures "GEMINI_IMAGE_MODEL" !in env ==> r == "gemini-2.0-flash-preview-image-generation"
  {
    GetEnvOr(env, "GEMINI_IMAGE_MODEL", "gemini-2.0-flash-preview-image-generation")
  }

  /** `config.log_level`: the value upper-cased, "INFO" when unset. */
  function LogLevel(env: Env): (r: string)
    ensures "LOG_LEVEL" !in env ==> r == "INFO"
    ensures "LOG_LEVEL" in env ==>
      UpperCase(r) && |r| == |env["LOG_LEVEL"]| && Lower(r) == Lower(env["LOG_LEVEL"])
  {
    var v := GetEnvOr(env, "LOG_LEVEL", "INFO");
    UpperOfUpperCase("INFO");
    LowerOfUpper(v);
    Upper(v)
  }

  /** `config.server_host`: the value as given; "0.0.0.0" when unset. */
  function ServerHost(env: Env): (r: string)
    ensures "SERVER_HOST" in env ==> r == env["SERVER_HOST"]
    ensures "SERVER_HOST" !in env ==> r == "0.0.0.0"
  {
    GetEnvOr(env, "SERVER_HOST", "0.0.0.0")
  }

  /**
   * `config.server_port`: 8000 when unset; a set value is read by `int()`,
   * which raises `ValueError` naming the text when it is not an integer.
   */
  function ServerPort(env: Env): (r: Result<int, string>)
    ensures "SERVER_PORT" !in env ==> r == Success(8000)
    ensures "SERVER_PORT" in env ==> r == ParseInt(env["SERVER_PORT"])
    ensures "SERVER_PORT" in env ==>
      forall n :: env["SERVER_PORT"] == IntToString(n) ==> r == Success(n)
    ensures r.Failure? ==>
      "SERVER_PORT" in env &&
      r.error == "invalid literal for int() with base 10: " + ErrorRepr(env["SERVER_PORT"])
  {
    ParseDecimal8000();
    assert forall n :: ParseInt(IntToString(n)) == Success(n) by {
      forall n ensures ParseInt(IntToString(n)) == Success(n) {
        ParseIntOfIntToString(n);
      }
    }
    ParseInt(GetEnvOr(env, "SERVER_PORT", "8000"))
  }
}
