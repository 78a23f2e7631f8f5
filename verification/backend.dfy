/** The `/run` request handler of the execution service, with the container,
    the temporary workspace and the subprocess abstracted into a process
    outcome supplied by the caller. */
module Backend {
  import opened Basics
  import opened Text
  import opened Languages

  /** The request body after JSON decoding; `stdin` and `timeout_seconds` are
      optional and may be sent as `null`. */
  datatype RunRequest = RunRequest(
    language: string,
    code: string,
    stdin: Field<string>,
    timeoutSeconds: Field<int>)

  datatype HttpError = HttpError(status: int, detail: string)

  const DefaultTimeoutSeconds: int := 5
  /** Extra seconds the compiled languages get on the process deadline. */
  const CompileSlackSeconds: int := 2
  const UnsupportedDetail: string := "Unsupported language. Use 'python', 'java' or 'cpp'."
  const TimedOutMessage: string := "Execution timed out."

  /** The program input actually fed to the process: a missing, `null` or
      empty value is the empty string, anything else is kept. */
  function EffectiveStdin(f: Field<string>): (r: string)
    ensures f.Present? ==> r == f.value
    ensures !f.Present? ==> r == ""
  {
    match f
    case Present(v) => v
    case _ => ""
  }

  /** The timeout budget: a missing, `null` or zero value becomes the default
      of five seconds, and any other value, negative ones included, is kept. */
  function EffectiveTimeout(f: Field<int>): (r: int)
    ensures r != 0
    ensures f.Present? && f.value != 0 ==> r == f.value
    ensures !(f.Present? && f.value != 0) ==> r == DefaultTimeoutSeconds
  {
    match f
    case Present(v) => if v != 0 then v else DefaultTimeoutSeconds
    case _ => DefaultTimeoutSeconds
  }

  /** Accepts a language name in any mix of ASCII case; every other name is a
      400 error. */
  function ParseLanguage(name: string): (r: Result<Language, HttpError>)
    ensures r.Ok? <==> exists l :: ToLower(name) == Name(l)
    ensures r.Ok? ==> Name(r.value) == ToLower(name)
    ensures r.Err? ==> r.error == HttpError(400, UnsupportedDetail)
  {
    var lowered := ToLower(name);
    if lowered == "python" then assert Name(Python) == lowered; Ok(Python)
    else if lowered == "java" then assert Name(Java) == lowered; Ok(Java)
    else if lowered == "cpp" then assert Name(Cpp) == lowered; Ok(Cpp)
    else Err(HttpError(400, UnsupportedDetail))
  }

  /** Two names that agree up to ASCII case are accepted or refused alike, and
      accepted as the same language. */
  lemma ParseLanguageCaseInsensitive(a: string, b: string)
    requires ToLower(a) == ToLower(b)
    ensures ParseLanguage(a) == ParseLanguage(b)
  {
  }

  /** The accepted spellings of a language are exactly its name with each
      letter written in either case. */
  lemma AcceptedSpellings(name: string, l: Language)
    ensures ParseLanguage(name) == Ok(l) <==>
              |name| == |Name(l)| &&
              forall i :: 0 <= i < |name| ==> name[i] == Name(l)[i] || name[i] == UpperChar(Name(l)[i])
  {
    NamesDistinctLowerWords(l, l);
    LowerMatchesWord(name, Name(l));
    if ParseLanguage(name) == Ok(l) {
      assert ToLower(name) == Name(l);
    }
    if ToLower(name) == Name(l) {
      assert ParseLanguage(name).Ok?;
      NamesDistinctLowerWords(ParseLanguage(name).value, l);
    }
  }

  /** Every language's own name is accepted as that language: parsing
      inverts `Name`. */
  lemma ParseLanguageOfName(l: Language)
    ensures ParseLanguage(Name(l)) == Ok(l)
  {
    NamesDistinctLowerWords(l, l);
    var n := Name(l);
    assert forall i :: 0 <= i < |n| ==> LowerChar(n[i]) == n[i];
    assert ToLower(n) == n;
    NamesDistinctLowerWords(ParseLanguage(n).value, l);
  }

  /** The file the source is written to inside the workspace. */
  function SourceFilename(l: Language): string
  {
    match l
    case Python => "code.py"
    case Java => "Main.java"
    case Cpp => "main.cpp"
  }

  /** The wall-clock limit put on the container process: the budget itself for
      Python, two seconds more for the languages compiled first. */
  function ProcessDeadline(l: Language, timeoutSeconds: int): (r: int)
    ensures l == Python ==> r == timeoutSeconds
    ensures l != Python ==> r == timeoutSeconds + CompileSlackSeconds
  {
    if l == Python then timeoutSeconds else timeoutSeconds + CompileSlackSeconds
  }

  /** Everything the handler decides before it starts a process. */
  datatype ExecPlan = ExecPlan(
    language: Language,
    srcname: string,
    code: string,
    stdin: string,
    timeoutSeconds: int,
    deadline: int)

  /** Validates a request and fixes the source file, program input and deadline,
      or refuses it with a 400 before any workspace exists. */
  function Plan(req: RunRequest): (r: Result<ExecPlan, HttpError>)
    ensures r.Err? <==> ParseLanguage(req.language).Err?
    ensures r.Err? ==> r.error == HttpError(400, UnsupportedDetail)
    ensures r.Ok? ==> Name(r.value.language) == ToLower(req.language)
    ensures r.Ok? ==> r.value.code == req.code && r.value.stdin == EffectiveStdin(req.stdin)
    ensures r.Ok? ==> r.value.srcname == SourceFilename(r.value.language)
    ensures r.Ok? ==> r.value.timeoutSeconds == EffectiveTimeout(req.timeoutSeconds)
    ensures r.Ok? ==> r.value.deadline == ProcessDeadline(r.value.language, r.value.timeoutSeconds)
  {
    match ParseLanguage(req.language)
    case Err(e) => Err(e)
    case Ok(l) =>
      var t := EffectiveTimeout(req.timeoutSeconds);
      Ok(ExecPlan(l, SourceFilename(l), req.code, EffectiveStdin(req.stdin), t, ProcessDeadline(l, t)))
  }

  /** What became of the container process: it exited with some output, or
      the deadline passed first. */
  datatype ProcessOutcome =
    | Completed(stdout: string, stderr: string, returnCode: int)
    | TimedOut

  datatype RunResponse = RunResponse(
    stdout: string,
    stderr: string,
    compileStdout: Option<string>,
    compileStderr: Option<string>,
    timedOut: bool,
    exitCode: Option<int>)

  /** The response for a process outcome. A timeout is the only case flagged as
      timed out and the only case without an exit code; a completed process is
      reported with its own output and return code. */
  function Respond(o: ProcessOutcome): (r: RunResponse)
    ensures r.timedOut <==> o.TimedOut?
    ensures r.exitCode.Some? <==> o.Completed?
    ensures o.Completed? ==> r.stdout == o.stdout && r.stderr == o.stderr && r.exitCode == Some(o.returnCode)
    ensures o.TimedOut? ==> r.stdout == "" && r.stderr == TimedOutMessage
    ensures r.compileStdout == None && r.compileStderr == None
  {
    match o
    case Completed(out, err, rc) => RunResponse(out, err, None, None, false, Some(rc))
    case TimedOut => RunResponse("", TimedOutMessage, None, None, true, None)
  }

  /** What the I/O part of the handler did: creating the workspace, writing
      the source and starting the container either led to a process outcome,
      or raised an exception the handler does not catch. */
  datatype Execution = Ran(outcome: ProcessOutcome) | Raised

  /** The body the web framework answers with when a handler raises. */
  const InternalErrorDetail: string := "Internal Server Error"

  /** The whole handler. `exec` stands for creating the workspace, writing the
      source and running the container under the plan; a refused request never
      consults it. An exception other than the process timeout escapes the
      handler and becomes a 500. */
  function RunCode(req: RunRequest, exec: ExecPlan -> Execution): (r: Result<RunResponse, HttpError>)
    ensures ParseLanguage(req.language).Err? ==> r == Err(HttpError(400, UnsupportedDetail))
    ensures r.Err? && r.error.status == 400 <==> ParseLanguage(req.language).Err?
    ensures ParseLanguage(req.language).Ok? ==> (r.Err? <==> exec(Plan(req).value).Raised?)
    ensures ParseLanguage(req.language).Ok? && r.Err? ==> r.error == HttpError(500, InternalErrorDetail)
    ensures r.Ok? ==> exec(Plan(req).value).Ran?
    ensures r.Ok? ==> (r.value.timedOut <==> exec(Plan(req).value).outcome.TimedOut?)
    ensures r.Ok? && r.value.timedOut ==> r.value.exitCode == None && r.value.stderr == TimedOutMessage
    ensures r.Ok? ==> r.value == Respond(exec(Plan(req).value).outcome)
  {
    match Plan(req)
    case Err(e) => Err(e)
    case Ok(p) =>
      match exec(p)
      case Ran(o) => Ok(Respond(o))
      case Raised => Err(HttpError(500, InternalErrorDetail))
  }

  /** A refused request gets the same answer whatever the process would have
      done, so no process is involved in refusing it. */
  lemma RefusalIgnoresProcess(req: RunRequest, exec1: ExecPlan -> Execution, exec2: ExecPlan -> Execution)
    requires ParseLanguage(req.language).Err?
    ensures RunCode(req, exec1) == RunCode(req, exec2) == Err(HttpError(400, UnsupportedDetail))
  {
  }

  /** Upper-case names are accepted: the handler serves `"PYTHON"` as Python. */
  lemma UpperCaseNameAccepted()
    ensures ParseLanguage("PYTHON") == Ok(Python)
    ensures ParseLanguage("Java") == Ok(Java)
    ensures ParseLanguage("CPP") == Ok(Cpp)
    ensures ParseLanguage("c++").Err?
  {
    assert ToLower("PYTHON") == "python";
    assert ToLower("Java") == "java";
    assert ToLower("CPP") == "cpp";
  }
}
