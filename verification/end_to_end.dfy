/** Properties of the UI and the execution service taken together: a run
    started from any session, carried over the wire, handled, answered and
    shown in the panel. */
module EndToEnd {
  import opened Basics
  import opened Languages
  import App
  import Backend
  import Editor
  import OutputPanel
  import Wire
  import Text

  /** The handler's view of the request a session sends when Run is pressed. */
  function PlanFor(s: App.Session): Result<Backend.ExecPlan, Backend.HttpError>
    requires !s.loading
  {
    Backend.Plan(Wire.ToBackendRequest(App.StartRun(s).request))
  }

  /** The session after pressing Run and settling with whatever the handler
      answers when its process ends as `exec` says. */
  function RunToCompletion(s: App.Session, exec: Backend.ExecPlan -> Backend.Execution): App.Session
    requires !s.loading
  {
    var started := App.StartRun(s);
    var answer := Backend.RunCode(Wire.ToBackendRequest(started.request), exec);
    App.Settle(started.session, Wire.Deliver(answer))
  }

  /** The handler accepts every request the UI sends, for the same language;
      it writes the source under the name the UI saves it as, feeds the input
      verbatim, and its process deadline ends before the UI stops waiting, so a
      program that runs too long is reported by the service rather than lost to
      the client's own deadline. */
  lemma RequestAccepted(s: App.Session)
    requires !s.loading
    ensures PlanFor(s).Ok?
    ensures PlanFor(s).value.language == s.language
    ensures PlanFor(s).value.srcname == App.SaveCode(s).filename
    ensures PlanFor(s).value.code == s.code && PlanFor(s).value.stdin == s.stdin
    ensures PlanFor(s).value.timeoutSeconds == App.RequestTimeoutSeconds
    ensures PlanFor(s).value.deadline * 1000 < App.StartRun(s).request.clientDeadlineMs
  {
    Backend.ParseLanguageOfName(s.language);
  }

  /** The UI's save name and the service's source name agree for every
      language. */
  lemma ExportMatchesSourceName(l: Language)
    ensures App.ExportFilename(Name(l)) == Backend.SourceFilename(l)
  {
  }

  /** A run leaves the panel showing exactly what the service reported for the
      process, or the HTTP client's failure text when the handler raised, with
      the loading flag down and the editable fields untouched. */
  lemma RunShowsReportedResult(s: App.Session, exec: Backend.ExecPlan -> Backend.Execution)
    requires !s.loading
    ensures PlanFor(s).Ok?
    ensures exec(PlanFor(s).value).Ran? ==>
              RunToCompletion(s, exec).output == Wire.Reported(Backend.Respond(exec(PlanFor(s).value).outcome))
    ensures exec(PlanFor(s).value).Raised? ==>
              RunToCompletion(s, exec).output == App.FailureOutput(ServerErrorMessage)
    ensures !RunToCompletion(s, exec).loading
    ensures RunToCompletion(s, exec).language == s.language
    ensures RunToCompletion(s, exec).code == s.code && RunToCompletion(s, exec).stdin == s.stdin
  {
    RequestAccepted(s);
    match exec(PlanFor(s).value) {
      case Ran(o) => Wire.ReplyRoundTrip(Backend.Respond(o));
      case Raised => ServerErrorMessageText();
    }
  }

  /** The message the HTTP client gives a 500 answer. */
  const ServerErrorMessage: string := "Request failed with status code 500"

  lemma ServerErrorMessageText()
    ensures Wire.Deliver(Err(Backend.HttpError(500, Backend.InternalErrorDetail))) == App.Failed(ServerErrorMessage)
  {
    assert Text.NatToDecimal(5) == "5";
    assert Text.NatToDecimal(50) == "50";
    assert Text.NatToDecimal(500) == "500";
  }

  /** When the handler raises (no workspace, source not written, container not
      started), the panel shows the client's failure text and neither a timeout
      marker nor an exit code. */
  lemma HandlerErrorShown(s: App.Session)
    requires !s.loading
    ensures var panel := OutputPanel.Render(RunToCompletion(s, _ => Backend.Raised).output);
            && OutputPanel.StderrBlock(ServerErrorMessage) in panel
            && OutputPanel.TimeoutMarker !in panel
            && forall p :: p in panel ==> !p.ExitCodeLine?
  {
    RunShowsReportedResult(s, _ => Backend.Raised);
    var panel := OutputPanel.Render(RunToCompletion(s, _ => Backend.Raised).output);
    assert exists p :: p in panel && p.StderrBlock?;
  }

  /** When the service's deadline passes, the panel shows the timeout marker,
      the service's message as error text, and no exit code. */
  lemma BackendTimeoutShown(s: App.Session)
    requires !s.loading
    ensures var panel := OutputPanel.Render(RunToCompletion(s, _ => Backend.Ran(Backend.TimedOut)).output);
            && OutputPanel.TimeoutMarker in panel
            && OutputPanel.StderrBlock(Backend.TimedOutMessage) in panel
            && forall p :: p in panel ==> !p.ExitCodeLine?
  {
    RunShowsReportedResult(s, _ => Backend.Ran(Backend.TimedOut));
    var out := RunToCompletion(s, _ => Backend.Ran(Backend.TimedOut)).output;
    var panel := OutputPanel.Render(out);
    assert exists p :: p in panel && p.StderrBlock?;
  }

  /** When the process completes, the panel shows its exit code, zero
      included, and never the timeout marker. */
  lemma CompletedRunShown(s: App.Session, stdout: string, stderr: string, rc: int)
    requires !s.loading
    ensures var panel := OutputPanel.Render(RunToCompletion(s, _ => Backend.Ran(Backend.Completed(stdout, stderr, rc))).output);
            && OutputPanel.ExitCodeLine(rc) in panel
            && OutputPanel.TimeoutMarker !in panel
  {
    var exec: Backend.ExecPlan -> Backend.Execution := _ => Backend.Ran(Backend.Completed(stdout, stderr, rc));
    RunShowsReportedResult(s, exec);
    var panel := OutputPanel.Render(RunToCompletion(s, exec).output);
    assert exists p :: p in panel && p.ExitCodeLine?;
  }

  /** A failed request shows its error text and neither a timeout marker, an
      exit code nor the placeholder: it is never mistaken for a timeout of the
      program. */
  lemma TransportFailureShown(s: App.Session, message: string)
    ensures var panel := OutputPanel.Render(App.Settle(s, App.Failed(message)).output);
            && (exists p :: p in panel && p.StderrBlock?)
            && OutputPanel.TimeoutMarker !in panel
            && OutputPanel.Placeholder !in panel
            && forall p :: p in panel ==> !p.ExitCodeLine?
  {
  }

  /** The page opens with Python's template in a Python editor and a panel
      holding nothing but the placeholder. */
  lemma InitialView()
    ensures Editor.Props(App.Init()) == Editor.EditorProps(Editor.PythonMode, App.Template(Python))
    ensures OutputPanel.Render(App.Init().output) == [OutputPanel.Placeholder]
  {
    OutputPanel.EmptyPanel();
  }

  /** Switching to another language empties the panel down to the placeholder
      and loads the new template into an editor of the new language's mode. */
  lemma LanguageChangeView(s: App.Session, l: Language)
    requires l != s.language
    ensures OutputPanel.Render(App.ChangeLanguage(s, l).output) == [OutputPanel.Placeholder]
    ensures Editor.Props(App.ChangeLanguage(s, l)).value == App.Template(l)
    ensures Editor.Props(App.ChangeLanguage(s, l)).mode == Editor.MonacoMode(Name(l))
  {
    var r := App.ChangeLanguage(s, l);
    assert r.output == App.EmptyOutput && r.code == App.Template(l) && r.language == l;
    OutputPanel.EmptyPanel();
  }
}
