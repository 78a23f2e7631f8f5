/** The session controller of the single-page UI: one immutable record holding
    the selected language, the editor buffer, the program input, the last run's
    output and the loading flag, with pure transitions for every user action and
    for the settlement of the request to the execution service. */
module App {
  import opened Basics
  import opened Languages

  /** The starter program loaded into the editor for each language. */
  function Template(l: Language): string
  {
    match l
    case Python => "# Python Hello World\nname = input()\nprint(\"Hello,\", name)"
    case Java => "// Java Hello World\nimport java.util.*;\npublic class Main {\n  public static void main(String[] args) {\n    Scanner s = new Scanner(System.in);\n    String name = s.nextLine();\n    System.out.println(\"Hello, \" + name);\n  }\n}"
    case Cpp => "// C++ Hello World\n#include <iostream>\nusing namespace std;\nint main() {\n    string name;\n    cin >> name;\n    cout << \"Hello, \" << name << endl;\n    return 0;\n}"
  }

  /** The fully populated result shown in the output panel; `exitCode` is
      `None` where the UI holds `null`. */
  datatype Output = Output(stdout: string, stderr: string, timedOut: bool, exitCode: Option<int>)

  const EmptyOutput: Output := Output("", "", false, None)

  datatype Session = Session(
    language: Language,
    code: string,
    stdin: string,
    output: Output,
    loading: bool)

  /** While a request is in flight the panel shows the empty result: starting
      a run clears it and nothing but the settlement fills it again. */
  predicate Inv(s: Session)
  {
    s.loading ==> s.output == EmptyOutput
  }

  /** The page opens on Python with its template, no input, no result and no
      run in flight. */
  function Init(): (s: Session)
    ensures s.language == Python && s.code == Template(s.language)
    ensures s.stdin == "" && s.output == EmptyOutput && !s.loading
    ensures Inv(s)
  {
    Session(Python, Template(Python), "", EmptyOutput, false)
  }

  /** Selecting a language. The template reset is an effect keyed on the
      language, so it fires only when the language actually changes; it then
      loads that language's template and clears the result, keeping the input
      and the loading flag. */
  function ChangeLanguage(s: Session, l: Language): (r: Session)
    ensures r.language == l && r.stdin == s.stdin && r.loading == s.loading
    ensures l != s.language ==> r.code == Template(l) && r.output == EmptyOutput
    ensures l == s.language ==> r == s
    ensures Inv(s) ==> Inv(r)
  {
    if l == s.language then s
    else s.(language := l, code := Template(l), output := EmptyOutput)
  }

  /** An editor change stores the new text verbatim and touches nothing else. */
  function EditCode(s: Session, text: string): (r: Session)
    ensures r.code == text
    ensures r.(code := s.code) == s
  {
    s.(code := text)
  }

  /** An input-box change stores the new text verbatim and touches nothing else. */
  function EditStdin(s: Session, text: string): (r: Session)
    ensures r.stdin == text
    ensures r.(stdin := s.stdin) == s
  {
    s.(stdin := text)
  }

  /** The execution budget the client asks for, in seconds. */
  const RequestTimeoutSeconds: int := 10
  /** How long the client waits for any reply, in milliseconds. */
  const ClientDeadlineMs: int := 20000

  /** The request body the client posts, with the transport deadline it uses. */
  datatype RunSnapshot = RunSnapshot(
    language: string,
    code: string,
    stdin: string,
    timeoutSeconds: int,
    clientDeadlineMs: int)

  datatype Started = Started(session: Session, request: RunSnapshot)

  /** Pressing Run while no run is in flight: the result is cleared, the loading
      flag raised, and the request captures the current language, code and
      input together with the fixed ten-second budget. The client waits
      strictly longer than that budget. */
  function StartRun(s: Session): (r: Started)
    requires !s.loading
    ensures r.session.loading && r.session.output == EmptyOutput
    ensures r.session.(output := s.output, loading := s.loading) == s
    ensures r.request.language == Name(s.language)
    ensures r.request.code == s.code && r.request.stdin == s.stdin
    ensures r.request.timeoutSeconds == RequestTimeoutSeconds
    ensures r.request.clientDeadlineMs == ClientDeadlineMs
    ensures r.request.clientDeadlineMs > r.request.timeoutSeconds * 1000
    ensures Inv(r.session)
  {
    Started(
      s.(loading := true, output := EmptyOutput),
      RunSnapshot(Name(s.language), s.code, s.stdin, RequestTimeoutSeconds, ClientDeadlineMs))
  }

  /** The body of a successful reply as the client reads it: every property may
      be missing or `null`. */
  datatype PartialReply = PartialReply(
    stdout: Field<string>,
    stderr: Field<string>,
    timedOut: Field<bool>,
    exitCode: Field<int>)

  /** How the request settled: a reply arrived, or the request failed (network
      error, error status or client deadline) with a message. */
  datatype Transport = Delivered(reply: PartialReply) | Failed(message: string)

  /** JavaScript's `x || d` on an optional string: empty, missing and `null`
      all fall back. */
  function OrString(f: Field<string>, d: string): string
  {
    if f.Present? && f.value != "" then f.value else d
  }

  /** JavaScript's `x || false` on an optional boolean. */
  function OrFalse(f: Field<bool>): bool
  {
    f.Present? && f.value
  }

  /** JavaScript's `x ?? null`: only missing and `null` fall back, so zero
      survives. */
  function OrNull(f: Field<int>): Option<int>
  {
    if f.Present? then Some(f.value) else None
  }

  /** Fills in a reply's missing properties: text defaults to empty, the
      timeout flag to false, the exit code to none; every value that is present
      is kept as sent, exit code 0 included. */
  function Normalize(reply: PartialReply): (r: Output)
    ensures reply.stdout.Present? ==> r.stdout == reply.stdout.value
    ensures !reply.stdout.Present? ==> r.stdout == ""
    ensures reply.stderr.Present? ==> r.stderr == reply.stderr.value
    ensures !reply.stderr.Present? ==> r.stderr == ""
    ensures r.timedOut <==> reply.timedOut == Present(true)
    ensures r.exitCode.Some? <==> reply.exitCode.Present?
    ensures reply.exitCode.Present? ==> r.exitCode == Some(reply.exitCode.value)
  {
    Output(OrString(reply.stdout, ""), OrString(reply.stderr, ""), OrFalse(reply.timedOut), OrNull(reply.exitCode))
  }

  /** The result shown when the request itself failed: nothing on stdout, the
      failure message (or a generic word) on stderr, never flagged as a timeout
      and without an exit code. */
  function FailureOutput(message: string): (r: Output)
    ensures r.stdout == "" && r.stderr != ""
    ensures message != "" ==> r.stderr == message
    ensures message == "" ==> r.stderr == "Error"
    ensures !r.timedOut && r.exitCode == None
  {
    Output("", if message != "" then message else "Error", false, None)
  }

  /** Settling the run in flight: the new result replaces the old one wholesale
      and the loading flag drops, whatever the outcome; language, code and input
      are left as they are. */
  function Settle(s: Session, t: Transport): (r: Session)
    ensures !r.loading
    ensures r.(output := s.output, loading := s.loading) == s
    ensures t.Delivered? ==> r.output == Normalize(t.reply)
    ensures t.Failed? ==> r.output == FailureOutput(t.message)
    ensures Inv(r)
  {
    var out := match t
      case Delivered(reply) => Normalize(reply)
      case Failed(msg) => FailureOutput(msg);
    s.(output := out, loading := false)
  }

  /** A result never depends on the one it replaces. */
  lemma SettleReplacesWholesale(s1: Session, s2: Session, t: Transport)
    ensures Settle(s1, t).output == Settle(s2, t).output
  {
  }

  /** A request failure is never reported as a timeout, whereas a reply that
      says it timed out always is. */
  lemma FailureNeverTimedOut(s: Session, message: string, reply: PartialReply)
    requires reply.timedOut == Present(true)
    ensures !Settle(s, Failed(message)).output.timedOut
    ensures Settle(s, Delivered(reply)).output.timedOut
  {
  }

  /** The saved file: a name, the editor buffer as its content, and the MIME
      type of the blob. */
  datatype Export = Export(filename: string, content: string, mimeType: string)

  /** The extension table of the save action. */
  function ExtensionFor(name: string): Option<string>
  {
    if name == "python" then Some("py")
    else if name == "java" then Some("java")
    else if name == "cpp" then Some("cpp")
    else None
  }

  /** The file-name table of the save action. */
  function FilenameFor(name: string): Option<string>
  {
    if name == "python" then Some("code.py")
    else if name == "java" then Some("Main.java")
    else if name == "cpp" then Some("main.cpp")
    else None
  }

  /** The download name: the table entry if there is one, otherwise `code.`
      followed by the table extension or `txt`. */
  function ExportFilename(name: string): (r: string)
    ensures name == "python" ==> r == "code.py"
    ensures name == "java" ==> r == "Main.java"
    ensures name == "cpp" ==> r == "main.cpp"
    ensures name !in {"python", "java", "cpp"} ==> r == "code.txt"
  {
    var ext := match ExtensionFor(name) case Some(e) => e case None => "txt";
    match FilenameFor(name)
    case Some(f) => f
    case None => "code." + ext
  }

  /** Every download name ends in a dot and the extension the extension table
      gives, or `txt` when the table has none: the two tables agree. */
  lemma ExportFilenameMatchesExtension(name: string)
    ensures var ext := match ExtensionFor(name) case Some(e) => e case None => "txt";
            var f := ExportFilename(name);
            |f| > |ext| && f[|f| - |ext| - 1..] == "." + ext
  {
  }

  /** Saving hands over the buffer verbatim under the language's file name. */
  function SaveCode(s: Session): (r: Export)
    ensures r.content == s.code
    ensures r.filename == ExportFilename(Name(s.language))
    ensures r.mimeType == "text/plain;charset=utf-8"
  {
    Export(ExportFilename(Name(s.language)), s.code, "text/plain;charset=utf-8")
  }

  // ---------------------------------------------------------------------------
  // Event traces

  /** Everything that can happen to the session. */
  datatype Event =
    | SelectLanguage(lang: Language)
    | TypeCode(text: string)
    | TypeStdin(text: string)
    | ClickRun
    | Settled(outcome: Transport)

  /** One event. A click on Run while loading reaches no handler because the
      button is disabled then; a settlement always belongs to an earlier click. */
  function Step(s: Session, e: Event): (r: Session)
    ensures Inv(s) ==> Inv(r)
    ensures e.ClickRun? && s.loading ==> r == s
    ensures e.ClickRun? && !s.loading ==> r.loading && r.output == EmptyOutput
    ensures e.ClickRun? || e.Settled? ==> r.language == s.language && r.code == s.code && r.stdin == s.stdin
  {
    match e
    case SelectLanguage(l) => ChangeLanguage(s, l)
    case TypeCode(text) => EditCode(s, text)
    case TypeStdin(text) => EditStdin(s, text)
    case ClickRun => if s.loading then s else StartRun(s).session
    case Settled(t) => Settle(s, t)
  }

  function Replay(s: Session, es: seq<Event>): Session
    decreases |es|
  {
    if es == [] then s else Replay(Step(s, es[0]), es[1..])
  }

  /** Every session reachable through any sequence of events keeps the
      invariant: an in-flight run always shows the empty result. */
  lemma {:induction false} ReplayKeepsInv(s: Session, es: seq<Event>)
    requires Inv(s)
    ensures Inv(Replay(s, es))
    decreases |es|
  {
    if es != [] {
      ReplayKeepsInv(Step(s, es[0]), es[1..]);
    }
  }

  /** Runs and their settlements never change the language, the code or the
      program input, however many of them happen. */
  lemma {:induction false} RunEventsKeepEditables(s: Session, es: seq<Event>)
    requires forall i :: 0 <= i < |es| ==> es[i].ClickRun? || es[i].Settled?
    ensures Replay(s, es).language == s.language
    ensures Replay(s, es).code == s.code
    ensures Replay(s, es).stdin == s.stdin
    decreases |es|
  {
    if es != [] {
      RunEventsKeepEditables(Step(s, es[0]), es[1..]);
    }
  }

  /** Pressing Run again while a run is in flight, any number of times, leaves
      the session exactly as it was: no second request is started. */
  lemma {:induction false} ClicksWhileLoadingIgnored(s: Session, n: nat)
    requires s.loading
    ensures Replay(s, seq(n, _ => ClickRun)) == s
    decreases n
  {
    if n > 0 {
      var es := seq(n, _ => ClickRun);
      assert es[1..] == seq(n - 1, _ => ClickRun);
      ClicksWhileLoadingIgnored(s, n - 1);
    }
  }
}
