/** The output panel as a pure projection of the session's output into the
    ordered list of things it displays. */
module OutputPanel {
  import opened Basics
  import opened Text
  import App

  /** One displayed element. The timeout marker and the exit-code text sit in
      the trailing status line. */
  datatype Part =
    | StdoutBlock(text: string)
    | StderrBlock(text: string)
    | Placeholder
    | TimeoutMarker
    | ExitCodeLine(code: int)

  const PlaceholderText: string := "No output yet \U{2014} run your code."
  const TimeoutText: string := "\U{26A0}\U{FE0F} Execution timed out"
  const ExitCodePrefix: string := "  Exit code: "
  const StderrClass: string := "output-stderr"

  /** The position of each kind of part in the panel, top to bottom. */
  function Rank(p: Part): nat
  {
    match p
    case StdoutBlock(_) => 0
    case StderrBlock(_) => 1
    case Placeholder => 2
    case TimeoutMarker => 3
    case ExitCodeLine(_) => 4
  }

  /** The CSS class a part carries; only the stderr block is marked. */
  function ClassName(p: Part): string
  {
    if p.StderrBlock? then StderrClass else ""
  }

  /** The text a part shows. */
  function PartText(p: Part): string
  {
    match p
    case StdoutBlock(t) => t
    case StderrBlock(t) => t
    case Placeholder => PlaceholderText
    case TimeoutMarker => TimeoutText
    case ExitCodeLine(c) => ExitCodePrefix + IntToDecimal(c)
  }

  /** The output blocks, or the placeholder when there is no output. */
  function Blocks(out: App.Output): (r: seq<Part>)
    ensures forall i, j :: 0 <= i < j < |r| ==> Rank(r[i]) < Rank(r[j])
    ensures forall p :: p in r ==> Rank(p) <= 2
    ensures (exists p :: p in r && p.StdoutBlock?) <==> out.stdout != ""
    ensures forall p :: p in r && p.StdoutBlock? ==> p.text == out.stdout
    ensures (exists p :: p in r && p.StderrBlock?) <==> out.stderr != ""
    ensures forall p :: p in r && p.StderrBlock? ==> p.text == out.stderr
    ensures Placeholder in r <==> out.stdout == "" && out.stderr == ""
  {
    var outBlock := if out.stdout != "" then [StdoutBlock(out.stdout)] else [];
    var errBlock := if out.stderr != "" then [StderrBlock(out.stderr)] else [];
    var placeholder := if out.stdout == "" && out.stderr == "" then [Placeholder] else [];
    var r := outBlock + errBlock + placeholder;
    assert out.stdout != "" ==> r[0] == StdoutBlock(out.stdout);
    assert out.stderr != "" ==> r[|outBlock|] == StderrBlock(out.stderr);
    r
  }

  /** The parts of the status line. */
  function Status(out: App.Output): (r: seq<Part>)
    ensures forall i, j :: 0 <= i < j < |r| ==> Rank(r[i]) < Rank(r[j])
    ensures forall p :: p in r ==> Rank(p) >= 3
    ensures TimeoutMarker in r <==> out.timedOut
    ensures (exists p :: p in r && p.ExitCodeLine?) <==> out.exitCode.Some?
    ensures forall p :: p in r && p.ExitCodeLine? ==> out.exitCode == Some(p.code)
  {
    var exit := match out.exitCode case Some(c) => [ExitCodeLine(c)] case None => [];
    var r := (if out.timedOut then [TimeoutMarker] else []) + exit;
    assert out.exitCode.Some? ==> r[|r| - 1] == ExitCodeLine(out.exitCode.value);
    r
  }

  /** The panel: a stdout block exactly when stdout is non-empty, a stderr
      block exactly when stderr is non-empty, the placeholder exactly when both
      are empty, the timeout marker exactly when the run timed out, and the exit
      code exactly when there is one, zero included; in that order, each at
      most once. */
  function Render(out: App.Output): (r: seq<Part>)
    ensures forall i, j :: 0 <= i < j < |r| ==> Rank(r[i]) < Rank(r[j])
    ensures (exists p :: p in r && p.StdoutBlock?) <==> out.stdout != ""
    ensures forall p :: p in r && p.StdoutBlock? ==> p.text == out.stdout
    ensures (exists p :: p in r && p.StderrBlock?) <==> out.stderr != ""
    ensures forall p :: p in r && p.StderrBlock? ==> p.text == out.stderr
    ensures Placeholder in r <==> out.stdout == "" && out.stderr == ""
    ensures TimeoutMarker in r <==> out.timedOut
    ensures (exists p :: p in r && p.ExitCodeLine?) <==> out.exitCode.Some?
    ensures forall p :: p in r && p.ExitCodeLine? ==> out.exitCode == Some(p.code)
  {
    var blocks := Blocks(out);
    var status := Status(out);
    blocks + status
  }

  /** The empty result shows nothing but the placeholder. */
  lemma EmptyPanel()
    ensures Render(App.EmptyOutput) == [Placeholder]
  {
    assert Blocks(App.EmptyOutput) == [Placeholder];
    assert Status(App.EmptyOutput) == [];
  }

  /** The panel is never blank: it shows at least one output block or the
      placeholder, and the placeholder never shares the panel with a block. */
  lemma PanelNeverBlank(out: App.Output)
    ensures exists p :: p in Render(out) && (p.StdoutBlock? || p.StderrBlock? || p.Placeholder?)
    ensures Placeholder in Render(out) ==>
              forall p :: p in Render(out) ==> !p.StdoutBlock? && !p.StderrBlock?
  {
    var r := Render(out);
    if out.stdout != "" {
      assert r[0] == StdoutBlock(out.stdout);
    } else if out.stderr != "" {
      assert r[0] == StderrBlock(out.stderr);
    } else {
      assert r[0] == Placeholder;
    }
  }

  /** Error text is always told apart from ordinary output: the panel shows a
      part with the stderr class exactly when stderr is non-empty, and such a
      part shows the stderr text and nothing else, never the stdout text in its
      place. */
  lemma StderrMarkedDistinctly(out: App.Output)
    ensures (exists p :: p in Render(out) && ClassName(p) == StderrClass) <==> out.stderr != ""
    ensures forall p :: p in Render(out) && ClassName(p) == StderrClass ==> PartText(p) == out.stderr
    ensures forall p :: p in Render(out) && p.StdoutBlock? ==> ClassName(p) != StderrClass
  {
    if out.stderr != "" {
      var p :| p in Render(out) && p.StderrBlock?;
      assert ClassName(p) == StderrClass;
    }
  }

  /** The text of a run of parts, shown one after another. */
  function TextOf(parts: seq<Part>): string
  {
    if parts == [] then "" else PartText(parts[0]) + TextOf(parts[1..])
  }

  /** The status line as one string: the text of the parts it holds. */
  function StatusLine(out: App.Output): string
  {
    TextOf(Status(out))
  }

  /** Removes a leading timeout text, saying whether there was one. */
  function StripTimeout(line: string): (bool, string)
  {
    if |line| >= |TimeoutText| && line[..|TimeoutText|] == TimeoutText
    then (true, line[|TimeoutText|..])
    else (false, line)
  }

  /** Reads the exit code from what follows the timeout text. */
  function ReadExitCode(rest: string): Option<int>
  {
    if |rest| >= |ExitCodePrefix| && rest[..|ExitCodePrefix|] == ExitCodePrefix
    then ParseInt(rest[|ExitCodePrefix|..])
    else None
  }

  /** Recovers the timeout flag and the exit code from a status line. */
  function ReadStatusLine(line: string): (bool, Option<int>)
  {
    var (timedOut, rest) := StripTimeout(line);
    (timedOut, ReadExitCode(rest))
  }

  /** The status line is unambiguous: it tells exactly whether the run timed
      out and exactly which exit code, if any, the run ended with. */
  lemma StatusLineFaithful(out: App.Output)
    ensures ReadStatusLine(StatusLine(out)) == (out.timedOut, out.exitCode)
  {
    var line := StatusLine(out);
    var exitText := match out.exitCode case Some(c) => ExitCodePrefix + IntToDecimal(c) case None => "";
    var exit := match out.exitCode case Some(c) => [ExitCodeLine(c)] case None => [];
    assert TextOf(exit) == exitText;
    if out.timedOut {
      assert Status(out) == [TimeoutMarker] + exit;
      assert ([TimeoutMarker] + exit)[1..] == exit;
    } else {
      assert Status(out) == exit;
    }
    assert line == (if out.timedOut then TimeoutText else "") + exitText;
    if out.timedOut {
      assert line[..|TimeoutText|] == TimeoutText;
      assert line[|TimeoutText|..] == exitText;
    } else {
      assert line == exitText;
      if |line| >= |TimeoutText| {
        assert out.exitCode.Some?;
        assert line[0] == ExitCodePrefix[0];
        assert line[..|TimeoutText|][0] != TimeoutText[0];
      }
      assert StripTimeout(line) == (false, line);
    }
    match out.exitCode {
      case Some(c) =>
        assert exitText[..|ExitCodePrefix|] == ExitCodePrefix;
        assert exitText[|ExitCodePrefix|..] == IntToDecimal(c);
        IntDecimalRoundTrip(c);
      case None =>
    }
  }
}
