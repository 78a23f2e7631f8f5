# Online compiler: session controller, output panel and run handler

This project models the logic of a small online compiler. A single-page UI lets the user pick a language, edit a program and its input, run it, and read the result. It posts each run to a `/run` endpoint, and a Python service runs the program in a container. The model covers the deterministic rules on both sides:

- **App** (`frontend/src/App.jsx`) is the session controller. Its state is one immutable `Session` record: language, code, stdin, output and the loading flag. It has pure transitions for the initial state, the language change, the editor and input edits, starting a run, and settling a run. Settling covers a delivered reply, normalised from optional JSON properties, and a failed request. The module also has the save-file mapping and an event-trace semantics (`Step`, `Replay`).
- **Editor** (`frontend/src/components/CodeEditor.jsx`) maps the language identifier to a syntax mode, shows the code, and forwards edits.
- **OutputPanel** (`frontend/src/components/OutputBox.jsx`) is a pure projection. It turns the output into an ordered list of parts: stdout block, stderr block, placeholder, timeout marker and exit-code text.
- **Backend** (`backend/main.py`) is the `/run` handler. It lower-cases and validates the language and defaults the input and the timeout. It picks the source file name and the process deadline, and it builds the response from an abstract process outcome: `Completed(stdout, stderr, rc)` or `TimedOut`. An I/O step that raises escapes the handler as a 500.
- **Wire** models the two JSON crossings: the request body as the handler sees it, and the response body as the UI reads it. The HTTP client's settlement is modelled as `Delivered(reply)` or `Failed(message)`.
- **EndToEnd** composes these pieces. For any session, the service accepts the request the UI sends, for the same language and under the file name the UI saves it as. The service's deadline ends before the UI stops waiting. The panel then shows exactly what the service reported. A service timeout shows the timeout marker and no exit code. A failed request is never shown as a timeout.
- **Text** holds two helpers. One is lower-casing as used by the handler. The other is decimal rendering of integers, as a template literal prints the exit code, with a parser that proves the rendering unambiguous.

Rendering is a function of the output alone, so rendering the same state twice gives the same parts by construction.

Three behaviours of the source are easy to miss, and the model follows the source each time:
- A language change resets the code and the output only when the language actually changes. The reset is an effect keyed on the language, so picking the current language again changes nothing.
- The language picker offers only Python and Java (`Languages.PickerOptions`). C++ still has a template, a save name, an editor mode and a backend runner.
- A second click on Run while a run is in flight reaches no handler, because the button is disabled. `App.StartRun` therefore requires `!loading`, and `App.Step` ignores the click.

Two more behaviours of the source are visible in the model:
- A request still in flight is not cancelled by a language change. Its settlement fills the panel after the change.
- For Java and C++, the container script itself limits the program with `timeout`, and the process deadline is two seconds longer. A program stopped by that inner limit therefore comes back as a `Completed` outcome with its return code, which is 124 for coreutils `timeout`. Its `timed_out` is false. Only the outer deadline yields `TimedOut`.

## Model

| member | source | states |
|---|---|---|
| Text.ToLower | backend/main.py:40 | lower-casing keeps the length and maps each character on its own: capitals become small letters, everything else is kept |
| Text.ToLowerIdempotent | backend/main.py:40 | lower-casing a lower-cased name changes nothing |
| Text.LowerMatchesWord | backend/main.py:40 | a string lower-cases to a lower-case word exactly when it spells that word letter by letter in either case |
| Text.NatToDecimal | frontend/src/components/OutputBox.jsx:13 | a non-negative exit code prints as a non-empty run of digits with no leading zero |
| Text.IntToDecimal | frontend/src/components/OutputBox.jsx:13 | a printed exit code starts with a minus sign exactly when it is negative |
| Text.NatDecimalRoundTrip | frontend/src/components/OutputBox.jsx:13 | reading the printed digits back gives the number |
| Text.IntDecimalRoundTrip | frontend/src/components/OutputBox.jsx:13 | every exit code, negative ones included, reads back from its text, so different codes never print alike |
| Languages.PickerOmitsCpp | frontend/src/components/LanguageSelector.jsx:7-10 | the picker offers Python and Java and never C++ |
| Backend.EffectiveStdin | backend/main.py:42 | missing, null or empty input becomes the empty string; any other input is kept verbatim |
| Backend.EffectiveTimeout | backend/main.py:43 | a missing, null or zero timeout becomes 5; any other value, negative included, is kept; the result is never zero |
| Backend.ParseLanguage | backend/main.py:40-46 | a name is accepted exactly when its lower-case form is python, java or cpp, and then as the language of that name; every other name is a 400 with the fixed detail text |
| Backend.ParseLanguageCaseInsensitive | backend/main.py:40 | names that differ only in letter case get the same verdict and the same language |
| Backend.AcceptedSpellings | backend/main.py:40-46 | the accepted spellings of a language are exactly its name with each letter in either case |
| Backend.ParseLanguageOfName | backend/main.py:45 | each language's own wire name is accepted as that language |
| Backend.UpperCaseNameAccepted | backend/main.py:40-46 | PYTHON, Java and CPP are accepted, while c++ (an editor synonym) is refused |
| Backend.ProcessDeadline | backend/main.py:70-142 | the process deadline is the timeout for Python and the timeout plus 2 seconds for Java and C++ |
| Backend.Plan | backend/main.py:39-53 | an invalid language is refused before any workspace exists; otherwise the plan keeps the code, carries the defaulted input and timeout, the per-language source name and deadline |
| Backend.Respond | backend/main.py:71-78 | a response is flagged timed out exactly when the process timed out, and has an exit code exactly when it completed; a completed process is reported with its own output and return code; a timeout has empty stdout, the fixed message on stderr and no exit code |
| Backend.RunCode | backend/main.py:38-150 | a 400 exactly on an unsupported language, before any workspace or process; otherwise a 500 exactly when creating the workspace, writing the source or starting the container raised, and else the response for the process's outcome: a completed process's own stdout, stderr and return code, or the timeout flag with no exit code |
| Backend.RefusalIgnoresProcess | backend/main.py:45-49 | a refused request gets the same 400 whatever the process would have done, so no process is run |
| App.Init | frontend/src/App.jsx:15-24 | the page opens on Python with its template, empty input, the empty output and no run in flight |
| App.ChangeLanguage | frontend/src/App.jsx:27-30 | switching to another language loads exactly its template and clears the output; input and loading flag are kept; re-selecting the current language changes nothing |
| App.EditCode | frontend/src/App.jsx:100 | an edit stores the new code verbatim and changes nothing else |
| App.EditStdin | frontend/src/App.jsx:103 | an input edit stores the new text verbatim and changes nothing else |
| App.StartRun | frontend/src/App.jsx:32-45 | starting a run raises loading and clears the output; the request snapshots language, code and input with a 10-second budget; the client waits exactly 20000 ms, which exceeds the budget |
| App.Normalize | frontend/src/App.jsx:47-52 | stdout and stderr default to empty, timed_out to false, exit_code to none; every value present is kept, exit code 0 included |
| App.FailureOutput | frontend/src/App.jsx:53-59 | a failed request shows empty stdout, the error message as stderr, or exactly "Error" when the message is empty, no timeout and no exit code |
| App.Settle | frontend/src/App.jsx:46-62 | every settlement drops loading and replaces the output wholesale; language, code and input are untouched |
| App.SettleReplacesWholesale | frontend/src/App.jsx:47-59 | the new output never depends on the output it replaces |
| App.FailureNeverTimedOut | frontend/src/App.jsx:47-59 | a request failure is never flagged as a timeout, while a reply saying it timed out always is |
| App.ExportFilename | frontend/src/App.jsx:65-70 | the save name is code.py, Main.java or main.cpp for the three languages and code.txt for anything else |
| App.ExportFilenameMatchesExtension | frontend/src/App.jsx:66-70 | every save name ends in a dot and the extension table's entry, or txt when there is none, so the two tables agree |
| App.SaveCode | frontend/src/App.jsx:65-74 | saving hands over the code verbatim, as UTF-8 plain text, under the language's save name |
| App.Step | frontend/src/App.jsx:88-103 | each user or network event keeps the invariant that a run in flight shows the empty output; Run while loading is a no-op; runs and settlements never change language, code or input |
| App.ReplayKeepsInv | frontend/src/App.jsx:27-62 | after any sequence of events, a run in flight still shows the empty output |
| App.RunEventsKeepEditables | frontend/src/App.jsx:32-63 | any sequence of runs and settlements leaves language, code and input as they were |
| App.ClicksWhileLoadingIgnored | frontend/src/App.jsx:90 | any number of clicks on Run during a run leave the session unchanged, so no second request starts |
| Editor.MonacoMode | frontend/src/components/CodeEditor.jsx:5-13 | python, java, and cpp or c++ get their own modes, each exactly for those names; every other string gets plain text, and the mapping never fails |
| Editor.Props | frontend/src/components/CodeEditor.jsx:15-20 | the editor shows the session's code, in the mode of the session's language, never plain text |
| Editor.OnChange | frontend/src/components/CodeEditor.jsx:27 | an editor change becomes the code verbatim and the editor then shows exactly that text in the same mode |
| OutputPanel.Blocks | frontend/src/components/OutputBox.jsx:8-10 | stdout block exactly when stdout is non-empty, stderr block exactly when stderr is non-empty, placeholder exactly when both are empty, in that order |
| OutputPanel.Status | frontend/src/components/OutputBox.jsx:11-14 | the timeout marker exactly when timed out, then the exit code exactly when there is one |
| OutputPanel.Render | frontend/src/components/OutputBox.jsx:7-15 | the panel shows the stdout block, stderr block, placeholder, timeout marker and exit code (zero included) each exactly under its condition, carrying the output's own text and code, strictly in that order |
| OutputPanel.EmptyPanel | frontend/src/components/OutputBox.jsx:8-14 | the cleared output shows only the placeholder: no block, no timeout marker, no exit code |
| OutputPanel.PanelNeverBlank | frontend/src/components/OutputBox.jsx:8-10 | the panel always shows a block or the placeholder, and never the placeholder beside a block |
| OutputPanel.StderrMarkedDistinctly | frontend/src/components/OutputBox.jsx:9 | a part with the output-stderr class is shown exactly when stderr is non-empty, it shows the stderr text, and the stdout block never carries that class |
| OutputPanel.StatusLineFaithful | frontend/src/components/OutputBox.jsx:11-14 | the status line, the text of the status parts the panel emits, tells exactly whether the run timed out and which exit code it had |
| Wire.ToBackendRequest | frontend/src/App.jsx:36-43 | the handler sees the UI's language, code and input as sent, and its non-zero budget unchanged |
| Wire.ToReply | backend/main.py:26-32 | a serialised response carries every property with the response's own value: stdout, stderr and timed_out as reported, the exit code as itself or null when there is none |
| Wire.ReplyRoundTrip | frontend/src/App.jsx:47-52 | normalising a reply the handler produced gives back exactly what it reported |
| Wire.Deliver | frontend/src/App.jsx:36-56 | a handler answer is delivered exactly when it is not an error; an error status becomes a failure with a non-empty message |
| EndToEnd.RequestAccepted | frontend/src/App.jsx:36-44 | the handler accepts every request the UI sends, as the same language, under the UI's save name, with code and input verbatim, a 10-second budget, and a process deadline shorter than the client deadline |
| EndToEnd.ExportMatchesSourceName | frontend/src/App.jsx:67 | the UI's save name equals the handler's source name for every language |
| EndToEnd.RunShowsReportedResult | frontend/src/App.jsx:32-62 | a run from any idle session ends with the panel holding exactly what the handler reported, or the client's 500 failure text when the handler raised; loading false, and language, code and input unchanged |
| EndToEnd.BackendTimeoutShown | backend/main.py:78 | a handler timeout shows the timeout marker, the timeout message as stderr and no exit code |
| EndToEnd.CompletedRunShown | backend/main.py:71-76 | a completed process shows its exit code, zero included, and no timeout marker |
| EndToEnd.HandlerErrorShown | backend/main.py:49-66 | when creating the workspace, writing the source or starting the container raises, the panel shows the client's status-500 failure text, no timeout marker and no exit code |
| EndToEnd.TransportFailureShown | frontend/src/App.jsx:53-59 | a failed request shows error text and neither a timeout marker, an exit code nor the placeholder |
| EndToEnd.InitialView | frontend/src/App.jsx:15-24 | the page opens with the Python template in a Python editor and only the placeholder in the panel |
| EndToEnd.LanguageChangeView | frontend/src/App.jsx:27-30 | switching language empties the panel to the placeholder and shows the new template in the new mode |

## Left out

- Docker, the subprocess and the file system are left out because they are I/O. This covers the `docker run` command lines, the compile scripts, the temporary workspace, writing the source and removing the workspace. The caller supplies `exec`, which gives either an abstract process outcome or `Raised`. `Raised` stands for an exception from `mkdtemp`, `write_file` or `subprocess.run` other than the timeout, which the framework answers with a 500.
- Decoding process output with replacement characters is left out. Process output is taken as text.
- FastAPI and pydantic wiring is framework plumbing. This includes the 422 reply for a body without `language` or `code`, type coercion, the CORS middleware and the `/` endpoint.
- The HTTP client and its asynchronous settlement are an abstract `Transport`. The failure message is a parameter. `Wire.Deliver` writes the client's message for an error status, as that library's convention has it.
- The browser side of saving (blob, object URL, link click) is left out. Only the file name, content and MIME type are modelled.
- Editor widget options, theme, JSX markup and CSS are rendering details and are left out.
- The input box and the language picker are rendering shells. The picker's option list is kept as a constant (`Languages.PickerOptions`).
- Text.ToLower: it lower-cases ASCII capitals only, while the handler's `str.lower()` is full Unicode. No character outside ASCII lower-cases to a letter of `python`, `java` or `cpp`, so the accept-or-refuse verdict is the same.
- App.ExportFilename: it looks names up in the two tables by exact key. The source indexes plain JavaScript objects, so a name inherited from the object prototype (`toString`, `constructor`, `valueOf`, `__proto__`, ...) would yield a function's or object's text as the file name instead of `code.txt`. No session can hold such a name, because the session's language is one of the three, so the claim for "anything else" holds only for names that are not inherited keys.
- App.ExportFilenameMatchesExtension: the two tables agree for every name only under the same exact-key lookup; the inherited-key names above are not covered.
- Text.IntToDecimal: exit codes are unbounded integers in the model. In the UI they are JSON numbers, which are doubles: exact up to 2^53 and printed in exponent form from 10^21. A process return code fits in 32 bits, so no real exit code is affected.
- Wire.ReplyRoundTrip: the exactness it states for every exit code holds in the UI only up to 2^53, for the same reason. The same applies to EndToEnd.RunShowsReportedResult and EndToEnd.CompletedRunShown.
- Editor.OnChange: it takes the new text as a string. The editor component may also report an undefined value, which is not modelled.
- `compile_stdout` and `compile_stderr` are always none in the handler and the UI never reads them. `Backend.Respond` states that they are none, and they are not carried further.
- The UI never validates a language itself: the picker offers only python and java, and the session's language has one of three values by type.
