/** The code editor as a view of the session: the syntax mode derived from the
    language identifier, the buffer it shows, and the change event it forwards. */
module Editor {
  import opened Languages
  import App

  datatype Mode = PythonMode | JavaMode | CppMode | PlainText

  /** The syntax mode for a language identifier; total, with plain text for
      every identifier it does not know. `c++` is accepted beside `cpp`. */
  function MonacoMode(language: string): (m: Mode)
    ensures m == PythonMode <==> language == "python"
    ensures m == JavaMode <==> language == "java"
    ensures m == CppMode <==> language == "cpp" || language == "c++"
    ensures m == PlainText <==> language !in {"python", "java", "cpp", "c++"}
  {
    if language == "python" then PythonMode
    else if language == "java" then JavaMode
    else if language == "cpp" || language == "c++" then CppMode
    else PlainText
  }

  datatype EditorProps = EditorProps(mode: Mode, value: string)

  /** What the editor is given: the mode of the session's language and the
      session's code. Every language the session can hold gets its own mode,
      never plain text. */
  function Props(s: App.Session): (p: EditorProps)
    ensures p.value == s.code
    ensures p.mode != PlainText
    ensures s.language == Python <==> p.mode == PythonMode
    ensures s.language == Java <==> p.mode == JavaMode
    ensures s.language == Cpp <==> p.mode == CppMode
  {
    EditorProps(MonacoMode(Name(s.language)), s.code)
  }

  /** The editor's change event: the new text becomes the session's code
      verbatim, and the editor then shows exactly that text in the same mode. */
  function OnChange(s: App.Session, value: string): (r: App.Session)
    ensures r.code == value
    ensures Props(r) == EditorProps(Props(s).mode, value)
    ensures r.(code := s.code) == s
  {
    App.EditCode(s, value)
  }
}
