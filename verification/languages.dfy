/** The languages the application knows about, shared by the frontend and the
    backend. The frontend keeps more than it offers: the language picker lists
    only Python and Java although C++ has a template, an export name and a
    backend runner. */
module Languages {

  datatype Language = Python | Java | Cpp

  /** The identifier both sides exchange on the wire. */
  function Name(l: Language): string
  {
    match l
    case Python => "python"
    case Java => "java"
    case Cpp => "cpp"
  }

  /** The options of the language picker, in the order they are listed. */
  const PickerOptions: seq<Language> := [Python, Java]

  /** The picker never offers C++, and offers every other language once. */
  lemma PickerOmitsCpp()
    ensures Cpp !in PickerOptions
    ensures forall l :: l in PickerOptions <==> l != Cpp
  {
  }

  /** Different languages travel under different names, and each name is a
      non-empty word of lower-case ASCII letters. */
  lemma NamesDistinctLowerWords(l: Language, m: Language)
    ensures Name(l) == Name(m) ==> l == m
    ensures |Name(l)| > 0
    ensures forall j :: 0 <= j < |Name(l)| ==> 'a' <= Name(l)[j] <= 'z'
  {
  }
}
