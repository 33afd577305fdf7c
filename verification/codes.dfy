/**
 * The five mail codes. Both the recipient and template tables and the data
 * strategy switch know exactly these; the switch compares the upper-cased
 * request code against their spellings.
 */
module Codes {
  import opened Wrappers
  import opened Text

  /** Production employee, production manager, human resources, finance, information technology. */
  datatype Code = PE | PM | HR | FN | IT

  /** The spelling of a code, as the tables key it and the switch labels it. */
  function CodeText(c: Code): (code: string)
    ensures |code| == 2 && ToUpper(code) == code
  {
    match c
    case PE => ToUpperKeepsUpper("PE"); "PE"
    case PM => ToUpperKeepsUpper("PM"); "PM"
    case HR => ToUpperKeepsUpper("HR"); "HR"
    case FN => ToUpperKeepsUpper("FN"); "FN"
    case IT => ToUpperKeepsUpper("IT"); "IT"
  }

  /** The spellings of all five codes. */
  const CodeTexts: set<string> := {"PE", "PM", "HR", "FN", "IT"}

  /** The `switch` on an already upper-cased code: the code it names, if any. */
  function CodeOf(spelling: string): (r: Option<Code>)
    ensures r.Some? <==> spelling in CodeTexts
    ensures r.Some? ==> CodeText(r.value) == spelling
  {
    match spelling
    case "PE" => Some(PE)
    case "PM" => Some(PM)
    case "HR" => Some(HR)
    case "FN" => Some(FN)
    case "IT" => Some(IT)
    case _ => None
  }

  /** Spelling a code and reading it back gives the code; distinct codes are spelled differently. */
  lemma CodeOfText(c: Code)
    ensures CodeOf(CodeText(c)) == Some(c)
    ensures CodeText(c) in CodeTexts
  {
  }

  /** Every spelling in the set is the spelling of some code. */
  lemma CodeTextsSpelled(spelling: string)
    requires spelling in CodeTexts
    ensures exists c :: CodeText(c) == spelling
  {
    var c := CodeOf(spelling).value;
    assert CodeText(c) == spelling;
  }

  /** A lower-case spelling upper-cases to a code's spelling. */
  lemma LowerCaseCodeExample()
    ensures ToUpper("pe") == CodeText(PE)
  {
    assert ToUpper("pe") == "PE";
  }
}
