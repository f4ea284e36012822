/** The expression panel of the main window: the two signal selectors, the
    operation selector and the constants field are read into one user
    input, and the preview field shows the expression that input denotes. */
module Window {
  import opened Common
  import opened Text

  /** The first entry of both signal selectors: no signal chosen yet. */
  const Placeholder: string := "Select a Signal"

  /** The entries of the two signal selectors, placeholder first. */
  const SelectorEntries: seq<string> :=
    [Placeholder, "Sin", "Cos", "Tan", "Cosec", "Sec", "Cot", "Triangle", "Square"]

  /** The four operations the preview writes infix between the two names. */
  const InfixOperations: seq<string> := ["A + B", "A - B", "A * B", "A / B"]

  /** What `get_user_input` hands back when both signals are chosen. */
  datatype UserInput = UserInput(signalA: string, signalB: string, operation: string, constants: string)

  /** `get_user_input()`: None (the four Nones) when either selector still
      shows the placeholder; otherwise the two names and the operation as
      shown, and the constants text with surrounding white space removed. */
  function GetUserInput(signalA: string, signalB: string, operation: string, constantText: string)
    : (r: Option<UserInput>)
    ensures r.None? <==> signalA == Placeholder || signalB == Placeholder
    ensures r.Some? ==> r.value.signalA == signalA && r.value.signalB == signalB && r.value.operation == operation
    ensures r.Some? ==> r.value.constants == Strip(constantText)
    ensures r.Some? ==> |r.value.constants| <= |constantText|
    ensures r.Some? && r.value.constants != [] ==>
      !IsSpace(r.value.constants[0]) && !IsSpace(r.value.constants[|r.value.constants| - 1])
  {
    var constants := Strip(constantText);
    if signalA == Placeholder || signalB == Placeholder then None
    else Some(UserInput(signalA, signalB, operation, constants))
  }

  /** The expression part of the preview: "{A} {op} {B}" for the four infix
      operations, op being character 2 of the operation text; for any other
      operation every 'A' of the operation text replaced by signal A's name
      and then every 'B' of the result by signal B's name. */
  function Expression(u: UserInput): (e: string)
    ensures u.operation in InfixOperations ==> |e| == |u.signalA| + |u.signalB| + 3
    ensures u.operation !in InfixOperations && 'A' !in u.operation && 'B' !in u.operation ==> e == u.operation
  {
    if u.operation in InfixOperations then
      u.signalA + " " + [u.operation[2]] + " " + u.signalB
    else
      ReplaceChar(ReplaceChar(u.operation, 'A', u.signalA), 'B', u.signalB)
  }

  /** The text `on_preview_clicked` shows: the expression, followed by
      " | Constants: {constants}" when constants were given. */
  function Preview(u: UserInput): (p: string)
    ensures u.constants == "" ==> p == Expression(u)
    ensures u.constants != "" ==> p == Expression(u) + " | Constants: " + u.constants
  {
    var expression := Expression(u);
    if u.constants != "" then expression + " | Constants: " + u.constants else expression
  }

  /** An infix preview shows the operator between the two names: for "A + B"
      it is "{A} + {B}", and likewise for -, * and /. */
  lemma {:induction false} InfixPreview(a: string, b: string, op: char)
    requires op in "+-*/"
    ensures Expression(UserInput(a, b, ['A', ' ', op, ' ', 'B'], "")) == a + " " + [op] + " " + b
  {
    var operation := ['A', ' ', op, ' ', 'B'];
    assert operation in InfixOperations;
    assert operation[2] == op;
  }

  /** For the other operations, when signal A's name contains no 'B', the
      preview is the operation text with both placeholders substituted in
      one pass. */
  lemma {:induction false} TemplatePreview(u: UserInput)
    requires u.operation !in InfixOperations
    requires 'B' !in u.signalA
    ensures Expression(u) == Substitute(u.operation, u.signalA, u.signalB)
  {
    ReplaceTwiceIsSubstitute(u.operation, u.signalA, u.signalB);
  }

  /** Every signal the selector offers previews a template operation as the
      single-pass substitution of both names. */
  lemma {:induction false} SelectablePreview(u: UserInput)
    requires u.signalA in SelectorEntries
    requires u.operation !in InfixOperations
    ensures Expression(u) == Substitute(u.operation, u.signalA, u.signalB)
  {
    assert 'B' !in u.signalA;
    TemplatePreview(u);
  }

  /** A name containing 'B' has that 'B' replaced too: the operation "A"
      with signal A named "B" and signal B named "C" previews as "C",
      where the single-pass substitution gives "B". */
  lemma SecondReplaceReachesFirstName()
    ensures Expression(UserInput("B", "C", "A", "")) == "C"
    ensures Substitute("A", "B", "C") == "B"
  {
    assert ReplaceChar("A", 'A', "B") == "B";
    assert ReplaceChar("B", 'B', "C") == "C";
    assert Substitute("A", "B", "C") == "B" + Substitute([], "B", "C");
  }

  class MainWindow {
    /** The texts shown by the two signal selectors, the operation selector
        and the constants field. */
    var userInput1: string
    var userInput2: string
    var operation: string
    var constantText: string
    /** The text of the preview field. */
    var preview: string

    /** A new window: the selectors show their first entries, the constants
        and preview fields are empty. */
    constructor ()
      ensures userInput1 == Placeholder && userInput2 == Placeholder
      ensures operation == "Choose an operation" && constantText == "" && preview == ""
    {
      userInput1, userInput2 := Placeholder, Placeholder;
      operation := "Choose an operation";
      constantText := "";
      preview := "";
    }

    /** `on_preview_clicked()`: when the input is rejected, or signal A's
        name is empty, the preview field keeps its text; otherwise it shows
        Preview of the input. */
    method OnPreviewClicked()
      modifies this`preview
      ensures var u := GetUserInput(userInput1, userInput2, operation, constantText);
              if u.None? || u.value.signalA == "" then preview == old(preview)
              else preview == Preview(u.value)
    {
      var u := GetUserInput(userInput1, userInput2, operation, constantText);
      if u.None? || u.value.signalA == "" {
        return;
      }
      preview := Preview(u.value);
    }
  }
}
