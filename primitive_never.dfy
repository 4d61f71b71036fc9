/**
 * The primitive-type-never lesson: functions that can only throw, an exhaustive
 * `switch` over an enum whose unhandled case throws, and a `typeof` chain
 * whose final `else` the declared type makes unreachable.
 */
module PrimitiveNever {
  import opened Js

  /**
   * `functionThrow(): never`. A `never` function can stand for any result type,
   * since no call of it returns.
   */
  function FunctionThrow<T>(): (r: Completion<T>)
    ensures !r.Normal? && r.message == "This function returns never"
  {
    Throw("This function returns never")
  }

  /** `functionReturnNever(): never`. */
  function FunctionReturnNever<T>(): (r: Completion<T>)
    ensures !r.Normal? && r.message == "Error message"
  {
    Throw("Error message")
  }

  datatype EnumWithChoices = ChoiceA | ChoiceB | ChoiceC

  /** `unhandledChoiceFromEnum(): never`. */
  function UnhandledChoiceFromEnum<T>(): (r: Completion<T>)
    ensures !r.Normal? && r.message == "Choice not defined"
  {
    Throw("Choice not defined")
  }

  /**
   * `functionReturnStringFromEnum(c)`: the handled choices map to their letter;
   * any other choice reaches `default` and throws.
   */
  function FunctionReturnStringFromEnum(c: EnumWithChoices): (r: Completion<string>)
    ensures r.Normal? <==> c != ChoiceC
    ensures r.Normal? ==> r.value == "A" || r.value == "B"
    ensures c == ChoiceA ==> r == Normal("A")
    ensures c == ChoiceB ==> r == Normal("B")
    ensures r.Throw? ==> r.message == "Choice not defined"
  {
    match c
    case ChoiceA => Normal("A")
    case ChoiceB => Normal("B")
    case _ => UnhandledChoiceFromEnum()
  }

  /** Distinct handled choices give distinct strings. */
  lemma HandledChoicesAreDistinguished(c: EnumWithChoices, d: EnumWithChoices)
    requires FunctionReturnStringFromEnum(c).Normal? && FunctionReturnStringFromEnum(c) == FunctionReturnStringFromEnum(d)
    ensures c == d
  {
  }

  /** Which branch of `if (typeof data == "number") … else if (typeof data == "boolean") … else …` runs. */
  datatype DataBranch = NumberBranch | BooleanBranch | ImpossibleElse

  function BranchOnTypeOf(data: JsValue): (b: DataBranch)
    ensures b == NumberBranch <==> data.Number?
    ensures b == BooleanBranch <==> data.Boolean?
  {
    if TypeOf(data) == "number" then NumberBranch
    else if TypeOf(data) == "boolean" then BooleanBranch
    else ImpossibleElse
  }

  /** The line each branch logs. */
  function DescribeData(data: JsValue): (line: string)
  {
    match BranchOnTypeOf(data)
    case NumberBranch => "The data is a number type: " + TypeOf(data)
    case BooleanBranch => "The data is a boolean type: " + TypeOf(data)
    case ImpossibleElse => "Impossible ELSE case: " + TypeOf(data)
  }

  /** For a `number | boolean` value exactly one of the first two branches runs; the `else` runs for no such value. */
  lemma ElseUnreachable(data: JsValue)
    ensures BranchOnTypeOf(data) == ImpossibleElse <==> !(data.Number? || data.Boolean?)
    ensures data.Number? || data.Boolean? ==> DescribeData(data) != "Impossible ELSE case: " + TypeOf(data)
  {
    if data.Number? || data.Boolean? {
      var line := DescribeData(data);
      assert line[..12] == "The data is "[..12];
      assert ("Impossible ELSE case: " + TypeOf(data))[..12] == "Impossible ELSE case: "[..12];
      assert "The data is "[0] != "Impossible ELSE case: "[0];
    }
  }

  /** `ajaxCall()` returns `true`, so the boolean branch runs. */
  function AjaxCall(): (data: JsValue)
    ensures data.Boolean?
  {
    Boolean(true)
  }

  lemma SampleData()
    ensures BranchOnTypeOf(AjaxCall()) == BooleanBranch
    ensures DescribeData(AjaxCall()) == "The data is a boolean type: " + "boolean"
  {
  }

  /** What the rest of the `try` block would log if the call returned `n` (with `s` = "A string"). */
  function TryBlockLines(n: string): (log: seq<string>)
  {
    ["n === " + n,
     "s before assignment to value of n === " + "A string",
     "s after assignment to value of n === " + n]
  }

  /**
   * The `try` block around `n = functionReturnNever()`, as written: the call
   * throws before anything is logged, and the `catch` block only evaluates an
   * arrow function that logs `err.message`, without calling it.
   */
  function TryNeverAsWritten(): (log: seq<string>)
  {
    match FunctionReturnNever<string>()
    case Normal(n) => TryBlockLines(n)
    case Throw(_) => []
  }

  /** As written, the thrown error's message never reaches the log: nothing is logged at all. */
  lemma TryNeverLogsNothing()
    ensures TryNeverAsWritten() == []
  {
  }

  /** The evidently intended `catch (err) { console.log(err.message); }`. */
  function TryNeverLoggingError(): (log: seq<string>)
  {
    match FunctionReturnNever<string>()
    case Normal(n) => TryBlockLines(n)
    case Throw(message) => [message]
  }

  /** With the handler called, the log holds exactly the thrown message. */
  lemma TryNeverLogsMessage()
    ensures TryNeverLoggingError() == ["Error message"]
    ensures TryNeverLoggingError() == [FunctionReturnNever<string>().message]
  {
  }
}
