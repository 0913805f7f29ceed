/** The `calculator` tool: two numbers and an operation name in, either a record that
    echoes the inputs with the arithmetic result, or an error payload. Numbers are
    mathematical reals, an abstraction of the IEEE doubles the tool receives. */
module Calculator {
  import opened Optional

  /** `Ok` is the success dictionary {first_num, second_num, operation, result};
      `Err` is the dictionary {error}. */
  datatype CalcResult =
    | Ok(firstNum: real, secondNum: real, operation: string, result: real)
    | Err(error: string)

  const DivisionByZero: string := "Division by zero is not allowed"

  /** The text that precedes the operation name in the unsupported-operation error. */
  const UnsupportedPrefix: string := "Unsupported operation '"

  /** The operation names the tool implements. */
  predicate IsSupported(op: string)
  {
    op == "add" || op == "sub" || op == "mul" || op == "div"
  }

  /** The error text naming an operation the tool does not implement. */
  function UnsupportedMessage(op: string): string
  {
    UnsupportedPrefix + op + "'"
  }

  function Calculate(a: real, b: real, op: string): (r: CalcResult)
    // every success echoes its inputs
    ensures r.Ok? ==> r.firstNum == a && r.secondNum == b && r.operation == op
    // success exactly for a supported operation that is not a division by zero
    ensures r.Ok? <==> IsSupported(op) && !(op == "div" && b == 0.0)
    // the two error payloads
    ensures op == "div" && b == 0.0 ==> r == Err(DivisionByZero)
    ensures !IsSupported(op) ==> r == Err(UnsupportedMessage(op))
  {
    if op == "add" then Ok(a, b, op, a + b)
    else if op == "sub" then Ok(a, b, op, a - b)
    else if op == "mul" then Ok(a, b, op, a * b)
    else if op == "div" then
      if b == 0.0 then Err(DivisionByZero) else Ok(a, b, op, a / b)
    else Err(UnsupportedMessage(op))
  }

  /** Each successful result is the one number that undoes the operation:
      adding, subtracting, multiplying or dividing by the second operand gives back the first. */
  lemma ResultUndoesOperation(a: real, b: real, op: string)
    requires Calculate(a, b, op).Ok?
    ensures var x := Calculate(a, b, op).result;
      && (op == "add" ==> x - b == a)
      && (op == "sub" ==> x + b == a)
      && (op == "mul" && b != 0.0 ==> x / b == a)
      && (op == "mul" && b == 0.0 ==> x == 0.0)
      && (op == "div" ==> x * b == a)
  {
  }

  /** Recovers the operation name from an unsupported-operation error, if the text is one. */
  function ParseUnsupported(msg: string): (r: Option<string>)
  {
    if |UnsupportedPrefix| + 1 <= |msg| && msg[..|UnsupportedPrefix|] == UnsupportedPrefix
       && msg[|msg| - 1] == '\''
    then Some(msg[|UnsupportedPrefix|..|msg| - 1])
    else None
  }

  /** The unsupported-operation error names the operation exactly: the name can be read back
      from the message, and the division-by-zero message is never mistaken for one. */
  lemma ErrorNamesOperation(a: real, b: real, op: string)
    requires !IsSupported(op)
    ensures Calculate(a, b, op).Err?
    ensures ParseUnsupported(Calculate(a, b, op).error) == Some(op)
    ensures ParseUnsupported(DivisionByZero) == None
  {
  }
}
