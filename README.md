# Adder Lambda handler, modelled in Dafny

The repository holds one AWS Lambda handler, `lambda_handler(event, context)`.
It reads `num1` and `num2` from the event dict with `.get`. If either one is
missing or `None`, it answers `400` "Both 'num1' and 'num2' must be provided.".
If either one is not an `int` or a `float`, it answers `400` "'num1' and 'num2'
must be numeric values (int or float).". Otherwise it answers `200` "The sum
is {num1 + num2}". Any exception raised along the way is caught and returned
as `500`, with `str(e)` as the body.

The model is pure, like the source:

- `wrappers.dfy` (`Wrappers`): `Option` and a failure-compatible `Result`. A
  `Failure` stands for a raised Python exception.
- `decimal.dfy` (`Decimal`): `str()` of a Python int (`IntToString`) and a
  parser (`ParseInt`) as its partner. Both round trips are proved, plus the
  link between digit count and powers of ten.
- `python_values.dfy` (`PythonValues`): the values an event can carry
  (`None`, `bool`, `int`, `float`, `str`, `list`, `dict`) and `dict.get`.
  Also `isinstance(v, (int, float))` (a `bool` is an `int`), `AsNumber`, which turns
  a bool into the int 0 or 1 before the addition, `+` on numbers
  following Python's promotion rules, and `str()` of the sum.
- `lambda_function.py` is modelled in `lambda_function.dfy`
  (`LambdaFunction`): `TryBlock` is the `try` body and `Handler` adds the
  `except` clause.
- `handler_properties.dfy` (`HandlerProperties`): the handler's promises,
  stated directly over the event dict.

Some interpreter behaviour is not fixed by the model. It comes in as a
`Runtime` parameter:

- `float(n)` for an int, which raises `OverflowError` for huge ints
  (`ValidRuntime` requires it to succeed below 10^308 in absolute value);
- IEEE-754 addition;
- `str()` of a float;
- the text of `str(e)`;
- CPython's limit on the digits `str()` of an int may produce
  (`sys.get_int_max_str_digits()`). The default is 4300, 0 disables it, and
  any other value is at least 640 (also part of `ValidRuntime`).

Because of the int-to-float conversion and the digit limit, two inputs can both pass the
numeric check and still get a `500`:

- an int plus a float where `float()` of the int raises `OverflowError` (under a valid runtime, only for ints of at least 10^308 in absolute value);
- two ints whose sum has more decimal digits than the limit.

So "`200` exactly when both inputs are present and numeric" holds only with
that extra condition. `HandlerProperties.SuccessIff` states it that way. A
stricter check would reject booleans; the code accepts them (they add as 0
and 1), and the model follows the code.

## Model

| member | source | states |
|---|---|---|
| LambdaFunction.Handler | lambda_function.py:1-29 | every response has status 200, 400 or 500; a 400 carries one of the two fixed messages; a 200 body starts with "The sum is "; a 500 body is the text of some exception |
| HandlerProperties.MissingInputIff | lambda_function.py:3-10 | for a dict event, the answer is 400 "must be provided" exactly when num1 or num2 is absent or None |
| HandlerProperties.PresenceBeforeTypeScenarios | lambda_function.py:6-17 | a missing input wins over a non-numeric one: {num1:"abc"} and {num1:None, num2:[]} get "must be provided" |
| HandlerProperties.NonNumericIff | lambda_function.py:13-17 | with both inputs provided, the answer is 400 "must be numeric" exactly when one of them is not an int, bool or float |
| HandlerProperties.NonNumericScenarios | lambda_function.py:13-17 | {num1:"abc", num2:10}, {num1:10, num2:[1,2,3]} and a float with a dict all get 400 "must be numeric" |
| HandlerProperties.IntSum | lambda_function.py:19-23 | two ints (bools as 0/1) whose sum passes the digit limit give 200 "The sum is " + the decimal sum |
| HandlerProperties.IntSumReadsBack | lambda_function.py:19-23 | in that case the text after "The sum is " parses back to the sum of the two inputs |
| HandlerProperties.IntSumTooLong | lambda_function.py:19-29 | two ints whose sum exceeds the digit limit raise ValueError inside the f-string, giving 500 |
| HandlerProperties.SmallIntSum | lambda_function.py:19-23 | under any valid runtime, two ints whose sum has at most 640 digits give 200 |
| HandlerProperties.FloatSum | lambda_function.py:19-23 | two floats always give 200 with the rendered IEEE-754 sum |
| HandlerProperties.MixedSum | lambda_function.py:19-29 | int + float converts the int first; an overflowing conversion gives 500 OverflowError, otherwise 200 with the float sum |
| HandlerProperties.SmallMixedSum | lambda_function.py:19-23 | under any valid runtime, an int below 10^308 plus a float gives 200 |
| HandlerProperties.SmallMixedSumSwapped | lambda_function.py:19-23 | under any valid runtime, a float plus an int below 10^308 gives 200 |
| HandlerProperties.MixedSumSwapped | lambda_function.py:19-29 | float + int: the same as MixedSum with the operands swapped |
| HandlerProperties.NonMappingEvent | lambda_function.py:2-3 | an event that is not a dict has no `.get`; the AttributeError is caught and answered with 500 and its text |
| HandlerProperties.SuccessIff | lambda_function.py:6-23 | status 200 exactly when the event is a dict, both inputs are provided and numeric, and neither the sum nor its rendering raises |
| HandlerProperties.ServerErrorIff | lambda_function.py:2-29 | status 500 exactly when the event is not a dict, or a sum of two provided numbers raises |
| HandlerProperties.ValidInputScenario | test_lambda_function.py:3-7 | {num1:5, num2:7} gives 200 "The sum is 12" under any valid runtime |
| HandlerProperties.MissingInputScenarios | test_lambda_function.py:9-25 | {num2:7}, {num1:5} and {} give 400 "must be provided" |
| HandlerProperties.ZeroSumScenario | lambda_function.py:19-23 | {0,0} gives 200 "The sum is 0" |
| HandlerProperties.BoolScenarios | lambda_function.py:13-22 | True + 2 gives 200 "The sum is 3" and -9 + False gives 200 "The sum is -9" |
| PythonValues.Add | lambda_function.py:19 | on the operands as `AsNumber` presents them (a bool already turned into the int 0 or 1): int + int is their integer sum; any float operand gives a float; the only exception is OverflowError, raised when an int in a mixed sum does not fit in a float |
| PythonValues.Str | lambda_function.py:22 | str() of an int succeeds exactly within the digit limit and its text parses back to the int; the only exception is ValueError |
| PythonValues.WithinDigitLimitIff | lambda_function.py:22 | with a nonzero limit k, an int may be rendered exactly when its absolute value is below 10^k |
| PythonValues.SmallIntsRender | lambda_function.py:22 | ints below 10^640 render under every valid runtime |
| Decimal.NatToStringCorrect | lambda_function.py:22 | a natural number's rendering is a canonical digit string (no leading zero) denoting that number |
| Decimal.CanonicalIsRendering | lambda_function.py:22 | every canonical digit string is the rendering of the number it denotes |
| Decimal.ParseIntToString | lambda_function.py:22 | parsing the rendering of an int gives that int back |
| Decimal.StringToIntRoundTrip | lambda_function.py:22 | rendering a parsed int gives the original text back, so each int has one decimal form |
| Decimal.DigitCountBound | lambda_function.py:22 | a number has at most k digits exactly when it is below 10^k |

## Left out

- The local-run block (lambda_function.py:31-39): it reads `test_event.json`, parses JSON and prints. This is I/O with no logic.
- The `context` parameter: it is never used. The Lambda platform that invokes the handler is not modelled either.
- IEEE-754 arithmetic, `float(int)` conversion and float rendering: these are fields of `Runtime`, not fixed by the model. FloatSum therefore says which text the body holds, not which digits.
- The text of `str(e)`: it is the `Runtime.describe` field. The model fixes only which exception reaches the `except` clause.
- Events other than the JSON-shaped values: dict subclasses with their own `get`, objects with custom `__add__` or `__format__`, and int or float subclasses such as `IntEnum`. Dict keys other than strings are also out.
- Exceptions outside `Exception` (`KeyboardInterrupt`, `SystemExit`): they escape the `except` clause in Python and are not modelled. `MemoryError` on huge operands is not modelled either.
- Idempotence: holds by construction, since `Handler` is a function of its arguments.
