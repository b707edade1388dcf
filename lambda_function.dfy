/**
 * The adder Lambda handler: read `num1` and `num2` from the event, reject a
 * missing or non-numeric input with 400, otherwise answer 200 with the sum;
 * any exception raised on the way becomes a 500 whose body is the
 * exception's text.
 */
module LambdaFunction {
  import opened Wrappers
  import opened Decimal
  import opened PythonValues

  /** The response dict: exactly the keys `statusCode` and `body`. */
  datatype Response = Response(statusCode: int, body: string)

  const MissingMessage: string := "Both 'num1' and 'num2' must be provided."
  const NonNumericMessage: string := "'num1' and 'num2' must be numeric values (int or float)."
  const SumPrefix: string := "The sum is "

  /** The body of the `try` block; a Failure is an exception it raises. */
  function TryBlock(event: Value, rt: Runtime): Result<Response, PyException> {
    var num1 :- Get(event, "num1");
    var num2 :- Get(event, "num2");
    if num1.VNone? || num2.VNone? then
      Success(Response(400, MissingMessage))
    else if !IsNumeric(num1) || !IsNumeric(num2) then
      Success(Response(400, NonNumericMessage))
    else
      var result :- Add(AsNumber(num1), AsNumber(num2), rt);
      var text :- Str(result, rt);
      Success(Response(200, SumPrefix + text))
  }

  /** `lambda_handler(event)`: the `except Exception` clause turns every raise into a 500. */
  function Handler(event: Value, rt: Runtime): (r: Response)
    ensures r.statusCode in {200, 400, 500}
    ensures r.statusCode == 400 ==> r.body == MissingMessage || r.body == NonNumericMessage
    ensures r.statusCode == 200 ==> |r.body| >= |SumPrefix| && r.body[..|SumPrefix|] == SumPrefix
    ensures r.statusCode == 500 ==> exists e :: r.body == rt.describe(e)
  {
    match TryBlock(event, rt)
    case Success(response) => response
    case Failure(e) => Response(500, rt.describe(e))
  }
}
