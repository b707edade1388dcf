/**
 * What the adder handler promises, stated over the event dict directly and
 * proved about the model in module LambdaFunction.
 */
module HandlerProperties {
  import opened Wrappers
  import opened Decimal
  import opened PythonValues
  import opened LambdaFunction

  /** The key is present with a value other than None. */
  predicate Provided(m: map<string, Value>, key: string) {
    key in m && m[key] != VNone
  }

  /** The addition or its rendering raises, although both operands are numeric. */
  predicate SumRaises(a: Value, b: Value, rt: Runtime)
    requires IsNumeric(a) && IsNumeric(b)
  {
    (IsIntLike(a) && IsIntLike(b) && !WithinDigitLimit(IntOf(a) + IntOf(b), rt)) ||
    (IsIntLike(a) && b.VFloat? && rt.intToFloat(IntOf(a)).None?) ||
    (a.VFloat? && IsIntLike(b) && rt.intToFloat(IntOf(b)).None?)
  }

  /** The "must be provided" answer comes exactly when an input is absent or None. */
  lemma MissingInputIff(m: map<string, Value>, rt: Runtime)
    ensures Handler(VDict(m), rt) == Response(400, MissingMessage)
            <==> !Provided(m, "num1") || !Provided(m, "num2")
  {
  }

  /** With both inputs provided, the "must be numeric" answer comes exactly when one is not a number. */
  lemma NonNumericIff(m: map<string, Value>, rt: Runtime)
    requires Provided(m, "num1") && Provided(m, "num2")
    ensures Handler(VDict(m), rt) == Response(400, NonNumericMessage)
            <==> !IsNumeric(m["num1"]) || !IsNumeric(m["num2"])
  {
  }

  /** Two ints (bools as 0 and 1) give 200 and their sum in decimal. */
  lemma IntSum(m: map<string, Value>, rt: Runtime)
    requires "num1" in m && "num2" in m
    requires IsIntLike(m["num1"]) && IsIntLike(m["num2"])
    requires WithinDigitLimit(IntOf(m["num1"]) + IntOf(m["num2"]), rt)
    ensures Handler(VDict(m), rt)
            == Response(200, SumPrefix + IntToString(IntOf(m["num1"]) + IntOf(m["num2"])))
  {
    var sum := IntOf(m["num1"]) + IntOf(m["num2"]);
    assert TryBlock(VDict(m), rt) == Success(Response(200, SumPrefix + IntToString(sum))) by {
      assert Add(AsNumber(m["num1"]), AsNumber(m["num2"]), rt) == Success(NInt(sum));
      assert Str(NInt(sum), rt) == Success(IntToString(sum));
    }
  }

  /** The text after "The sum is " in a 200 for two ints reads back as their sum. */
  lemma IntSumReadsBack(m: map<string, Value>, rt: Runtime)
    requires "num1" in m && "num2" in m
    requires IsIntLike(m["num1"]) && IsIntLike(m["num2"])
    requires WithinDigitLimit(IntOf(m["num1"]) + IntOf(m["num2"]), rt)
    ensures ParseInt(Handler(VDict(m), rt).body[|SumPrefix|..]) == Some(IntOf(m["num1"]) + IntOf(m["num2"]))
  {
    var sum := IntOf(m["num1"]) + IntOf(m["num2"]);
    IntSum(m, rt);
    ParseIntToString(sum);
  }

  /** A sum whose decimal form exceeds the interpreter's digit limit raises ValueError: 500. */
  lemma IntSumTooLong(m: map<string, Value>, rt: Runtime)
    requires "num1" in m && "num2" in m
    requires IsIntLike(m["num1"]) && IsIntLike(m["num2"])
    requires !WithinDigitLimit(IntOf(m["num1"]) + IntOf(m["num2"]), rt)
    ensures Handler(VDict(m), rt) == Response(500, rt.describe(ValueError))
  {
  }

  /** Under any valid runtime, two ints whose sum has at most 640 digits give 200. */
  lemma SmallIntSum(m: map<string, Value>, rt: Runtime)
    requires ValidRuntime(rt)
    requires "num1" in m && "num2" in m
    requires IsIntLike(m["num1"]) && IsIntLike(m["num2"])
    requires Abs(IntOf(m["num1"]) + IntOf(m["num2"])) < Pow10(640)
    ensures Handler(VDict(m), rt).statusCode == 200
  {
    SmallIntsRender(IntOf(m["num1"]) + IntOf(m["num2"]), rt);
    IntSum(m, rt);
  }

  /** Two floats always give 200 with the rendered IEEE-754 sum. */
  lemma FloatSum(m: map<string, Value>, rt: Runtime)
    requires "num1" in m && "num2" in m
    requires m["num1"].VFloat? && m["num2"].VFloat?
    ensures Handler(VDict(m), rt)
            == Response(200, SumPrefix + rt.floatRepr(rt.floatAdd(m["num1"].f, m["num2"].f)))
  {
  }

  /** An int with a float: the int is converted first; if that overflows the answer is 500. */
  lemma MixedSum(m: map<string, Value>, rt: Runtime)
    requires "num1" in m && "num2" in m
    requires IsIntLike(m["num1"]) && m["num2"].VFloat?
    ensures rt.intToFloat(IntOf(m["num1"])).None? ==>
              Handler(VDict(m), rt) == Response(500, rt.describe(OverflowError))
    ensures rt.intToFloat(IntOf(m["num1"])).Some? ==>
              Handler(VDict(m), rt)
              == Response(200, SumPrefix + rt.floatRepr(rt.floatAdd(rt.intToFloat(IntOf(m["num1"])).value, m["num2"].f)))
  {
  }

  /** A float with an int: the int is converted first; if that overflows the answer is 500. */
  lemma MixedSumSwapped(m: map<string, Value>, rt: Runtime)
    requires "num1" in m && "num2" in m
    requires m["num1"].VFloat? && IsIntLike(m["num2"])
    ensures rt.intToFloat(IntOf(m["num2"])).None? ==>
              Handler(VDict(m), rt) == Response(500, rt.describe(OverflowError))
    ensures rt.intToFloat(IntOf(m["num2"])).Some? ==>
              Handler(VDict(m), rt)
              == Response(200, SumPrefix + rt.floatRepr(rt.floatAdd(m["num1"].f, rt.intToFloat(IntOf(m["num2"])).value)))
  {
  }

  /** Under any valid runtime, an int below 10^308 plus a float gives 200. */
  lemma SmallMixedSum(m: map<string, Value>, rt: Runtime)
    requires ValidRuntime(rt)
    requires "num1" in m && "num2" in m
    requires IsIntLike(m["num1"]) && m["num2"].VFloat?
    requires Abs(IntOf(m["num1"])) < Pow10(308)
    ensures Handler(VDict(m), rt).statusCode == 200
  {
    assert rt.intToFloat(IntOf(m["num1"])).Some?;
    MixedSum(m, rt);
  }

  /** Under any valid runtime, a float plus an int below 10^308 gives 200. */
  lemma SmallMixedSumSwapped(m: map<string, Value>, rt: Runtime)
    requires ValidRuntime(rt)
    requires "num1" in m && "num2" in m
    requires m["num1"].VFloat? && IsIntLike(m["num2"])
    requires Abs(IntOf(m["num2"])) < Pow10(308)
    ensures Handler(VDict(m), rt).statusCode == 200
  {
    assert rt.intToFloat(IntOf(m["num2"])).Some?;
    MixedSumSwapped(m, rt);
  }

  /** An event without a `get` method (anything but a dict) never escapes as an exception. */
  lemma NonMappingEvent(event: Value, rt: Runtime)
    requires !event.VDict?
    ensures Handler(event, rt) == Response(500, rt.describe(AttributeError(TypeName(event), "get")))
  {
  }

  /** 200 exactly when both inputs are provided numbers and neither the sum nor its rendering raises. */
  lemma SuccessIff(event: Value, rt: Runtime)
    ensures Handler(event, rt).statusCode == 200 <==>
              event.VDict? && Provided(event.entries, "num1") && Provided(event.entries, "num2") &&
              IsNumeric(event.entries["num1"]) && IsNumeric(event.entries["num2"]) &&
              !SumRaises(event.entries["num1"], event.entries["num2"], rt)
  {
  }

  /** 500 exactly when the event is not a dict or a sum of provided numbers raises. */
  lemma ServerErrorIff(event: Value, rt: Runtime)
    ensures Handler(event, rt).statusCode == 500 <==>
              !event.VDict? ||
              (Provided(event.entries, "num1") && Provided(event.entries, "num2") &&
               IsNumeric(event.entries["num1"]) && IsNumeric(event.entries["num2"]) &&
               SumRaises(event.entries["num1"], event.entries["num2"], rt))
  {
  }

  /** The test suite's valid input, under any valid runtime. */
  lemma ValidInputScenario(rt: Runtime)
    requires ValidRuntime(rt)
    ensures Handler(VDict(map["num1" := VInt(5), "num2" := VInt(7)]), rt) == Response(200, "The sum is 12")
  {
    assert IntToString(12) == "12" && DigitCount(12) == 2;
    IntSum(map["num1" := VInt(5), "num2" := VInt(7)], rt);
  }

  /** The test suite's missing-input cases. */
  lemma MissingInputScenarios(rt: Runtime)
    ensures Handler(VDict(map["num2" := VInt(7)]), rt) == Response(400, MissingMessage)
    ensures Handler(VDict(map["num1" := VInt(5)]), rt) == Response(400, MissingMessage)
    ensures Handler(VDict(map[]), rt) == Response(400, MissingMessage)
  {
  }

  /** Boundary case: 0 + 0. */
  lemma ZeroSumScenario(rt: Runtime)
    requires ValidRuntime(rt)
    ensures Handler(VDict(map["num1" := VInt(0), "num2" := VInt(0)]), rt) == Response(200, "The sum is 0")
  {
  }

  /** Bools pass the numeric check and add as 1 and 0. */
  lemma BoolScenarios(rt: Runtime)
    requires ValidRuntime(rt)
    ensures Handler(VDict(map["num1" := VBool(true), "num2" := VInt(2)]), rt) == Response(200, "The sum is 3")
    ensures Handler(VDict(map["num1" := VInt(-9), "num2" := VBool(false)]), rt) == Response(200, "The sum is -9")
  {
  }

  /** Presence is checked before type: a missing input wins over a non-numeric one. */
  lemma PresenceBeforeTypeScenarios(rt: Runtime)
    ensures Handler(VDict(map["num1" := VStr("abc")]), rt) == Response(400, MissingMessage)
    ensures Handler(VDict(map["num1" := VNone, "num2" := VList([])]), rt) == Response(400, MissingMessage)
  {
  }

  /** Non-numeric inputs: a string, a list, a None-free dict. */
  lemma NonNumericScenarios(rt: Runtime)
    ensures Handler(VDict(map["num1" := VStr("abc"), "num2" := VInt(10)]), rt) == Response(400, NonNumericMessage)
    ensures Handler(VDict(map["num1" := VInt(10), "num2" := VList([VInt(1), VInt(2), VInt(3)])]), rt)
            == Response(400, NonNumericMessage)
    ensures Handler(VDict(map["num1" := VFloat(Binary64(0)), "num2" := VDict(map[])]), rt)
            == Response(400, NonNumericMessage)
  {
  }
}
