/** Worked examples: the documented and tested outputs of `HTTPErr`, and a router in
    the shape of the example shim, with a demo handler and a Lambda invoker. */
module Scenarios {
  import opened Wrappers
  import opened LambdaCodes
  import opened Values
  import opened Status
  import opened Router
  import opened Lambda

  /** The documented example: 404 with "it isn't there". */
  lemma NotFoundExample()
    ensures Message(HTTPErr(404, Text("it isn't there"))) == "[Not Found] it isn't there"
  {
    assert StatusText(404) == "Not Found";
    NotFoundExampleLiteral();
  }

  /** The literal concatenation behind `NotFoundExample`, on its own: with the phrase
      table in scope the solver would otherwise unfold every phrase while comparing
      strings, so each scenario's literal step is a separate small lemma. */
  lemma NotFoundExampleLiteral()
    ensures "[" + "Not Found" + "] " + "it isn't there" == "[Not Found] it isn't there"
  {
  }

  /** The outputs the package's example test expects for "oh noes", one code each. */
  lemma BadRequestTestOutput()
    ensures Message(HTTPErr(400, Text("oh noes"))) == "[Bad Request] oh noes"
  {
    assert StatusText(400) == "Bad Request";
    BadRequestTestOutputLiteral();
  }

  lemma BadRequestTestOutputLiteral()
    ensures "[" + "Bad Request" + "] " + "oh noes" == "[Bad Request] oh noes"
  {
  }

  lemma ConflictTestOutput()
    ensures Message(HTTPErr(409, Text("oh noes"))) == "[Conflict] oh noes"
  {
    assert StatusText(409) == "Conflict";
    ConflictTestOutputLiteral();
  }

  lemma ConflictTestOutputLiteral()
    ensures "[" + "Conflict" + "] " + "oh noes" == "[Conflict] oh noes"
  {
  }

  lemma InternalServerErrorTestOutput()
    ensures Message(HTTPErr(500, Text("oh noes"))) == "[Internal Server Error] oh noes"
  {
    assert StatusText(500) == "Internal Server Error";
    InternalServerErrorTestOutputLiteral();
  }

  lemma InternalServerErrorTestOutputLiteral()
    ensures "[" + "Internal Server Error" + "] " + "oh noes" == "[Internal Server Error] oh noes"
  {
  }

  lemma NotFoundTestOutput()
    ensures Message(HTTPErr(404, Text("oh noes"))) == "[Not Found] oh noes"
  {
    assert StatusText(404) == "Not Found";
    NotFoundTestOutputLiteral();
  }

  lemma NotFoundTestOutputLiteral()
    ensures "[" + "Not Found" + "] " + "oh noes" == "[Not Found] oh noes"
  {
  }

  lemma NotImplementedTestOutput()
    ensures Message(HTTPErr(501, Text("oh noes"))) == "[Not Implemented] oh noes"
  {
    assert StatusText(501) == "Not Implemented";
    NotImplementedTestOutputLiteral();
  }

  lemma NotImplementedTestOutputLiteral()
    ensures "[" + "Not Implemented" + "] " + "oh noes" == "[Not Implemented] oh noes"
  {
  }

  /** A code without a phrase leaves the error as it was. */
  lemma UnknownCodeUntagged(err: Error)
    ensures HTTPErr(299, err) == err && HTTPErr(600, err) == err
  {
  }

  /** The gateway reads "Not Found" and the original text back from a tagged 404. */
  lemma NotFoundTagReadsBack(err: Error)
    ensures ParseTag(Message(HTTPErr(404, err))) == Some(Tag("Not Found", Message(err)))
  {
    TagRoundTrip(404, err);
  }

  /** The demo handler: asserts its input is an event (a panic otherwise) and returns a
      record holding the "fooID" path parameter, "" when absent. */
  function FooHandler(v: Value): (reply: Reply)
    requires v.EventValue?
    ensures reply.err.None? && reply.result.Record?
    ensures "fooID" in v.event.path ==> reply.result.fields == map["id" := v.event.path["fooID"]]
    ensures "fooID" !in v.event.path ==> reply.result.fields == map["id" := ""]
  {
    var e := v.event;
    Reply(Record(map["id" := if "fooID" in e.path then e.path["fooID"] else ""]), None)
  }

  const BarArn := "arn:aws:lambda:us-west-2:1234567890:function:bar"

  /** The platform's acknowledgement of an "Event" invocation: status 202, no payload. */
  const Ack := InvokeOutput(None, None, None, None, Some(202))

  function AckTransport(input: InvokeInput): Response
  {
    Response(Ack, None)
  }

  /** An encoder that never fails; its bytes do not matter here. */
  function AnyEncoding(v: Value): Result<seq<byte>, string>
  {
    Ok([])
  }

  function BarLambda(): Lambda
  {
    Lambda(EventInput(BarArn, None))
  }

  function ExampleRouter(): Router
  {
    Router(Some(map[
      "GET:/foo/{fooID}" := FooHandler,
      "GET:/bar/{barID}" := AsHandler(BarLambda(), AckTransport, AnyEncoding)]))
  }

  const FooEvent := Event(map[], map["fooID" := "foo1"], map[], "GET:/foo/{fooID}")
  const BarEvent := Event(map[], map["barID" := "bar2"], map[], "GET:/bar/{barID}")

  /** The foo route reaches the demo handler, which sees the event's path parameter. */
  lemma FooRouteScenario()
    ensures Route(ExampleRouter(), FooEvent) == Reply(Record(map["id" := "foo1"]), None)
  {
    assert Lookup(ExampleRouter(), FooEvent.route) == Some(FooHandler);
  }

  /** The bar route reaches the Lambda invoker, which returns the bare acknowledgement. */
  lemma BarRouteScenario()
    ensures Route(ExampleRouter(), BarEvent) == Reply(Output(Ack), None)
  {
    var h := AsHandler(BarLambda(), AckTransport, AnyEncoding);
    assert Lookup(ExampleRouter(), BarEvent.route) == Some(h);
  }

  /** A transport that fails every call with the same error. */
  function FailingTransport(e: Error): Transport
  {
    (i: InvokeInput) => Response(Ack, Some(e))
  }

  /** A throttled invocation comes back as the TooManyRequestsException kind. */
  lemma ThrottledScenario()
    ensures Handle(BarLambda(), FailingTransport(Aws(CodeName(TooManyRequestsException), "Rate exceeded")),
                   AnyEncoding, EventValue(BarEvent)).err
         == Some(Classified(TooManyRequestsException, "Rate exceeded"))
  {
    ClassifyName(TooManyRequestsException);
  }

  /** A structured error with a code outside the list is returned as the same error. */
  lemma UnlistedCodeScenario()
    ensures Handle(BarLambda(), FailingTransport(Aws("ThrottlingException", "slow down")),
                   AnyEncoding, EventValue(BarEvent)).err
         == Some(Aws("ThrottlingException", "slow down"))
  {
    var code := "ThrottlingException";
    assert |code| == 19;
    assert forall k :: |CodeName(k)| != 19;
    assert !IsListed(code);
  }
}
