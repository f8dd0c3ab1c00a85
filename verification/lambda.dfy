/** The Lambda-invoking handlers: `invoke`'s error translation, `Lambda.Handle`
    (name check, payload fallback, invocation-type branch) and `SimpleLambda.Handle`.
    The SDK call and `json.Marshal` are passed in as functions. */
module Lambda {
  import opened Wrappers
  import opened LambdaCodes
  import opened Values

  /** What `svc.Invoke` gives back: the output record and a possible error. */
  datatype Response = Response(output: InvokeOutput, err: Option<Error>)

  /** The remote call, `svc.Invoke`, on a session the model does not see. */
  type Transport = InvokeInput -> Response

  /** `json.Marshal`: the encoding of a value, or the text of the encoder's error. */
  type Marshaller = Value -> Result<seq<byte>, string>

  /** `Lambda`: a full invoke descriptor, copied into every call. */
  datatype Lambda = Lambda(input: InvokeInput)

  /** `SimpleLambda`: just a function name; every call is an "Event" invocation. */
  datatype SimpleLambda = SimpleLambda(functionName: string)

  const NoFunctionNameMsg := "no lambda.InvokeInput.FunctionName given"
  const NoSimpleFunctionNameMsg := "no FunctionName given"

  /** The error both handlers return when the event cannot be encoded. */
  function MarshalFailure(cause: string): (e: Error)
    ensures e.Text? && |e.msg| >= 23 && e.msg[..23] == "evt failed to marshal: "
    ensures e.msg[23..] == cause
  {
    Text("evt failed to marshal: " + cause)
  }

  /** `invoke`'s treatment of the SDK error: an `awserr.Error` with one of the twenty
      listed codes becomes a new error of that kind; an unlisted code, an error that is
      not an `awserr.Error`, and no error at all pass through as they are. */
  function TranslateError(e: Option<Error>): (r: Option<Error>)
    ensures e.None? ==> r.None?
    ensures e.Some? && e.value.Aws? && IsListed(e.value.code) ==>
      r.Some? && r.value.Classified?
      && CodeName(r.value.kind) == e.value.code && r.value.detail == e.value.text
    ensures e.Some? && !(e.value.Aws? && IsListed(e.value.code)) ==> r == e
    ensures r.Some? && r.value.Classified? && r != e ==>
      e == Some(Aws(CodeName(r.value.kind), r.value.detail))
  {
    match e
    case None => None
    case Some(Aws(code, text)) =>
      (match Classify(code)
       case Some(k) => Some(Classified(k, text))
       case None => e)
    case Some(_) => e
  }

  /** `invoke`: one remote call; the SDK's output is returned as it came, with its
      error translated. */
  function Invoke(send: Transport, input: InvokeInput): (r: Response)
    ensures r.output == send(input).output
    ensures send(input).err.None? ==> r == send(input)
    ensures r.err == TranslateError(send(input).err)
  {
    var resp := send(input);
    Response(resp.output, TranslateError(resp.err))
  }

  /** The private copy of the descriptor that `Lambda.Handle` sends, or the error it
      returns before any remote call: the name must be set; a supplied payload is used
      as it is, otherwise the encoding of `evt` fills it. */
  function PrepareInput(l: Lambda, marshal: Marshaller, evt: Value): (r: Result<InvokeInput, Error>)
    ensures l.input.functionName.None? ==> r == Fail(Text(NoFunctionNameMsg))
    ensures r.Ok? ==> r.value.payload.Some? && r.value == l.input.(payload := r.value.payload)
    ensures l.input.functionName.Some? && l.input.payload.Some? ==> r == Ok(l.input)
    ensures l.input.functionName.Some? && l.input.payload.None? ==>
      match marshal(evt)
      case Ok(bytes) => r == Ok(l.input.(payload := Some(bytes)))
      case Fail(cause) => r == Fail(MarshalFailure(cause))
  {
    if l.input.functionName.None? then Fail(Text(NoFunctionNameMsg))
    else if l.input.payload.Some? then Ok(l.input)
    else match marshal(evt)
      case Fail(cause) => Fail(MarshalFailure(cause))
      case Ok(bytes) => Ok(l.input.(payload := Some(bytes)))
  }

  /** The remote calls `Lambda.Handle` makes, in order: none when the checks fail,
      otherwise the prepared copy, once. */
  function Calls(l: Lambda, marshal: Marshaller, evt: Value): (calls: seq<InvokeInput>)
    ensures PrepareInput(l, marshal, evt).Fail? ==> calls == []
    ensures PrepareInput(l, marshal, evt).Ok? ==> calls == [PrepareInput(l, marshal, evt).value]
  {
    match PrepareInput(l, marshal, evt)
    case Fail(_) => []
    case Ok(input) => [input]
  }

  /** `Lambda.Handle`. A failed check gives the empty string and the error. Otherwise
      the one call listed by `Calls` is sent; with an invocation type set the SDK output
      and the translated error are returned, without one the output's payload as raw
      JSON. */
  function Handle(l: Lambda, send: Transport, marshal: Marshaller, evt: Value): (reply: Reply)
    ensures PrepareInput(l, marshal, evt).Fail? ==>
      reply == Reply(Str(""), Some(PrepareInput(l, marshal, evt).error))
    ensures PrepareInput(l, marshal, evt).Ok? ==>
      var input := PrepareInput(l, marshal, evt).value;
      var resp := Invoke(send, input);
      && reply.err == resp.err
      && (l.input.invocationType.Some? ==> reply.result == Output(resp.output))
      && (l.input.invocationType.None? ==> reply.result == RawJson(resp.output.payload))
  {
    var calls := Calls(l, marshal, evt);
    if calls == [] then Reply(Str(""), Some(PrepareInput(l, marshal, evt).error))
    else
      var resp := Invoke(send, calls[0]);
      if calls[0].invocationType.Some? then Reply(Output(resp.output), resp.err)
      else Reply(RawJson(resp.output.payload), resp.err)
  }

  /** The descriptor `SimpleLambda.Handle` builds: the name, "Event" mode and the payload. */
  function EventInput(name: string, payload: Option<seq<byte>>): (input: InvokeInput)
    ensures input.functionName == Some(name) && input.invocationType == Some("Event")
    ensures input.payload == payload
    ensures input.clientContext.None? && input.logType.None? && input.qualifier.None?
  {
    InvokeInput(None, Some(name), Some("Event"), None, payload, None)
  }

  /** The remote calls `SimpleLambda.Handle` makes: none for the empty name or an
      event that does not encode, otherwise the "Event" descriptor, once. */
  function SimpleCalls(s: SimpleLambda, marshal: Marshaller, evt: Value): (calls: seq<InvokeInput>)
    ensures s.functionName == "" || marshal(evt).Fail? ==> calls == []
    ensures s.functionName != "" && marshal(evt).Ok? ==>
      calls == [EventInput(s.functionName, Some(marshal(evt).value))]
  {
    if s.functionName == "" then []
    else match marshal(evt)
      case Fail(_) => []
      case Ok(payload) => [EventInput(s.functionName, Some(payload))]
  }

  /** `SimpleLambda.Handle`: rejects the empty name, always encodes `evt`, and returns
      what `invoke` gives for the one call listed by `SimpleCalls`. */
  function SimpleHandle(s: SimpleLambda, send: Transport, marshal: Marshaller, evt: Value): (reply: Reply)
    ensures s.functionName == "" ==> reply == Reply(Str(""), Some(Text(NoSimpleFunctionNameMsg)))
    ensures s.functionName != "" && marshal(evt).Fail? ==>
      reply == Reply(Str(""), Some(MarshalFailure(marshal(evt).error)))
    ensures s.functionName != "" && marshal(evt).Ok? ==>
      var resp := Invoke(send, EventInput(s.functionName, Some(marshal(evt).value)));
      reply == Reply(Output(resp.output), resp.err)
  {
    var calls := SimpleCalls(s, marshal, evt);
    if s.functionName == "" then Reply(Str(""), Some(Text(NoSimpleFunctionNameMsg)))
    else if calls == [] then Reply(Str(""), Some(MarshalFailure(marshal(evt).error)))
    else
      var resp := Invoke(send, calls[0]);
      Reply(Output(resp.output), resp.err)
  }

  /** The two handlers as values of the `Handler` capability. */
  function AsHandler(l: Lambda, send: Transport, marshal: Marshaller): (h: Value -> Reply)
    ensures forall v :: h(v) == Handle(l, send, marshal, v)
  {
    v => Handle(l, send, marshal, v)
  }

  function SimpleAsHandler(s: SimpleLambda, send: Transport, marshal: Marshaller): (h: Value -> Reply)
    ensures forall v :: h(v) == SimpleHandle(s, send, marshal, v)
  {
    v => SimpleHandle(s, send, marshal, v)
  }

  /** `Lambda.Handle` sees the transport only through the calls `Calls` lists: two
      transports that answer those calls alike give the same reply, and at most one
      call is listed. */
  lemma HandleUsesOnlyListedCalls(l: Lambda, send1: Transport, send2: Transport,
                                  marshal: Marshaller, evt: Value)
    requires forall i :: 0 <= i < |Calls(l, marshal, evt)| ==>
      send1(Calls(l, marshal, evt)[i]) == send2(Calls(l, marshal, evt)[i])
    ensures |Calls(l, marshal, evt)| <= 1
    ensures Handle(l, send1, marshal, evt) == Handle(l, send2, marshal, evt)
  {
  }

  /** The same for `SimpleLambda.Handle` and `SimpleCalls`. */
  lemma SimpleHandleUsesOnlyListedCalls(s: SimpleLambda, send1: Transport, send2: Transport,
                                        marshal: Marshaller, evt: Value)
    requires forall i :: 0 <= i < |SimpleCalls(s, marshal, evt)| ==>
      send1(SimpleCalls(s, marshal, evt)[i]) == send2(SimpleCalls(s, marshal, evt)[i])
    ensures |SimpleCalls(s, marshal, evt)| <= 1
    ensures SimpleHandle(s, send1, marshal, evt) == SimpleHandle(s, send2, marshal, evt)
  {
  }

  /** Without a function name the reply depends on neither the transport nor the
      encoder: `Calls` lists no remote call. */
  lemma MissingNameMakesNoCall(l: Lambda, send1: Transport, send2: Transport,
                               m1: Marshaller, m2: Marshaller, evt: Value)
    requires l.input.functionName.None?
    ensures Calls(l, m1, evt) == [] && Calls(l, m2, evt) == []
    ensures Handle(l, send1, m1, evt) == Handle(l, send2, m2, evt)
    ensures Handle(l, send1, m1, evt) == Reply(Str(""), Some(Text(NoFunctionNameMsg)))
  {
  }

  /** A failed encoding is reported before any remote call: `Calls` is empty and the
      reply is the same whatever the transport. */
  lemma MarshalFailureMakesNoCall(l: Lambda, send1: Transport, send2: Transport,
                                  marshal: Marshaller, evt: Value)
    requires l.input.functionName.Some? && l.input.payload.None? && marshal(evt).Fail?
    ensures Calls(l, marshal, evt) == []
    ensures Handle(l, send1, marshal, evt) == Handle(l, send2, marshal, evt)
    ensures Handle(l, send1, marshal, evt).err == Some(MarshalFailure(marshal(evt).error))
  {
  }

  /** A supplied payload wins: neither the encoder nor the event affects the call. */
  lemma SuppliedPayloadWins(l: Lambda, send: Transport, m1: Marshaller, m2: Marshaller,
                            e1: Value, e2: Value)
    requires l.input.functionName.Some? && l.input.payload.Some?
    ensures Handle(l, send, m1, e1) == Handle(l, send, m2, e2)
  {
  }

  /** The same descriptor serves successive events without carrying one event's payload
      into the next: each call with no supplied payload sends the encoding of its own event. */
  lemma NoPayloadLeaksBetweenCalls(l: Lambda, marshal: Marshaller, e1: Value, e2: Value)
    requires l.input.functionName.Some? && l.input.payload.None?
    requires marshal(e1).Ok? && marshal(e2).Ok?
    ensures PrepareInput(l, marshal, e1).value.payload == Some(marshal(e1).value)
    ensures PrepareInput(l, marshal, e2).value.payload == Some(marshal(e2).value)
    ensures PrepareInput(l, marshal, e2).value.(payload := None) == l.input
  {
  }

  /** A named `SimpleLambda` behaves as a `Lambda` whose descriptor holds only that name
      and the "Event" invocation type. */
  lemma SimpleIsEventLambda(s: SimpleLambda, send: Transport, marshal: Marshaller, evt: Value)
    requires s.functionName != ""
    ensures SimpleHandle(s, send, marshal, evt)
         == Handle(Lambda(EventInput(s.functionName, None)), send, marshal, evt)
  {
  }

  /** The empty name is where the two differ: `SimpleLambda` refuses it before any call,
      while a `Lambda` holding a pointer to "" passes its nil check and calls out. */
  lemma EmptyNameOnlySimpleRefuses(send: Transport, marshal: Marshaller, evt: Value)
    requires marshal(evt).Ok?
    ensures SimpleHandle(SimpleLambda(""), send, marshal, evt).result == Str("")
    ensures Handle(Lambda(EventInput("", None)), send, marshal, evt).result.Output?
  {
  }
}
