/** The data the shim passes around: the gateway event, the SDK's invoke
    records, Go `error` values and the `interface{}` values handlers return. */
module Values {
  import opened Wrappers
  import opened LambdaCodes

  newtype byte = b: int | 0 <= b < 256

  /** A JSON-like value, as found in an event body. */
  datatype Json =
    | JNull
    | JBool(b: bool)
    | JNumber(n: int)
    | JString(s: string)
    | JArray(items: seq<Json>)
    | JObject(fields: map<string, Json>)

  /** One gateway event; `route` is the pre-resolved route key such as "GET:/foo/{fooID}". */
  datatype Event = Event(
    body: map<string, Json>,
    path: map<string, string>,
    querystring: map<string, string>,
    route: string)

  /** The fields of the SDK's `lambda.InvokeInput`; pointers and slices may be nil. */
  datatype InvokeInput = InvokeInput(
    clientContext: Option<string>,
    functionName: Option<string>,
    invocationType: Option<string>,
    logType: Option<string>,
    payload: Option<seq<byte>>,
    qualifier: Option<string>)

  /** The fields of the SDK's `lambda.InvokeOutput`. */
  datatype InvokeOutput = InvokeOutput(
    executedVersion: Option<string>,
    functionError: Option<string>,
    logResult: Option<string>,
    payload: Option<seq<byte>>,
    statusCode: Option<int>)

  /** A Go `error`, by the dynamic type that the shim inspects or creates. */
  datatype Error =
    /** Made here by `errors.New` or `fmt.Errorf`. */
    | Text(msg: string)
    /** An `awserr.Error` from the SDK: its `Code()` and its `Error()` text. */
    | Aws(code: string, text: string)
    /** Any other error, e.g. a network failure below the SDK. */
    | Unstructured(text: string)
    /** The error `invoke` builds for a listed code; `detail` is the SDK error's text. */
    | Classified(kind: LambdaErrorCode, detail: string)

  /** The text of a classified error: its code, a colon and the SDK error's text. */
  function ClassifiedText(k: LambdaErrorCode, detail: string): (s: string)
    ensures |s| == |CodeName(k)| + 2 + |detail|
    ensures s[..|CodeName(k)|] == CodeName(k) && s[|CodeName(k)|..|CodeName(k)| + 2] == ": "
    ensures s[|CodeName(k)| + 2..] == detail
  {
    CodeName(k) + ": " + detail
  }

  /** What `fmt.Errorf(code, aerr.Error())` actually renders: the code is used as the
      format string, which has no verbs, so the detail lands in an EXTRA artefact. */
  function ClassifiedTextAsWritten(k: LambdaErrorCode, detail: string): (s: string)
    ensures |s| == |CodeName(k)| + |detail| + 17
    ensures s[..|CodeName(k)|] == CodeName(k) && s[|s| - 1] == ')'
    ensures s[|CodeName(k)|..|CodeName(k)| + 16] == "%!(EXTRA string="
    ensures s[|CodeName(k)| + 16..|s| - 1] == detail
  {
    CodeName(k) + "%!(EXTRA string=" + detail + ")"
  }

  /** The as-written text never has the "<code>: " shape, whatever the detail. */
  lemma AsWrittenLacksSeparator(k: LambdaErrorCode, detail: string)
    ensures ClassifiedTextAsWritten(k, detail) != ClassifiedText(k, detail)
    ensures ClassifiedTextAsWritten(k, detail)[|CodeName(k)|] == '%'
  {
    var n := |CodeName(k)|;
    assert ClassifiedTextAsWritten(k, detail)[n] == '%';
    assert ClassifiedText(k, detail)[n] == ':';
  }

  /** `err.Error()`. A classified error is given its corrected text. */
  function Message(e: Error): (m: string)
    ensures e.Text? ==> m == e.msg
    ensures e.Aws? || e.Unstructured? ==> m == e.text
    ensures e.Classified? ==> |m| >= |CodeName(e.kind)| + |e.detail|
    ensures e.Classified? ==> m[..|CodeName(e.kind)|] == CodeName(e.kind)
    ensures e.Classified? ==> m[|m| - |e.detail|..] == e.detail
  {
    match e
    case Text(m) => m
    case Aws(_, t) => t
    case Unstructured(t) => t
    case Classified(k, d) => ClassifiedText(k, d)
  }

  /** A Go `interface{}` value as the shim produces or consumes it. */
  datatype Value =
    | Nil
    | Str(s: string)
    | EventValue(event: Event)
    | Output(output: InvokeOutput)
    /** A `*json.RawMessage` aliasing an output's payload. */
    | RawJson(raw: Option<seq<byte>>)
    /** A handler's own struct, by field name. */
    | Record(fields: map<string, string>)

  /** The `(interface{}, error)` pair every handler returns. */
  datatype Reply = Reply(result: Value, err: Option<Error>)
}
