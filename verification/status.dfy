/** `HTTPErr`: tags an error with the reason phrase of an HTTP status code, in the
    "[<phrase>] <message>" shape the gateway matches on to pick the response status. */
module Status {
  import opened Wrappers
  import opened Values

  /** The reason phrases of Go's `net/http.StatusText`; "" for a code without one. */
  function StatusText(code: int): string
  {
    if 100 <= code < 200 then Informational(code)
    else if 200 <= code < 300 then Successful(code)
    else if 300 <= code < 400 then Redirection(code)
    else if 400 <= code < 500 then ClientError(code)
    else if 500 <= code < 600 then ServerError(code)
    else ""
  }

  /** Go's phrases for the 1xx codes. */
  function Informational(code: int): string
  {
    match code
    case 100 => "Continue"
    case 101 => "Switching Protocols"
    case 102 => "Processing"
    case 103 => "Early Hints"
    case _ => ""
  }

  /** Go's phrases for the 2xx codes. */
  function Successful(code: int): string
  {
    match code
    case 200 => "OK"
    case 201 => "Created"
    case 202 => "Accepted"
    case 203 => "Non-Authoritative Information"
    case 204 => "No Content"
    case 205 => "Reset Content"
    case 206 => "Partial Content"
    case 207 => "Multi-Status"
    case 208 => "Already Reported"
    case 226 => "IM Used"
    case _ => ""
  }

  /** Go's phrases for the 3xx codes. */
  function Redirection(code: int): string
  {
    match code
    case 300 => "Multiple Choices"
    case 301 => "Moved Permanently"
    case 302 => "Found"
    case 303 => "See Other"
    case 304 => "Not Modified"
    case 305 => "Use Proxy"
    case 307 => "Temporary Redirect"
    case 308 => "Permanent Redirect"
    case _ => ""
  }

  /** Go's phrases for the 4xx codes. */
  function ClientError(code: int): string
  {
    match code
    case 400 => "Bad Request"
    case 401 => "Unauthorized"
    case 402 => "Payment Required"
    case 403 => "Forbidden"
    case 404 => "Not Found"
    case 405 => "Method Not Allowed"
    case 406 => "Not Acceptable"
    case 407 => "Proxy Authentication Required"
    case 408 => "Request Timeout"
    case 409 => "Conflict"
    case 410 => "Gone"
    case 411 => "Length Required"
    case 412 => "Precondition Failed"
    case 413 => "Request Entity Too Large"
    case 414 => "Request URI Too Long"
    case 415 => "Unsupported Media Type"
    case 416 => "Requested Range Not Satisfiable"
    case 417 => "Expectation Failed"
    case 418 => "I'm a teapot"
    case 421 => "Misdirected Request"
    case 422 => "Unprocessable Entity"
    case 423 => "Locked"
    case 424 => "Failed Dependency"
    case 425 => "Too Early"
    case 426 => "Upgrade Required"
    case 428 => "Precondition Required"
    case 429 => "Too Many Requests"
    case 431 => "Request Header Fields Too Large"
    case 451 => "Unavailable For Legal Reasons"
    case _ => ""
  }

  /** Go's phrases for the 5xx codes. */
  function ServerError(code: int): string
  {
    match code
    case 500 => "Internal Server Error"
    case 501 => "Not Implemented"
    case 502 => "Bad Gateway"
    case 503 => "Service Unavailable"
    case 504 => "Gateway Timeout"
    case 505 => "HTTP Version Not Supported"
    case 506 => "Variant Also Negotiates"
    case 507 => "Insufficient Storage"
    case 508 => "Loop Detected"
    case 510 => "Not Extended"
    case 511 => "Network Authentication Required"
    case _ => ""
  }

  /** Tags `err` with the phrase of `code`, or returns `err` itself when the code has none.
      Total: every code and error give an error back. */
  function HTTPErr(code: int, err: Error): (r: Error)
    ensures StatusText(code) == "" ==> r == err
    ensures StatusText(code) != "" ==>
      r.Text? && Message(r) == "[" + StatusText(code) + "] " + Message(err)
    ensures StatusText(code) != "" ==>
      |Message(r)| > |Message(err)| && Message(r)[0] == '['
      && Message(r)[|Message(r)| - |Message(err)|..] == Message(err)
  {
    var txt := StatusText(code);
    if txt != "" then Text("[" + txt + "] " + Message(err)) else err
  }

  /** A tag read back from a message: the bracketed phrase and the text after it. */
  datatype Tag = Tag(phrase: string, rest: string)

  /** The index of the first ']' in `s`, if there is one. */
  function CloseAt(s: string): (r: Option<nat>)
    ensures r.Some? ==> r.value < |s| && s[r.value] == ']'
    ensures r.Some? ==> forall j :: 0 <= j < r.value ==> s[j] != ']'
    ensures r.None? ==> forall j :: 0 <= j < |s| ==> s[j] != ']'
  {
    if |s| == 0 then None
    else if s[0] == ']' then Some(0)
    else match CloseAt(s[1..])
      case None => None
      case Some(i) => Some(i + 1)
  }

  /** How a reader of the gateway's error text splits "[<phrase>] <message>":
      the phrase runs up to the first ']', which must be followed by a space. */
  function ParseTag(msg: string): (r: Option<Tag>)
    ensures r.Some? ==> msg == "[" + r.value.phrase + "] " + r.value.rest
    ensures r.Some? ==> ']' !in r.value.phrase
  {
    if |msg| == 0 || msg[0] != '[' then None
    else match CloseAt(msg[1..])
      case None => None
      case Some(i) =>
        if i + 2 < |msg| && msg[i + 2] == ' '
        then
          assert msg == "[" + msg[1..i + 1] + "] " + msg[i + 3..];
          Some(Tag(msg[1..i + 1], msg[i + 3..]))
        else None
  }

  /** No reason phrase contains a ']': one lemma per phrase, gathered per class.
      Each literal is checked in a lemma of its own because one proof over many
      string literals unfolds them all at once and exceeds the solver's resource
      limit; a single literal is cheap. */
  lemma NoClose100()
    ensures ']' !in "Continue"
  {
  }

  lemma NoClose101()
    ensures ']' !in "Switching Protocols"
  {
  }

  lemma NoClose102()
    ensures ']' !in "Processing"
  {
  }

  lemma NoClose103()
    ensures ']' !in "Early Hints"
  {
  }

  lemma NoClose200()
    ensures ']' !in "OK"
  {
  }

  lemma NoClose201()
    ensures ']' !in "Created"
  {
  }

  lemma NoClose202()
    ensures ']' !in "Accepted"
  {
  }

  lemma NoClose203()
    ensures ']' !in "Non-Authoritative Information"
  {
  }

  lemma NoClose204()
    ensures ']' !in "No Content"
  {
  }

  lemma NoClose205()
    ensures ']' !in "Reset Content"
  {
  }

  lemma NoClose206()
    ensures ']' !in "Partial Content"
  {
  }

  lemma NoClose207()
    ensures ']' !in "Multi-Status"
  {
  }

  lemma NoClose208()
    ensures ']' !in "Already Reported"
  {
  }

  lemma NoClose226()
    ensures ']' !in "IM Used"
  {
  }

  lemma NoClose300()
    ensures ']' !in "Multiple Choices"
  {
  }

  lemma NoClose301()
    ensures ']' !in "Moved Permanently"
  {
  }

  lemma NoClose302()
    ensures ']' !in "Found"
  {
  }

  lemma NoClose303()
    ensures ']' !in "See Other"
  {
  }

  lemma NoClose304()
    ensures ']' !in "Not Modified"
  {
  }

  lemma NoClose305()
    ensures ']' !in "Use Proxy"
  {
  }

  lemma NoClose307()
    ensures ']' !in "Temporary Redirect"
  {
  }

  lemma NoClose308()
    ensures ']' !in "Permanent Redirect"
  {
  }

  lemma NoClose400()
    ensures ']' !in "Bad Request"
  {
  }

  lemma NoClose401()
    ensures ']' !in "Unauthorized"
  {
  }

  lemma NoClose402()
    ensures ']' !in "Payment Required"
  {
  }

  lemma NoClose403()
    ensures ']' !in "Forbidden"
  {
  }

  lemma NoClose404()
    ensures ']' !in "Not Found"
  {
  }

  lemma NoClose405()
    ensures ']' !in "Method Not Allowed"
  {
  }

  lemma NoClose406()
    ensures ']' !in "Not Acceptable"
  {
  }

  lemma NoClose407()
    ensures ']' !in "Proxy Authentication Required"
  {
  }

  lemma NoClose408()
    ensures ']' !in "Request Timeout"
  {
  }

  lemma NoClose409()
    ensures ']' !in "Conflict"
  {
  }

  lemma NoClose410()
    ensures ']' !in "Gone"
  {
  }

  lemma NoClose411()
    ensures ']' !in "Length Required"
  {
  }

  lemma NoClose412()
    ensures ']' !in "Precondition Failed"
  {
  }

  lemma NoClose413()
    ensures ']' !in "Request Entity Too Large"
  {
  }

  lemma NoClose414()
    ensures ']' !in "Request URI Too Long"
  {
  }

  lemma NoClose415()
    ensures ']' !in "Unsupported Media Type"
  {
  }

  lemma NoClose416()
    ensures ']' !in "Requested Range Not Satisfiable"
  {
  }

  lemma NoClose417()
    ensures ']' !in "Expectation Failed"
  {
  }

  lemma NoClose418()
    ensures ']' !in "I'm a teapot"
  {
  }

  lemma NoClose421()
    ensures ']' !in "Misdirected Request"
  {
  }

  lemma NoClose422()
    ensures ']' !in "Unprocessable Entity"
  {
  }

  lemma NoClose423()
    ensures ']' !in "Locked"
  {
  }

  lemma NoClose424()
    ensures ']' !in "Failed Dependency"
  {
  }

  lemma NoClose425()
    ensures ']' !in "Too Early"
  {
  }

  lemma NoClose426()
    ensures ']' !in "Upgrade Required"
  {
  }

  lemma NoClose428()
    ensures ']' !in "Precondition Required"
  {
  }

  lemma NoClose429()
    ensures ']' !in "Too Many Requests"
  {
  }

  lemma NoClose431()
    ensures ']' !in "Request Header Fields Too Large"
  {
  }

  lemma NoClose451()
    ensures ']' !in "Unavailable For Legal Reasons"
  {
  }

  lemma NoClose500()
    ensures ']' !in "Internal Server Error"
  {
  }

  lemma NoClose501()
    ensures ']' !in "Not Implemented"
  {
  }

  lemma NoClose502()
    ensures ']' !in "Bad Gateway"
  {
  }

  lemma NoClose503()
    ensures ']' !in "Service Unavailable"
  {
  }

  lemma NoClose504()
    ensures ']' !in "Gateway Timeout"
  {
  }

  lemma NoClose505()
    ensures ']' !in "HTTP Version Not Supported"
  {
  }

  lemma NoClose506()
    ensures ']' !in "Variant Also Negotiates"
  {
  }

  lemma NoClose507()
    ensures ']' !in "Insufficient Storage"
  {
  }

  lemma NoClose508()
    ensures ']' !in "Loop Detected"
  {
  }

  lemma NoClose510()
    ensures ']' !in "Not Extended"
  {
  }

  lemma NoClose511()
    ensures ']' !in "Network Authentication Required"
  {
  }

  lemma InformationalHasNoBracket(code: int)
    ensures ']' !in Informational(code)
  {
    match code
    case 100 => NoClose100();
    case 101 => NoClose101();
    case 102 => NoClose102();
    case 103 => NoClose103();
    case _ =>
  }

  lemma SuccessfulHasNoBracket(code: int)
    ensures ']' !in Successful(code)
  {
    match code
    case 200 => NoClose200();
    case 201 => NoClose201();
    case 202 => NoClose202();
    case 203 => NoClose203();
    case 204 => NoClose204();
    case 205 => NoClose205();
    case 206 => NoClose206();
    case 207 => NoClose207();
    case 208 => NoClose208();
    case 226 => NoClose226();
    case _ =>
  }

  lemma RedirectionHasNoBracket(code: int)
    ensures ']' !in Redirection(code)
  {
    match code
    case 300 => NoClose300();
    case 301 => NoClose301();
    case 302 => NoClose302();
    case 303 => NoClose303();
    case 304 => NoClose304();
    case 305 => NoClose305();
    case 307 => NoClose307();
    case 308 => NoClose308();
    case _ =>
  }

  lemma ClientErrorHasNoBracket(code: int)
    ensures ']' !in ClientError(code)
  {
    match code
    case 400 => NoClose400();
    case 401 => NoClose401();
    case 402 => NoClose402();
    case 403 => NoClose403();
    case 404 => NoClose404();
    case 405 => NoClose405();
    case 406 => NoClose406();
    case 407 => NoClose407();
    case 408 => NoClose408();
    case 409 => NoClose409();
    case 410 => NoClose410();
    case 411 => NoClose411();
    case 412 => NoClose412();
    case 413 => NoClose413();
    case 414 => NoClose414();
    case 415 => NoClose415();
    case 416 => NoClose416();
    case 417 => NoClose417();
    case 418 => NoClose418();
    case 421 => NoClose421();
    case 422 => NoClose422();
    case 423 => NoClose423();
    case 424 => NoClose424();
    case 425 => NoClose425();
    case 426 => NoClose426();
    case 428 => NoClose428();
    case 429 => NoClose429();
    case 431 => NoClose431();
    case 451 => NoClose451();
    case _ =>
  }

  lemma ServerErrorHasNoBracket(code: int)
    ensures ']' !in ServerError(code)
  {
    match code
    case 500 => NoClose500();
    case 501 => NoClose501();
    case 502 => NoClose502();
    case 503 => NoClose503();
    case 504 => NoClose504();
    case 505 => NoClose505();
    case 506 => NoClose506();
    case 507 => NoClose507();
    case 508 => NoClose508();
    case 510 => NoClose510();
    case 511 => NoClose511();
    case _ =>
  }

  lemma PhraseHasNoBracket(code: int)
    ensures ']' !in StatusText(code)
  {
    InformationalHasNoBracket(code);
    SuccessfulHasNoBracket(code);
    RedirectionHasNoBracket(code);
    ClientErrorHasNoBracket(code);
    ServerErrorHasNoBracket(code);
  }

  /** The first ']' of "p] m" is the one after `p` when `p` has none. */
  lemma {:induction false} CloseAfterPhrase(p: string, m: string)
    requires ']' !in p
    ensures CloseAt(p + "] " + m) == Some(|p|)
  {
    if |p| > 0 {
      CloseAfterPhrase(p[1..], m);
      assert (p + "] " + m)[1..] == p[1..] + "] " + m;
    }
  }

  /** Reading a tagged error's message gives back the phrase of its code and the
      original message, so the gateway recovers both. */
  lemma TagRoundTrip(code: int, err: Error)
    requires StatusText(code) != ""
    ensures ParseTag(Message(HTTPErr(code, err))) == Some(Tag(StatusText(code), Message(err)))
  {
    var p, m := StatusText(code), Message(err);
    PhraseHasNoBracket(code);
    var s := "[" + p + "] " + m;
    assert s[1..] == p + "] " + m;
    CloseAfterPhrase(p, m);
    assert s[1..|p| + 1] == p;
    assert s[|p| + 3..] == m;
  }
}
