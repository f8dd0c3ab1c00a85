/** The closed set of AWS Lambda error codes that `invoke` re-wraps, and a
    data-driven lookup from the code string the SDK reports to the kind. */
module LambdaCodes {
  import opened Wrappers

  /** One constructor per `lambda.ErrCode…` constant switched on by `invoke`. */
  datatype LambdaErrorCode =
    | ServiceException
    | ResourceNotFoundException
    | InvalidRequestContentException
    | RequestTooLargeException
    | UnsupportedMediaTypeException
    | TooManyRequestsException
    | InvalidParameterValueException
    | EC2UnexpectedException
    | SubnetIPAddressLimitReachedException
    | ENILimitReachedException
    | EC2ThrottledException
    | EC2AccessDeniedException
    | InvalidSubnetIDException
    | InvalidSecurityGroupIDException
    | InvalidZipFileException
    | KMSDisabledException
    | KMSInvalidStateException
    | KMSAccessDeniedException
    | KMSNotFoundException
    | InvalidRuntimeException

  /** The string value of the SDK constant (each equals its own name). */
  function CodeName(k: LambdaErrorCode): (name: string)
    ensures |name| == NameLength(k)
  {
    match k
    case ServiceException => "ServiceException"
    case ResourceNotFoundException => "ResourceNotFoundException"
    case InvalidRequestContentException => "InvalidRequestContentException"
    case RequestTooLargeException => "RequestTooLargeException"
    case UnsupportedMediaTypeException => "UnsupportedMediaTypeException"
    case TooManyRequestsException => "TooManyRequestsException"
    case InvalidParameterValueException => "InvalidParameterValueException"
    case EC2UnexpectedException => "EC2UnexpectedException"
    case SubnetIPAddressLimitReachedException => "SubnetIPAddressLimitReachedException"
    case ENILimitReachedException => "ENILimitReachedException"
    case EC2ThrottledException => "EC2ThrottledException"
    case EC2AccessDeniedException => "EC2AccessDeniedException"
    case InvalidSubnetIDException => "InvalidSubnetIDException"
    case InvalidSecurityGroupIDException => "InvalidSecurityGroupIDException"
    case InvalidZipFileException => "InvalidZipFileException"
    case KMSDisabledException => "KMSDisabledException"
    case KMSInvalidStateException => "KMSInvalidStateException"
    case KMSAccessDeniedException => "KMSAccessDeniedException"
    case KMSNotFoundException => "KMSNotFoundException"
    case InvalidRuntimeException => "InvalidRuntimeException"
  }

  /** The switch's cases, in the order `invoke` lists them. */
  const AllCodes: seq<LambdaErrorCode> := [
    ServiceException, ResourceNotFoundException, InvalidRequestContentException,
    RequestTooLargeException, UnsupportedMediaTypeException, TooManyRequestsException,
    InvalidParameterValueException, EC2UnexpectedException,
    SubnetIPAddressLimitReachedException, ENILimitReachedException, EC2ThrottledException,
    EC2AccessDeniedException, InvalidSubnetIDException, InvalidSecurityGroupIDException,
    InvalidZipFileException, KMSDisabledException, KMSInvalidStateException,
    KMSAccessDeniedException, KMSNotFoundException, InvalidRuntimeException
  ]

  /** True when `code` is the name of one of the listed kinds. */
  ghost predicate IsListed(code: string)
  {
    exists k :: CodeName(k) == code
  }

  /** Scans `table` for the first kind whose name is `code`. */
  function FindCode(table: seq<LambdaErrorCode>, code: string): (r: Option<LambdaErrorCode>)
    ensures r.Some? ==> r.value in table && CodeName(r.value) == code
    ensures r.None? ==> forall i :: 0 <= i < |table| ==> CodeName(table[i]) != code
  {
    if |table| == 0 then None
    else if CodeName(table[0]) == code then Some(table[0])
    else FindCode(table[1..], code)
  }

  /** The position of a kind in `AllCodes`. */
  function CodeIndex(k: LambdaErrorCode): (i: nat)
    ensures i < |AllCodes| && AllCodes[i] == k
  {
    match k
    case ServiceException => 0
    case ResourceNotFoundException => 1
    case InvalidRequestContentException => 2
    case RequestTooLargeException => 3
    case UnsupportedMediaTypeException => 4
    case TooManyRequestsException => 5
    case InvalidParameterValueException => 6
    case EC2UnexpectedException => 7
    case SubnetIPAddressLimitReachedException => 8
    case ENILimitReachedException => 9
    case EC2ThrottledException => 10
    case EC2AccessDeniedException => 11
    case InvalidSubnetIDException => 12
    case InvalidSecurityGroupIDException => 13
    case InvalidZipFileException => 14
    case KMSDisabledException => 15
    case KMSInvalidStateException => 16
    case KMSAccessDeniedException => 17
    case KMSNotFoundException => 18
    case InvalidRuntimeException => 19
  }

  /** The table lookup finds every listed name. */
  lemma ListedIsFound(code: string)
    ensures IsListed(code) ==> FindCode(AllCodes, code).Some?
  {
    if IsListed(code) {
      var k :| CodeName(k) == code;
      var i := CodeIndex(k);
      assert CodeName(AllCodes[i]) == code;
    }
  }

  /** The kind a structured error code belongs to, if it is listed. */
  function Classify(code: string): (r: Option<LambdaErrorCode>)
    ensures r.Some? ==> CodeName(r.value) == code
    ensures r.Some? <==> IsListed(code)
  {
    ListedIsFound(code);
    FindCode(AllCodes, code)
  }

  /** The length of each name; most names differ in length alone. */
  function NameLength(k: LambdaErrorCode): nat
  {
    match k
    case ServiceException => 16
    case ResourceNotFoundException => 25
    case InvalidRequestContentException => 30
    case RequestTooLargeException => 24
    case UnsupportedMediaTypeException => 29
    case TooManyRequestsException => 24
    case InvalidParameterValueException => 30
    case EC2UnexpectedException => 22
    case SubnetIPAddressLimitReachedException => 36
    case ENILimitReachedException => 24
    case EC2ThrottledException => 21
    case EC2AccessDeniedException => 24
    case InvalidSubnetIDException => 24
    case InvalidSecurityGroupIDException => 31
    case InvalidZipFileException => 23
    case KMSDisabledException => 20
    case KMSInvalidStateException => 24
    case KMSAccessDeniedException => 24
    case KMSNotFoundException => 20
    case InvalidRuntimeException => 23
  }

  /** Distinct kinds have distinct names, so a name determines its kind. */
  lemma CodeNameInjective(a: LambdaErrorCode, b: LambdaErrorCode)
    ensures CodeName(a) == CodeName(b) ==> a == b
  {
  }

  /** Classifying a kind's own name gives back that kind. */
  lemma ClassifyName(k: LambdaErrorCode)
    ensures Classify(CodeName(k)) == Some(k)
  {
    var r := Classify(CodeName(k));
    assert r.Some?;
    CodeNameInjective(r.value, k);
  }
}
