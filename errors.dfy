/** The service's closed error type and its HTTP error response. */
module Errors {
  import Chain

  datatype ApiError =
    | MoralisError
    | InvalidRequest
    | ContractError(deploy: Chain.DeployError)
    | MethodError(call: Chain.MethodError)
    | TransportError

  const CONTRACT_ERROR_PREFIX: string := "Locating deployed contract failed: "
  const METHOD_ERROR_PREFIX: string := "Contract method failed: "

  /** `s` starts with `prefix`. */
  predicate StartsWith(s: string, prefix: string)
  {
    |prefix| <= |s| && s[..|prefix|] == prefix
  }

  /**
   * `Display::fmt`: the human-readable message. Only a failed contract
   * lookup, and only a failed method call, carry their fixed prefix.
   */
  function Display(e: ApiError): (s: string)
    ensures StartsWith(s, CONTRACT_ERROR_PREFIX) <==> e.ContractError?
    ensures StartsWith(s, METHOD_ERROR_PREFIX) <==> e.MethodError?
  {
    match e
    case MoralisError =>
      var s := "Moralis API data fetch failed";
      assert s[0] != METHOD_ERROR_PREFIX[0] && s[0] != CONTRACT_ERROR_PREFIX[0];
      s
    case InvalidRequest => "Invalid request"
    case ContractError(d) =>
      var s := CONTRACT_ERROR_PREFIX + d.text;
      assert s[0] != METHOD_ERROR_PREFIX[0];
      s
    case MethodError(m) =>
      var s := METHOD_ERROR_PREFIX + m.text;
      assert s[0] != CONTRACT_ERROR_PREFIX[0];
      s
    case TransportError => "Create transport failed"
  }

  /** `ApiError::name`: the error label; "Unknown" is the label of the indexing-API failure alone. */
  function Name(e: ApiError): (s: string)
    ensures |s| > 0
    ensures s == "Unknown" <==> e.MoralisError?
  {
    match e
    case MoralisError => "Unknown"
    case InvalidRequest => "InvalidRequest"
    case ContractError(_) => "ContractError"
    case MethodError(_) => "MethodError"
    case TransportError => "TransportError"
  }

  /** `ResponseError::status_code`: a client error only for an invalid request. */
  function StatusCode(e: ApiError): (code: nat)
    ensures code == 400 <==> e.InvalidRequest?
    ensures code == 500 <==> !e.InvalidRequest?
  {
    match e
    case MoralisError => 500
    case InvalidRequest => 400
    case ContractError(_) => 500
    case MethodError(_) => 500
    case TransportError => 500
  }

  /** The JSON body of an error response. */
  datatype ErrorResponse = ErrorResponse(code: nat, error: string, message: string)

  /** `ResponseError::error_response`. */
  function ToErrorResponse(e: ApiError): (r: ErrorResponse)
    ensures r.code == StatusCode(e) && r.error == Name(e) && r.message == Display(e)
  {
    ErrorResponse(StatusCode(e), Name(e), Display(e))
  }

  /** `From<DeployError>`: a failed contract lookup. */
  function FromDeployError(d: Chain.DeployError): (e: ApiError)
    ensures e.ContractError? && e.deploy == d
  {
    ContractError(d)
  }

  /** `From<MethodError>`: a failed contract call. */
  function FromMethodError(m: Chain.MethodError): (e: ApiError)
    ensures e.MethodError? && e.call == m
  {
    MethodError(m)
  }

  predicate SameVariant(a: ApiError, b: ApiError)
  {
    match (a, b)
    case (MoralisError, MoralisError) => true
    case (InvalidRequest, InvalidRequest) => true
    case (ContractError(_), ContractError(_)) => true
    case (MethodError(_), MethodError(_)) => true
    case (TransportError, TransportError) => true
    case _ => false
  }

  /** Each variant has its own label. */
  lemma NameIdentifiesVariant(a: ApiError, b: ApiError)
    ensures Name(a) == Name(b) <==> SameVariant(a, b)
  {
  }

  /** The message names the variant and carries the wrapped error's text unchanged. */
  lemma DisplayIdentifiesError(a: ApiError, b: ApiError)
    ensures Display(a) == Display(b) <==> a == b
  {
    if Display(a) == Display(b) {
      var s := Display(a);
      assert s[0] == Display(b)[0];
      if a.ContractError? && b.ContractError? {
        var n := |CONTRACT_ERROR_PREFIX|;
        assert a.deploy.text == s[n..] == b.deploy.text;
      } else if a.MethodError? && b.MethodError? {
        var n := |METHOD_ERROR_PREFIX|;
        assert a.call.text == s[n..] == b.call.text;
      }
    }
  }

  /** Distinct errors give distinct error responses; the status is 400 or 500. */
  lemma ErrorResponseIdentifiesError(a: ApiError, b: ApiError)
    ensures ToErrorResponse(a) == ToErrorResponse(b) <==> a == b
    ensures ToErrorResponse(a).code in {400, 500}
  {
    DisplayIdentifiesError(a, b);
  }
}
