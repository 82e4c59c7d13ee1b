/** The typed errors the consensus-safety layer returns, and the ordered
    "first missing dependency wins" guard chain its constructors share. */
module Errors {
  import opened Wrappers

  /** The length-checked fields of a peer-authentication message. */
  datatype Property = PublicKeyProperty | SignatureProperty | PeerIdProperty | HardforkPayloadProperty

  datatype Error =
    // constructor argument checks
    | ErrNilPrivateKey
    | ErrNilPublicKey
    | ErrNilPubKeyConverter
    | ErrNilSingleSigner
    | ErrNilAccountsAdapter
    | ErrNilHasher
    | ErrNilMarshalizer
    | ErrNilProofTxDataExtractor
    | ErrNilRounder
    | ErrNilBlackListHandler
    | ErrNilValidatorChecker
    | ErrNilAuthenticationProcessor
    | ErrNilInterceptorThrottler
    | ErrNilPeerSignatureHandler
    | ErrNilBuffer
    // input validation
    | ErrNilHeader
    | ErrNilHash
    | ErrInvalidProof
    | ErrPropertyTooLong(property: Property)
    | ErrPropertyTooShort(property: Property)
    // admission control
    | ErrPeerAuthenticationForObservers
    /** An error built with `errors.New`, or returned by a collaborator. */
    | Custom(message: string)
    /** `fmt.Errorf("%w <context>", inner)`. */
    | Wrapped(inner: Error, context: string)

  /** Go's `errors.Is`: `e` is `target` or wraps it. */
  predicate Is(e: Error, target: Error)
    decreases e
  {
    e == target || (e.Wrapped? && Is(e.inner, target))
  }

  /** One guard of a constructor: whether it passes and what it reports if not. */
  datatype Check = Check(ok: bool, err: Error)

  /** Guard `i` is the first one that fails. */
  predicate FailsFirstAt(checks: seq<Check>, i: int) {
    && 0 <= i < |checks|
    && !checks[i].ok
    && forall j :: 0 <= j < i ==> checks[j].ok
  }

  /** Runs the guards in order and reports the error of the first that fails. */
  function FirstFailure(checks: seq<Check>): (r: Option<Error>)
    ensures r.None? <==> forall i :: 0 <= i < |checks| ==> checks[i].ok
    ensures forall i :: FailsFirstAt(checks, i) ==> r == Some(checks[i].err)
    decreases |checks|
  {
    if |checks| == 0 then None
    else if !checks[0].ok then Some(checks[0].err)
    else
      var rest := FirstFailure(checks[1..]);
      assert forall i :: FailsFirstAt(checks, i) ==> FailsFirstAt(checks[1..], i - 1);
      rest
  }
}
