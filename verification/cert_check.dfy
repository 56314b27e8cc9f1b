/** `verifyServerCert`: dial a broker, take the leaf certificate it presents
    and verify it against the trusted roots. Dialing, PEM parsing and chain
    verification are library and network calls, so each enters as a
    parameter; the model is the order in which they are tried and what is
    returned on each path. */
module CertCheck {
  import opened Wrappers

  /** The error `verifyServerCert` returns on each failing path. */
  datatype CertError =
    | DialFailed(reason: string)
    | TrustedCertUnparseable
    | ChainRejected(reason: string)

  /** What an oracle standing for `verifyServerCert` returns: the `ok` flag
      and the error, `None` meaning nil. */
  type Verdict = (bool, Option<CertError>)

  /** The check `Connect` applies to each verdict: no error and `ok`. */
  predicate Passes(v: Verdict)
  {
    v.1.None? && v.0
  }

  /** The code-level contract of `verifyServerCert`: `ok` exactly when no
      error is returned. */
  ghost predicate WellBehaved(verify: string -> Verdict)
  {
    forall addr :: verify(addr).0 <==> verify(addr).1.None?
  }

  /** One broker check. `dial` opens the TLS connection and yields the leaf
      certificate (`Failure` carries the dial error), `parseRoots` builds the
      root pool from the trusted PEM bundle, and `chainOk` verifies a
      certificate against a pool (`Some` carries the verification error). */
  function VerifyServerCert<Cert, Pool>(
    addr: string,
    caCert: string,
    dial: string -> Result<Cert, string>,
    parseRoots: string -> Option<Pool>,
    chainOk: (Cert, Pool) -> Option<string>): (v: Verdict)
    ensures v.0 <==> v.1.None?
    ensures v.0 <==>
      && dial(addr).Success?
      && parseRoots(caCert).Some?
      && chainOk(dial(addr).value, parseRoots(caCert).value).None?
    ensures dial(addr).Failure? ==> v.1 == Some(DialFailed(dial(addr).error))
    ensures dial(addr).Success? && parseRoots(caCert).None? ==> v.1 == Some(TrustedCertUnparseable)
    ensures dial(addr).Success? && parseRoots(caCert).Some?
              && chainOk(dial(addr).value, parseRoots(caCert).value).Some? ==>
      v.1 == Some(ChainRejected(chainOk(dial(addr).value, parseRoots(caCert).value).value))
  {
    match dial(addr)
    case Failure(e) => (false, Some(DialFailed(e)))
    case Success(leaf) =>
      match parseRoots(caCert)
      case None => (false, Some(TrustedCertUnparseable))
      case Some(roots) =>
        match chainOk(leaf, roots)
        case Some(e) => (false, Some(ChainRejected(e)))
        case None => (true, None)
  }

  /** Every instance of `VerifyServerCert` keeps its code-level contract, so
      it may stand for the oracle `Connect` is stated over. */
  lemma VerifyServerCertWellBehaved<Cert, Pool>(
    caCert: string,
    dial: string -> Result<Cert, string>,
    parseRoots: string -> Option<Pool>,
    chainOk: (Cert, Pool) -> Option<string>)
    ensures WellBehaved(addr => VerifyServerCert(addr, caCert, dial, parseRoots, chainOk))
  {
  }

  /** A broker whose leaf certificate does not chain to the trusted roots
      never passes, and one whose certificate does chain passes once the
      dial and the root bundle succeed. */
  lemma PassesExactlyWhenChainVerifies<Cert, Pool>(
    addr: string,
    caCert: string,
    dial: string -> Result<Cert, string>,
    parseRoots: string -> Option<Pool>,
    chainOk: (Cert, Pool) -> Option<string>)
    requires dial(addr).Success?
    requires parseRoots(caCert).Some?
    ensures Passes(VerifyServerCert(addr, caCert, dial, parseRoots, chainOk)) <==>
      chainOk(dial(addr).value, parseRoots(caCert).value).None?
  {
  }
}
