/** `Connect`: derive the broker addresses, check the certificate of every
    broker, and only then build the consumer and the producer. */
module Startup {
  import opened Wrappers
  import opened Names
  import opened Brokers
  import opened CertCheck

  /** What the consumer-group client is built from. */
  datatype ConsumerSetup = ConsumerSetup(
    brokers: seq<string>,
    group: string,
    topics: seq<string>,
    clientId: string)

  /** What the asynchronous producer is built from. */
  datatype ProducerSetup = ProducerSetup(brokers: seq<string>, clientId: string)

  /** The client handle `Connect` fills in. */
  datatype Client = Client(producer: ProducerSetup, consumer: ConsumerSetup, config: Config)

  /** Why startup stopped the process. */
  datatype StartupError =
    | BadBrokerUrl(url: UrlError)
    | CertCheckFailed(index: nat, broker: string, err: CertError)
    | InvalidCertificate(index: nat, broker: string)

  /** `e` is the failure the verification loop reports at the first broker
      of `addrs` that does not pass: an error when the verdict carries one,
      otherwise an invalid certificate. */
  predicate IsFirstRejection(e: StartupError, addrs: seq<string>, verify: string -> Verdict)
  {
    match e
    case BadBrokerUrl(_) => false
    case CertCheckFailed(k, b, err) =>
      && k < |addrs| && b == addrs[k] && verify(b).1 == Some(err)
      && forall j :: 0 <= j < k ==> Passes(verify(addrs[j]))
    case InvalidCertificate(k, b) =>
      && k < |addrs| && b == addrs[k] && verify(b).1.None? && !verify(b).0
      && forall j :: 0 <= j < k ==> Passes(verify(addrs[j]))
  }

  /** The verification loop of `Connect` from broker `i` on: `None` when all
      remaining brokers pass, otherwise the failure at the first that does not. */
  function VerifyFrom(addrs: seq<string>, verify: string -> Verdict, i: nat): (r: Option<StartupError>)
    requires i <= |addrs|
    requires forall j :: 0 <= j < i ==> Passes(verify(addrs[j]))
    ensures r.None? <==> forall j :: 0 <= j < |addrs| ==> Passes(verify(addrs[j]))
    ensures r.Some? ==> IsFirstRejection(r.value, addrs, verify)
    decreases |addrs| - i
  {
    if i == |addrs| then None
    else
      var b := addrs[i];
      var (ok, err) := verify(b);
      if err.Some? then Some(CertCheckFailed(i, b, err.value))
      else if !ok then Some(InvalidCertificate(i, b))
      else VerifyFrom(addrs, verify, i + 1)
  }

  /** `Connect`. `hostOf` stands for `url.Parse`, `verify` for
      `verifyServerCert` with the TLS configuration and trusted bundle already
      bound, and the two stamps for the two readings of the clock taken when
      the consumer and the producer are configured. */
  function Connect(
    cfg: Config,
    hostOf: HostParser,
    verify: string -> Verdict,
    consumerStamp: string,
    producerStamp: string): (r: Result<Client, StartupError>)
    ensures r.Success? <==>
      && BrokerAddresses(cfg, hostOf).Success?
      && forall j :: 0 <= j < |BrokerAddresses(cfg, hostOf).value| ==>
           Passes(verify(BrokerAddresses(cfg, hostOf).value[j]))
    ensures BrokerAddresses(cfg, hostOf).Failure? ==>
      r == Failure(BadBrokerUrl(BrokerAddresses(cfg, hostOf).error))
    ensures r.Failure? && BrokerAddresses(cfg, hostOf).Success? ==>
      IsFirstRejection(r.error, BrokerAddresses(cfg, hostOf).value, verify)
    ensures r.Success? ==>
      && r.value.consumer.brokers == BrokerAddresses(cfg, hostOf).value
      && r.value.producer.brokers == BrokerAddresses(cfg, hostOf).value
      && r.value.consumer.group == Group(cfg)
      && r.value.consumer.topics == [Topic(cfg, OrderEventsTopic)]
      && r.value.consumer.clientId == cfg.consumerGroup + "-" + consumerStamp
      && r.value.producer.clientId == cfg.consumerGroup + "-" + producerStamp
      && r.value.config == cfg
  {
    match BrokerAddresses(cfg, hostOf)
    case Failure(e) => Failure(BadBrokerUrl(e))
    case Success(addrs) =>
      match VerifyFrom(addrs, verify, 0)
      case Some(e) => Failure(e)
      case None =>
        var consumer := ConsumerSetup(addrs, Group(cfg), [Topic(cfg, OrderEventsTopic)],
                                      ClientId(cfg.consumerGroup, consumerStamp));
        var producer := ProducerSetup(addrs, ClientId(cfg.consumerGroup, producerStamp));
        Success(Client(producer, consumer, cfg))
  }

  /** With an oracle that keeps `verifyServerCert`'s contract, as the real
      function does, startup never stops on the invalid-certificate branch:
      every rejection carries the error that caused it. */
  lemma WellBehavedNeverInvalid(
    cfg: Config,
    hostOf: HostParser,
    verify: string -> Verdict,
    consumerStamp: string,
    producerStamp: string)
    requires WellBehaved(verify)
    ensures !(Connect(cfg, hostOf, verify, consumerStamp, producerStamp).Failure? &&
              Connect(cfg, hostOf, verify, consumerStamp, producerStamp).error.InvalidCertificate?)
  {
  }

  /** After a successful startup the consumer and producer identifiers
      coincide exactly when the two clock readings do. */
  lemma ClientIdsAgree(
    cfg: Config,
    hostOf: HostParser,
    verify: string -> Verdict,
    consumerStamp: string,
    producerStamp: string)
    ensures var r := Connect(cfg, hostOf, verify, consumerStamp, producerStamp);
      r.Success? ==>
        (r.value.consumer.clientId == r.value.producer.clientId <==> consumerStamp == producerStamp)
  {
  }

  /** Startup with the modelled `VerifyServerCert` succeeds exactly when every
      broker's leaf certificate chains to the trusted roots (after a
      successful dial and root parse); no client exists otherwise. */
  lemma ConnectWithCertCheck<Cert, Pool>(
    cfg: Config,
    hostOf: HostParser,
    caCert: string,
    dial: string -> Result<Cert, string>,
    parseRoots: string -> Option<Pool>,
    chainOk: (Cert, Pool) -> Option<string>,
    consumerStamp: string,
    producerStamp: string)
    requires BrokerAddresses(cfg, hostOf).Success?
    ensures var verify := addr => VerifyServerCert(addr, caCert, dial, parseRoots, chainOk);
      var addrs := BrokerAddresses(cfg, hostOf).value;
      Connect(cfg, hostOf, verify, consumerStamp, producerStamp).Success? <==>
        forall j :: 0 <= j < |addrs| ==>
          && dial(addrs[j]).Success?
          && parseRoots(caCert).Some?
          && chainOk(dial(addrs[j]).value, parseRoots(caCert).value).None?
  {
  }
}
