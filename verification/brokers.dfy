/** Extraction of the broker `host:port` addresses from the comma-separated
    broker URL list. */
module Brokers {
  import opened Wrappers
  import opened GoStrings
  import opened Names

  /** `url.Parse(v)` followed by reading `Host`: `None` stands for a non-nil
      parse error. The parser itself lives in the standard library, so the
      address extraction is stated for every such function. */
  type HostParser = string -> Option<string>

  /** The first piece of the URL list that did not parse, and where it was. */
  datatype UrlError = UrlError(index: nat, piece: string)

  /** Parses the pieces in order and keeps their hosts; stops at the first
      piece that fails to parse. */
  function ParseHosts(pieces: seq<string>, hostOf: HostParser): (r: Result<seq<string>, nat>)
    ensures r.Success? <==> forall i :: 0 <= i < |pieces| ==> hostOf(pieces[i]).Some?
    ensures r.Success? ==> |r.value| == |pieces|
    ensures r.Success? ==> forall i :: 0 <= i < |pieces| ==> r.value[i] == hostOf(pieces[i]).value
    ensures r.Failure? ==> r.error < |pieces| && hostOf(pieces[r.error]).None?
    ensures r.Failure? ==> forall j :: 0 <= j < r.error ==> hostOf(pieces[j]).Some?
    decreases |pieces|
  {
    if |pieces| == 0 then Success([])
    else
      match hostOf(pieces[0])
      case None => Failure(0)
      case Some(h) =>
        match ParseHosts(pieces[1..], hostOf)
        case Success(hs) =>
          assert forall i :: 1 <= i < |pieces| ==> pieces[i] == pieces[1..][i - 1];
          Success([h] + hs)
        case Failure(k) =>
          assert forall j :: 1 <= j <= k ==> pieces[j] == pieces[1..][j - 1];
          Failure(k + 1)
  }

  /** `brokerAddresses`: one address per comma-separated piece of the URL
      list, in order, each the host of that piece; the first piece that fails
      to parse stops the process. */
  function BrokerAddresses(cfg: Config, hostOf: HostParser): (r: Result<seq<string>, UrlError>)
    ensures r.Success? <==>
      forall i :: 0 <= i < |Split(cfg.url, ',')| ==> hostOf(Split(cfg.url, ',')[i]).Some?
    ensures r.Success? ==> |r.value| == Count(cfg.url, ',') + 1
    ensures r.Success? ==> forall i :: 0 <= i < |r.value| ==>
      r.value[i] == hostOf(Split(cfg.url, ',')[i]).value
    ensures r.Failure? ==>
      && r.error.index <= Count(cfg.url, ',')
      && r.error.piece == Split(cfg.url, ',')[r.error.index]
      && hostOf(r.error.piece).None?
      && forall j :: 0 <= j < r.error.index ==> hostOf(Split(cfg.url, ',')[j]).Some?
  {
    var pieces := Split(cfg.url, ',');
    match ParseHosts(pieces, hostOf)
    case Success(addrs) => Success(addrs)
    case Failure(i) =>
      assert hostOf(Split(cfg.url, ',')[i]).None?;
      Failure(UrlError(i, pieces[i]))
  }

  /** One broker endpoint: a host name and a decimal port. */
  datatype Endpoint = Endpoint(host: string, port: string)

  /** The `host:port` form of an endpoint. */
  function Address(e: Endpoint): string
  {
    e.host + ":" + e.port
  }

  predicate IsLetter(c: char)
  {
    'a' <= c <= 'z' || 'A' <= c <= 'Z'
  }

  predicate IsDigit(c: char)
  {
    '0' <= c <= '9'
  }

  /** A URL scheme: a letter followed by letters, digits, `+`, `-` or `.`. */
  predicate ValidScheme(s: string)
  {
    && |s| > 0
    && IsLetter(s[0])
    && forall i :: 0 < i < |s| ==> IsLetter(s[i]) || IsDigit(s[i]) || s[i] in "+-."
  }

  /** A DNS-style host name and a non-empty decimal port. */
  predicate ValidEndpoint(e: Endpoint)
  {
    && |e.host| > 0
    && (forall i :: 0 <= i < |e.host| ==> IsLetter(e.host[i]) || IsDigit(e.host[i]) || e.host[i] in "-.")
    && |e.port| > 0
    && (forall i :: 0 <= i < |e.port| ==> IsDigit(e.port[i]))
  }

  /** Whether `a` is the `host:port` form of a valid endpoint. */
  predicate IsHostPort(a: string)
  {
    match IndexOf(a, ':')
    case None => false
    case Some(j) => ValidEndpoint(Endpoint(a[..j], a[j + 1..]))
  }

  /** A parser for the one URL shape broker lists use, `scheme://host:port`:
      it yields the `host:port` authority of such a URL and fails on any
      other shape (`SchemeAuthorityParses` gives the converse). */
  function AuthorityHost(s: string): (r: Option<string>)
    ensures r.Some? ==> IsHostPort(r.value) && |r.value| < |s| && r.value == s[|s| - |r.value|..]
    ensures r.Some? ==>
      && |s| >= |r.value| + 4
      && ValidScheme(s[..|s| - |r.value| - 3])
      && s == s[..|s| - |r.value| - 3] + "://" + r.value
  {
    match IndexOf(s, ':')
    case None => None
    case Some(i) =>
      var rest := s[i + 1..];
      if ValidScheme(s[..i]) && |rest| >= 2 && rest[..2] == "//" && IsHostPort(rest[2..])
      then Some(rest[2..])
      else None
  }

  /** `scheme://host:port` for every endpoint, in order. */
  function BrokerUrls(scheme: string, eps: seq<Endpoint>): (urls: seq<string>)
  {
    seq(|eps|, k requires 0 <= k < |eps| => scheme + "://" + Address(eps[k]))
  }

  /** The addresses of the endpoints, in order. */
  function Addresses(eps: seq<Endpoint>): (addrs: seq<string>)
  {
    seq(|eps|, k requires 0 <= k < |eps| => Address(eps[k]))
  }

  /** The host name is everything before the first colon of `host:port`. */
  lemma HostPortOfEndpoint(e: Endpoint)
    requires ValidEndpoint(e)
    ensures IndexOf(Address(e), ':') == Some(|e.host|)
    ensures IsHostPort(Address(e))
  {
    var a := Address(e);
    assert ':' !in e.host by {
      forall i | 0 <= i < |e.host| ensures e.host[i] != ':' {
        assert IsLetter(e.host[i]) || IsDigit(e.host[i]) || e.host[i] in "-.";
      }
    }
    assert a == e.host + [':'] + e.port;
    IndexOfAfter(e.host, ':', e.port);
    assert a[..|e.host|] == e.host;
    assert a[|e.host| + 1..] == e.port;
  }

  /** Every `scheme://host:port` URL parses, to exactly its authority: with
      the ensures of `AuthorityHost`, the parser succeeds exactly on this shape. */
  lemma SchemeAuthorityParses(scheme: string, a: string)
    requires ValidScheme(scheme)
    requires IsHostPort(a)
    ensures AuthorityHost(scheme + "://" + a) == Some(a)
  {
    var s := scheme + "://" + a;
    assert ':' !in scheme by {
      forall i | 0 <= i < |scheme| ensures scheme[i] != ':' {
        assert IsLetter(scheme[i]) || IsDigit(scheme[i]) || scheme[i] in "+-.";
      }
    }
    assert s == scheme + [':'] + ("//" + a);
    IndexOfAfter(scheme, ':', "//" + a);
    assert s[..|scheme|] == scheme;
    var rest := s[|scheme| + 1..];
    assert rest == "//" + a;
    assert rest[2..] == a;
  }

  /** A well-formed broker URL parses to exactly its `host:port`. */
  lemma AuthorityHostOfUrl(scheme: string, e: Endpoint)
    requires ValidScheme(scheme)
    requires ValidEndpoint(e)
    ensures AuthorityHost(scheme + "://" + Address(e)) == Some(Address(e))
  {
    HostPortOfEndpoint(e);
    SchemeAuthorityParses(scheme, Address(e));
  }

  /** No comma occurs in a well-formed broker URL. */
  lemma NoCommaInBrokerUrl(scheme: string, e: Endpoint)
    requires ValidScheme(scheme)
    requires ValidEndpoint(e)
    ensures ',' !in scheme + "://" + Address(e)
  {
  }

  /** The comma-joined broker URLs split back into the same URLs. */
  lemma SplitBrokerUrls(scheme: string, eps: seq<Endpoint>)
    requires |eps| >= 1
    requires ValidScheme(scheme)
    requires forall k :: 0 <= k < |eps| ==> ValidEndpoint(eps[k])
    ensures Split(Join(BrokerUrls(scheme, eps), ","), ',') == BrokerUrls(scheme, eps)
  {
    var urls := BrokerUrls(scheme, eps);
    forall k | 0 <= k < |urls| ensures ',' !in urls[k] {
      NoCommaInBrokerUrl(scheme, eps[k]);
    }
    SplitJoin(urls, ',');
  }

  /** Each well-formed broker URL parses to its endpoint's address. */
  lemma ParseBrokerUrls(scheme: string, eps: seq<Endpoint>)
    requires ValidScheme(scheme)
    requires forall k :: 0 <= k < |eps| ==> ValidEndpoint(eps[k])
    ensures ParseHosts(BrokerUrls(scheme, eps), AuthorityHost) == Success(Addresses(eps))
  {
    var urls := BrokerUrls(scheme, eps);
    forall k | 0 <= k < |urls| ensures AuthorityHost(urls[k]) == Some(Address(eps[k])) {
      AuthorityHostOfUrl(scheme, eps[k]);
    }
    var r := ParseHosts(urls, AuthorityHost);
    assert r.Success?;
    assert r.value == Addresses(eps);
  }

  /** A broker list of well-formed `scheme://host:port` URLs yields exactly
      the endpoints' `host:port` addresses, one per entry and in order. */
  lemma BrokerListAddresses(cfg: Config, scheme: string, eps: seq<Endpoint>)
    requires |eps| >= 1
    requires ValidScheme(scheme)
    requires forall k :: 0 <= k < |eps| ==> ValidEndpoint(eps[k])
    requires cfg.url == Join(BrokerUrls(scheme, eps), ",")
    ensures BrokerAddresses(cfg, AuthorityHost) == Success(Addresses(eps))
  {
    SplitBrokerUrls(scheme, eps);
    ParseBrokerUrls(scheme, eps);
  }
}
