# Kafka client bootstrap and dispatch — a Dafny model

This project models the sequential core of a small Go service built on the
`sarama` Kafka client. At startup the service reads a configuration record. It
splits the comma-separated broker URL list into `host:port` addresses. It checks
the TLS certificate of every broker against the trusted root bundle. Only when
every broker passes does it build the consumer-group client and the asynchronous
producer. After that the foreground loop hands every non-nil record from the
consumer's message stream to `processMessage`. That function copies the record
into the client's own `Message` record.

Modules (one file each):

- `Wrappers` (`wrappers.dfy`): `Option` and `Result`.
- `GoStrings` (`go_strings.dfy`): `strings.Split` with a one-character separator and `strings.Join`. `Split` is proved to be the inverse of `Join`.
- `Names` (`names.dfy`): the configuration record, `topic`, `group` and the client identifier.
- `Brokers` (`brokers.dfy`): `brokerAddresses`. `url.Parse` is a parameter (`HostParser`). A concrete parser, `AuthorityHost`, covers the `scheme://host:port` shape.
- `CertCheck` (`cert_check.dfy`): the body of `verifyServerCert`. Dialing, root parsing and chain verification are parameters.
- `Startup` (`startup.dfy`): `Connect`. It verifies all brokers first, then builds the consumer and producer setups.
- `Dispatch` (`dispatch.dfy`): the nil-skipping `range` loop of `main` and `processMessage`.

Things outside the model enter as parameters:

- `url.Parse` (with `.Host`) becomes `hostOf: string -> Option<string>`. `None` means a non-nil parse error.
- `verifyServerCert` becomes `verify: string -> (bool, Option<CertError>)` inside `Connect`. Its own body is modelled separately over three oracles:
  - `dial` opens the TLS connection and takes the leaf certificate;
  - `parseRoots` stands for `AppendCertsFromPEM`;
  - `chainOk` stands for `Certificate.Verify`.
- `time.Now().Format(...)` becomes an opaque stamp string. The consumer and the producer each read the clock, so `Connect` takes two stamps.
- `log.Fatal` becomes a `Failure` result that names the cause.

## Model

| member | source | states |
|---|---|---|
| GoStrings.Split | kafka/kafka.go:156 | `strings.Split` on `,` gives one more piece than there are commas, including empty pieces (`""` gives `[""]`). No piece contains the separator, and joining the pieces with it gives back the input. |
| GoStrings.SplitJoin | kafka/kafka.go:156 | Split undoes Join for any non-empty list of separator-free parts. Together with `Split`'s contract, the two are inverses. |
| GoStrings.JoinPair | kafka/kafka.go:207 | `strings.Join` (modelled by `GoStrings.Join`) of two parts puts the separator between them exactly once. Two parts is the only shape the code uses, at lines 207, 237, 256 and 267. |
| GoStrings.IndexOf | kafka/kafka.go:159 | Gives the position of the first occurrence of a character, or none exactly when the character does not occur. Used to locate the scheme and port separators. |
| Names.Topic | kafka/kafka.go:251-260 | With a non-empty prefix the topic is prefix followed directly by the name, with no separator. With an empty prefix the result is the empty string, not the name. The result is empty exactly when the prefix is. |
| Names.Group | kafka/kafka.go:262-271 | With an empty prefix the group is the configured group unchanged. Otherwise it is prefix followed directly by the group. The configured group is always a suffix of the result. |
| Names.IntendedTopic | kafka/kafka.go:251-260 | The behaviour the doc comment describes: the name unchanged without a prefix, prefix followed by the name with one. |
| Names.ClientId | kafka/kafka.go:207 | The client ID is the group, one `-`, then the timestamp. Each part sits at its own position, and the length is the sum of the parts plus one. |
| Names.TopicIgnoresNameWithoutPrefix | kafka/kafka.go:252-259 | With an empty prefix and a non-empty name, `topic` returns `""`, which differs from the intended topic. |
| Names.TopicAndGroupDiverge | kafka/kafka.go:252-271 | Without a prefix, `topic` and `group` disagree on the same non-empty base name. With a prefix they qualify it identically. |
| Names.IntendedTopicQualifiesLikeGroup | kafka/kafka.go:251-271 | The corrected topic equals the as-written one whenever a prefix is set, and qualifies a name exactly as `group` does. |
| Names.ClientIdInjective | kafka/kafka.go:237 | For one group, two client IDs are equal iff their timestamps are. |
| Brokers.ParseHosts | kafka/kafka.go:157-164 | Succeeds iff every piece parses. On success there is one host per piece: address i is the host of piece i. On failure it names the first piece that does not parse, and every earlier piece parsed. |
| Brokers.BrokerAddresses | kafka/kafka.go:155-166 | `brokerAddresses` yields comma count + 1 addresses. Address i is the parsed host of the i-th comma-separated piece. Otherwise the error gives the first unparseable piece and its index. |
| Brokers.AuthorityHost | kafka/kafka.go:159-163 | The refined parser succeeds only on a URL that is a valid scheme, then `://`, then a valid `host:port`, and the result is exactly that `host:port`, as `url.Parse(...).Host` gives it. |
| Brokers.SchemeAuthorityParses | kafka/kafka.go:159-163 | Conversely, every valid scheme followed by `://` and a valid `host:port` parses, to exactly that `host:port`. |
| Brokers.AuthorityHostOfUrl | kafka/kafka.go:159-163 | `scheme://host:port` parses to exactly `host:port`. |
| Brokers.BrokerListAddresses | kafka/kafka.go:154-166 | A comma-joined list of well-formed broker URLs yields exactly those endpoints' `host:port` addresses, one per entry and in order. |
| CertCheck.VerifyServerCert | kafka/kafka.go:168-192 | Returns `(true, nil)` iff the dial, the root-bundle parse and the chain verification all succeed. Every failing path returns `false` with its own non-nil error: `DialFailed` with the dial error, `TrustedCertUnparseable` (the code's "Unable to parse Trusted Cert"), or `ChainRejected` with the chain verification error. |
| CertCheck.VerifyServerCertWellBehaved | kafka/kafka.go:168-192 | Every instance of `verifyServerCert` keeps its code-level contract: `ok` exactly when the error is nil. |
| CertCheck.PassesExactlyWhenChainVerifies | kafka/kafka.go:184-191 | Once the dial and root parse succeed, a broker passes iff its leaf certificate chains to the trusted roots. |
| Startup.VerifyFrom | kafka/kafka.go:69-79 | The verification loop finds nothing iff every broker returns no error and `ok`. Otherwise it reports the first broker that fails: the error when there is one, invalid certificate when not `ok`. |
| Startup.Connect | kafka/kafka.go:66-85 | A client exists iff every address parsed and every broker passed. A bad URL or the first failing broker stops startup before either client is built. Consumer and producer use exactly the verified addresses. The consumer takes the prefixed group and the topic from `topic("order_events")`. Both client IDs are the unprefixed group, `-`, then their own stamp. |
| Startup.WellBehavedNeverInvalid | kafka/kafka.go:70-79 | With a verifier that keeps `verifyServerCert`'s contract, startup never stops on the invalid-certificate branch. |
| Startup.ClientIdsAgree | kafka/kafka.go:207-237 | After a successful `Connect`, the consumer and producer client IDs are equal iff the two clock readings are. |
| Startup.ConnectWithCertCheck | kafka/kafka.go:66-85 | With the modelled `verifyServerCert`, startup succeeds iff, for every broker, the dial succeeds, the trusted bundle parses and the leaf certificate chains to it. |
| Dispatch.ProcessMessage | main.go:52-58 | `processMessage` copies partition, offset, topic and the payload bytes (as the string value) unchanged. The metadata stays zero, so `ReceivedAt` is never assigned. |
| Dispatch.ProcessMessageKeepsExactlyFourFields | main.go:53-58 | Two records give the same message iff they agree on partition, offset, topic and payload. Key and broker timestamp are dropped. |
| Dispatch.NonNilAppend | main.go:45-49 | The records passed on from a concatenated stream are those of the first part followed by those of the second, so stream order is kept. |
| Dispatch.NonNilSingle | main.go:46-47 | A nil entry is skipped and a non-nil entry is passed on unchanged. |
| Dispatch.Dispatch | main.go:45-49 | The loop enumerates the non-nil records. Each hand-off is a non-nil entry holding that record, so a nil record is never passed on. Positions strictly increase, so entries go out in stream order and none twice. Every non-nil position is handed on, so none is skipped. It also returns the messages built, one `processMessage` result per handed-on record, in the same order. |
| Dispatch.EnumerationIsNonNil | main.go:45-49 | Any such enumeration is exactly the stream with nil entries removed, in order. Its length is the number of non-nil entries, so the number of hand-offs equals the number of non-nil records. |

## Left out

- Brokers.AuthorityHost: accepts only `scheme://host:port` with a DNS-style host and a decimal port, and fails on every other shape (its ensures and `SchemeAuthorityParses` together state exactly this). `url.Parse` accepts many other shapes, often with an empty `Host`, and rejects some that are not modelled. Address extraction itself is stated for every parser through `HostParser`.
- `createTLSConfig`, `tls.X509KeyPair`, TLS dialing and X.509 parsing and chain verification: these are foreign crypto and network calls, and appear only as the oracles above. A `createTLSConfig` failure stops the process before address extraction; the model starts at address extraction.
- `createKafkaConsumer` and `createKafkaProducer`: the sarama configuration (round-robin strategy, commit interval, `WaitForAll`, flush of one message) and its validation and construction failures are not modelled. They depend on libraries that are not part of this model. Only the brokers, group, topic and client ID are kept.
- `ShowNotifications` and `ShowErrors`: endless `select` loops whose only effect is console output from concurrent channels.
- The signal handler, goroutines, `defer`red closes and `os.Exit` in `main`. This is process and concurrency mechanics. Nothing in the code guards against closing a handle twice, and no close guard is modelled.
- Byte strings: Go strings are byte sequences, but the URL, prefix, group, topic and timestamp are modelled as Dafny strings, which are sequences of characters. Only the payload is `seq<byte>`. The operations used are concatenation and splitting on the ASCII `,`, so this changes nothing except that lengths, such as the one in `ClientId`'s contract, count characters rather than bytes.
- Environment loading (`godotenv`, `envdecode`), the `ENVIRONMENT` check and base64 decoding: environment I/O and library decoding.
- Timestamp formatting: the client-ID timestamp is an opaque string. The layout the code passes, `"20200102150405"`, is not modelled.
- All `fmt` and `log` output.
- The `verify` oracle of `Startup.Connect` is a function of the address alone. The code dials a broker listed twice in the URL twice, and the two dials could give different outcomes; the model gives both the same verdict.
- `verifyServerCert` never closes the connection that `tls.Dial` opens. Connection lifetime is not modelled.
- Dispatch.Dispatch: the per-record goroutine is not modelled. Hand-offs are sequential, so the model says nothing about the order in which handlers run.

## Findings

| source | as written | input that shows it | evidently intended | confidence | as-written member | corrected member |
|---|---|---|---|---|---|---|
| kafka/kafka.go:252-259 | With an empty prefix, `topic` returns `""` and drops the name. | Prefix `""` and `topic("order_events")` gives `""`, so the consumer subscribes to topic `""`. | The name unchanged when no prefix is set. The doc comment on line 251 says so, and `group` on lines 263-270 does so. | high; not executed | Names.TopicIgnoresNameWithoutPrefix | Names.IntendedTopic |

`Startup.Connect` keeps the as-written `Names.Topic`, because the model describes what the code subscribes to. `Names.IntendedTopicQualifiesLikeGroup` proves that the corrected topic agrees with it whenever a prefix is set.
