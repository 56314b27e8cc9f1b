/** Name derivation of the Kafka client: the prefix-qualified topic and
    consumer-group names and the client identifier. */
module Names {
  import opened GoStrings

  /** The environment-derived configuration record. The TLS fields are
      carried opaquely; `consumerGroup` already holds its default when the
      variable was unset. */
  datatype Config = Config(
    url: string,
    trustedCert: string,
    clientCertKey: string,
    clientCert: string,
    prefix: string,
    consumerGroup: string)

  /** The one topic the consumer subscribes to, before qualification. */
  const OrderEventsTopic: string := "order_events"

  /** `topic`, as written: with a prefix it joins prefix and name with no
      separator; without one it returns the empty string, not the name. */
  function Topic(cfg: Config, name: string): (t: string)
    ensures cfg.prefix != "" ==> t == cfg.prefix + name
    ensures cfg.prefix != "" ==> |t| == |cfg.prefix| + |name|
    ensures cfg.prefix == "" <==> t == ""
  {
    if cfg.prefix != "" then
      JoinPair(cfg.prefix, name, "");
      Join([cfg.prefix, name], "")
    else ""
  }

  /** `group`: the consumer group, prefixed by the prefix when there is one
      and unchanged otherwise. */
  function Group(cfg: Config): (g: string)
    ensures cfg.prefix == "" ==> g == cfg.consumerGroup
    ensures cfg.prefix != "" ==> g == cfg.prefix + cfg.consumerGroup
    ensures g[|g| - |cfg.consumerGroup|..] == cfg.consumerGroup
  {
    var g := cfg.consumerGroup;
    if cfg.prefix != "" then
      JoinPair(cfg.prefix, g, "");
      Join([cfg.prefix, g], "")
    else g
  }

  /** The topic name the doc comment of `topic` describes: the name,
      prefixed when a prefix is configured. */
  function IntendedTopic(cfg: Config, name: string): (t: string)
    ensures cfg.prefix == "" ==> t == name
    ensures cfg.prefix != "" ==> t == cfg.prefix + name
  {
    if cfg.prefix != "" then
      JoinPair(cfg.prefix, name, "");
      Join([cfg.prefix, name], "")
    else name
  }

  /** The client identifier: the unprefixed consumer group, a dash, and the
      creation timestamp (taken here as an opaque string). */
  function ClientId(group: string, stamp: string): (id: string)
    ensures |id| == |group| + 1 + |stamp|
    ensures id[..|group|] == group
    ensures id[|group|] == '-'
    ensures id[|group| + 1..] == stamp
  {
    JoinPair(group, stamp, "-");
    Join([group, stamp], "-")
  }

  /** Without a prefix the as-written topic drops the name: for the order
      events topic the consumer would subscribe to "" rather than
      "order_events". */
  lemma TopicIgnoresNameWithoutPrefix(cfg: Config, name: string)
    requires cfg.prefix == ""
    requires name != ""
    ensures Topic(cfg, name) == ""
    ensures Topic(cfg, name) != IntendedTopic(cfg, name)
  {
  }

  /** `topic` and `group` treat a missing prefix differently: the group keeps
      its name, the topic loses it. With a prefix both prepend it the same way. */
  lemma TopicAndGroupDiverge(cfg: Config)
    ensures cfg.prefix == "" && cfg.consumerGroup != "" ==>
      Topic(cfg, cfg.consumerGroup) != Group(cfg)
    ensures cfg.prefix != "" ==> Topic(cfg, cfg.consumerGroup) == Group(cfg)
  {
  }

  /** The corrected topic agrees with the as-written one whenever a prefix is
      set, and qualifies names exactly as `group` does in every case. */
  lemma IntendedTopicQualifiesLikeGroup(cfg: Config, name: string)
    ensures cfg.prefix != "" ==> IntendedTopic(cfg, name) == Topic(cfg, name)
    ensures IntendedTopic(cfg, cfg.consumerGroup) == Group(cfg)
  {
  }

  /** Two client identifiers for the same group are equal exactly when their
      timestamps are, so the identifier distinguishes instances only by time. */
  lemma ClientIdInjective(group: string, s1: string, s2: string)
    ensures ClientId(group, s1) == ClientId(group, s2) <==> s1 == s2
  {
  }
}
