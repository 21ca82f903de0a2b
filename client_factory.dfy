/**
 * Assembly of the client configurations handed to the Kafka client library.
 * A configuration maps property keys to string values; each `set` call of the
 * builder overwrites the key it names, which here is one map update.
 *
 * The specification of each builder is a table: for every key, the value the
 * configuration must carry, or `None` when the key must be absent.  A builder
 * is correct when its map agrees with its table on every key.
 */
module ClientFactory {
  import opened Wrappers
  import opened Text
  import opened Settings

  /** The client properties this driver sets. */
  datatype Key =
    | BootstrapServers | SocketTimeoutMs | SocketNagleDisable | MessageTimeoutMs
    | SecurityProtocol | EnableSslCertificateVerification
    | SslCaLocation | SslKeyLocation | SslKeyPassword | SslCertificateLocation
    | Acks | CompressionType | LingerMs | BatchSize | BatchNumMessages | RequestTimeoutMs
    | EnableIdempotence | MaxInFlightRequestsPerConnection
    | GroupId | ClientId | EnablePartitionEof | EnableAutoCommit | AutoOffsetReset | FetchMessageMaxBytes

  /** The property name the client library knows each key by. */
  function Name(k: Key): string {
    match k
    case BootstrapServers => "bootstrap.servers"
    case SocketTimeoutMs => "socket.timeout.ms"
    case SocketNagleDisable => "socket.nagle.disable"
    case MessageTimeoutMs => "message.timeout.ms"
    case SecurityProtocol => "security.protocol"
    case EnableSslCertificateVerification => "enable.ssl.certificate.verification"
    case SslCaLocation => "ssl.ca.location"
    case SslKeyLocation => "ssl.key.location"
    case SslKeyPassword => "ssl.key.password"
    case SslCertificateLocation => "ssl.certificate.location"
    case Acks => "acks"
    case CompressionType => "compression.type"
    case LingerMs => "linger.ms"
    case BatchSize => "batch.size"
    case BatchNumMessages => "batch.num.messages"
    case RequestTimeoutMs => "request.timeout.ms"
    case EnableIdempotence => "enable.idempotence"
    case MaxInFlightRequestsPerConnection => "max.in.flight.requests.per.connection"
    case GroupId => "group.id"
    case ClientId => "client.id"
    case EnablePartitionEof => "enable.partition.eof"
    case EnableAutoCommit => "enable.auto.commit"
    case AutoOffsetReset => "auto.offset.reset"
    case FetchMessageMaxBytes => "fetch.message.max.bytes"
  }

  /** Distinct keys have distinct property names, so the key-indexed map is the library's name-indexed one. */
  lemma NameInjective(a: Key, b: Key)
    ensures Name(a) == Name(b) ==> a == b
  {
    if Name(a) == Name(b) && a != b {
      match a
      case _ =>
    }
  }

  /** A client configuration: property to value. */
  type ClientConfig = map<Key, string>

  /** `m` carries exactly `expected` at key `k`: the value when there is one, no entry otherwise. */
  predicate Agrees(m: ClientConfig, k: Key, expected: Option<string>) {
    (k in m <==> expected.Some?) && (expected.Some? ==> m[k] == expected.value)
  }

  // ---------------------------------------------------------------- base

  /** The TLS part of the base table; every key is absent without TLS material. */
  function TlsValue(tls: Option<Tls>, k: Key): Option<string> {
    match tls
    case None => None
    case Some(t) =>
      match k
      case SecurityProtocol => Some("ssl")
      case EnableSslCertificateVerification => Some("false")
      case SslCaLocation => t.caFile
      case SslKeyLocation => t.privateKey
      // the password is applied only together with a private key
      case SslKeyPassword => if t.privateKey.Some? then t.privateKeyPassword else None
      case SslCertificateLocation => t.certificate
      case _ => None
  }

  /** The configuration every client starts from. */
  function BaseValue(c: Config, k: Key): Option<string> {
    match k
    case BootstrapServers => Some(Join(c.endpoints, ','))
    case SocketTimeoutMs => Some(Decimal(AsMillis(c.pubsub.connectTimeout)))
    case SocketNagleDisable => Some("true")
    case MessageTimeoutMs => Some(Decimal(AsMillis(c.pubsub.publishTimeout)))
    case _ => TlsValue(c.tls, k)
  }

  predicate IsBaseConfig(c: Config, m: ClientConfig) {
    forall k :: Agrees(m, k, BaseValue(c, k))
  }

  /** The keys the base table may set. */
  predicate IsBaseKey(k: Key) {
    k in {BootstrapServers, SocketTimeoutMs, SocketNagleDisable, MessageTimeoutMs,
          SecurityProtocol, EnableSslCertificateVerification, SslCaLocation, SslKeyLocation,
          SslKeyPassword, SslCertificateLocation}
  }

  method GetClientConfig(c: Config) returns (cfg: ClientConfig)
    ensures IsBaseConfig(c, cfg)
  {
    var bootstrapServers := Join(c.endpoints, ',');
    var publishTimeout := Decimal(AsMillis(c.pubsub.publishTimeout));
    var connectTimeout := Decimal(AsMillis(c.pubsub.connectTimeout));
    cfg := map[];
    RoleStart(c, BaseRole, cfg);
    ghost var done: set<Key> := {};
    cfg := Set(c, BaseRole, cfg, BootstrapServers, bootstrapServers, done);
    done := done + {BootstrapServers};
    cfg := Set(c, BaseRole, cfg, SocketTimeoutMs, connectTimeout, done);
    done := done + {SocketTimeoutMs};
    cfg := Set(c, BaseRole, cfg, SocketNagleDisable, "true", done);
    done := done + {SocketNagleDisable};
    cfg := Set(c, BaseRole, cfg, MessageTimeoutMs, publishTimeout, done);
    done := done + {MessageTimeoutMs};
    cfg := SetTls(c, cfg, done);
    done := done + TLS_KEYS;
    RoleDone(c, BaseRole, cfg, done);
  }

  const TLS_KEYS: set<Key> := {SecurityProtocol, EnableSslCertificateVerification, SslCaLocation, SslKeyLocation,
                               SslKeyPassword, SslCertificateLocation}

  /** The TLS settings: encryption on and verification off, then each supplied file. */
  method SetTls(c: Config, cfg0: ClientConfig, ghost done: set<Key>) returns (cfg: ClientConfig)
    requires SoFar(c, BaseRole, cfg0, done)
    ensures SoFar(c, BaseRole, cfg, done + TLS_KEYS)
  {
    cfg := cfg0;
    if c.tls.Some? {
      var tls := c.tls.value;
      ghost var applied := done;
      cfg := Set(c, BaseRole, cfg, SecurityProtocol, "ssl", applied);
      applied := applied + {SecurityProtocol};
      cfg := Set(c, BaseRole, cfg, EnableSslCertificateVerification, "false", applied);
      applied := applied + {EnableSslCertificateVerification};
      cfg := SetIfPresent(c, BaseRole, cfg, SslCaLocation, tls.caFile, applied);
      applied := applied + {SslCaLocation};
      if tls.privateKey.Some? {
        cfg := Set(c, BaseRole, cfg, SslKeyLocation, tls.privateKey.value, applied);
        applied := applied + {SslKeyLocation};
        cfg := SetIfPresent(c, BaseRole, cfg, SslKeyPassword, tls.privateKeyPassword, applied);
        applied := applied + {SslKeyPassword};
      } else {
        RoleSkip(c, BaseRole, cfg, SslKeyLocation, applied);
        applied := applied + {SslKeyLocation};
        RoleSkip(c, BaseRole, cfg, SslKeyPassword, applied);
        applied := applied + {SslKeyPassword};
      }
      cfg := SetIfPresent(c, BaseRole, cfg, SslCertificateLocation, tls.certificate, applied);
      applied := applied + {SslCertificateLocation};
      assert applied == done + TLS_KEYS;
    } else {
      NoTlsKeys(c, cfg, done);
    }
  }

  /** The administrative client uses the base configuration unchanged. */
  method GetKafkaAdmin(c: Config) returns (cfg: ClientConfig)
    ensures IsBaseConfig(c, cfg)
  {
    cfg := GetClientConfig(c);
  }

  // ------------------------------------------------------------ producer

  /** The producer table: its own keys on top of the base table. */
  function ProducerValue(c: Config, k: Key): Option<string> {
    var p := c.pubsub;
    match k
    case Acks => Some(p.kafkaAcks)
    case CompressionType => Some(p.kafkaCompressionType)
    case LingerMs => p.kafkaLingerMs
    case BatchSize => p.kafkaBatchSize
    case BatchNumMessages => p.kafkaBatchNumMessages
    case RequestTimeoutMs => p.kafkaRequestTimeoutMs
    case EnableIdempotence => if p.kafkaExactlyOnce then Some("true") else None
    case MaxInFlightRequestsPerConnection => if p.kafkaExactlyOnce then Some("1") else None
    case _ => BaseValue(c, k)
  }

  predicate IsProducerKey(k: Key) {
    k in {Acks, CompressionType, LingerMs, BatchSize, BatchNumMessages, RequestTimeoutMs,
          EnableIdempotence, MaxInFlightRequestsPerConnection}
  }

  predicate IsProducerConfig(c: Config, m: ClientConfig) {
    forall k :: Agrees(m, k, ProducerValue(c, k))
  }

  method GetKafkaProducer(c: Config) returns (cfg: ClientConfig)
    ensures IsProducerConfig(c, cfg)
  {
    var p := c.pubsub;
    cfg := GetClientConfig(c);
    RoleStart(c, ProducerRole, cfg);
    ghost var done: set<Key> := {};
    cfg := Set(c, ProducerRole, cfg, Acks, p.kafkaAcks, done);
    done := done + {Acks};
    cfg := Set(c, ProducerRole, cfg, CompressionType, p.kafkaCompressionType, done);
    done := done + {CompressionType};
    cfg := SetIfPresent(c, ProducerRole, cfg, LingerMs, p.kafkaLingerMs, done);
    done := done + {LingerMs};
    cfg := SetIfPresent(c, ProducerRole, cfg, BatchSize, p.kafkaBatchSize, done);
    done := done + {BatchSize};
    cfg := SetIfPresent(c, ProducerRole, cfg, BatchNumMessages, p.kafkaBatchNumMessages, done);
    done := done + {BatchNumMessages};
    cfg := SetIfPresent(c, ProducerRole, cfg, RequestTimeoutMs, p.kafkaRequestTimeoutMs, done);
    done := done + {RequestTimeoutMs};
    cfg := SetExactlyOnce(c, cfg, p.kafkaExactlyOnce, done);
    done := done + {EnableIdempotence, MaxInFlightRequestsPerConnection};
    RoleDone(c, ProducerRole, cfg, done);
  }

  /** Exactly-once delivery: idempotence on, and one request in flight per connection. */
  method SetExactlyOnce(ghost c: Config, cfg0: ClientConfig, exactlyOnce: bool, ghost done: set<Key>)
    returns (cfg: ClientConfig)
    requires SoFar(c, ProducerRole, cfg0, done) && exactlyOnce == c.pubsub.kafkaExactlyOnce
    ensures SoFar(c, ProducerRole, cfg, done + {EnableIdempotence, MaxInFlightRequestsPerConnection})
  {
    cfg := cfg0;
    if exactlyOnce {
      cfg := Set(c, ProducerRole, cfg, EnableIdempotence, "true", done);
      cfg := Set(c, ProducerRole, cfg, MaxInFlightRequestsPerConnection, "1", done + {EnableIdempotence});
    } else {
      RoleSkip(c, ProducerRole, cfg, EnableIdempotence, done);
      RoleSkip(c, ProducerRole, cfg, MaxInFlightRequestsPerConnection, done + {EnableIdempotence});
    }
    assert done + {EnableIdempotence} + {MaxInFlightRequestsPerConnection}
        == done + {EnableIdempotence, MaxInFlightRequestsPerConnection};
  }

  // ------------------------------------------------------------ consumer

  /** The consumer table for group `groupId`: its own keys on top of the base table. */
  function ConsumerValue(c: Config, groupId: string, k: Key): Option<string> {
    match k
    case GroupId => Some(groupId)
    case ClientId => Some("rpcperf_subscriber")
    case EnablePartitionEof => Some("false")
    case EnableAutoCommit => Some("false")
    case AutoOffsetReset => Some(c.pubsub.kafkaAutoOffsetReset)
    case FetchMessageMaxBytes => c.pubsub.kafkaFetchMessageMaxBytes
    case _ => BaseValue(c, k)
  }

  predicate IsConsumerKey(k: Key) {
    k in {GroupId, ClientId, EnablePartitionEof, EnableAutoCommit, AutoOffsetReset, FetchMessageMaxBytes}
  }

  predicate IsConsumerConfig(c: Config, groupId: string, m: ClientConfig) {
    forall k :: Agrees(m, k, ConsumerValue(c, groupId, k))
  }

  method GetKafkaConsumer(c: Config, groupId: string) returns (cfg: ClientConfig)
    ensures IsConsumerConfig(c, groupId, cfg)
  {
    var p := c.pubsub;
    cfg := GetClientConfig(c);
    ghost var role := ConsumerRole(groupId);
    RoleStart(c, role, cfg);
    ghost var done: set<Key> := {};
    cfg := Set(c, role, cfg, GroupId, groupId, done);
    done := done + {GroupId};
    cfg := Set(c, role, cfg, ClientId, "rpcperf_subscriber", done);
    done := done + {ClientId};
    cfg := Set(c, role, cfg, EnablePartitionEof, "false", done);
    done := done + {EnablePartitionEof};
    cfg := Set(c, role, cfg, EnableAutoCommit, "false", done);
    done := done + {EnableAutoCommit};
    cfg := Set(c, role, cfg, AutoOffsetReset, p.kafkaAutoOffsetReset, done);
    done := done + {AutoOffsetReset};
    cfg := SetIfPresent(c, role, cfg, FetchMessageMaxBytes, p.kafkaFetchMessageMaxBytes, done);
    done := done + {FetchMessageMaxBytes};
    RoleDone(c, role, cfg, done);
  }

  // ------------------------------------------------- building a table key by key

  /** Which client's table a builder is filling in. */
  datatype Role = BaseRole | ProducerRole | ConsumerRole(groupId: string)

  function RoleValue(c: Config, r: Role, k: Key): Option<string> {
    match r
    case BaseRole => BaseValue(c, k)
    case ProducerRole => ProducerValue(c, k)
    case ConsumerRole(g) => ConsumerValue(c, g, k)
  }

  predicate IsRoleKey(r: Role, k: Key) {
    match r
    case BaseRole => IsBaseKey(k)
    case ProducerRole => IsProducerKey(k)
    case ConsumerRole(_) => IsConsumerKey(k)
  }

  /** The settings once the role's keys in `done` are applied: those keys as in the role's table, the others as in the base table. */
  ghost predicate SoFar(c: Config, r: Role, m: ClientConfig, done: set<Key>) {
    forall k :: AgreesSoFar(c, r, m, done, k)
  }

  ghost predicate AgreesSoFar(c: Config, r: Role, m: ClientConfig, done: set<Key>, k: Key) {
    Agrees(m, k, if IsRoleKey(r, k) && k !in done then None else RoleValue(c, r, k))
  }

  /** The base table starts from no settings; the producer and consumer tables start from the base settings. */
  lemma RoleStart(c: Config, r: Role, m: ClientConfig)
    requires r.BaseRole? ==> m == map[]
    requires !r.BaseRole? ==> IsBaseConfig(c, m)
    ensures SoFar(c, r, m, {})
  {
    forall k
      ensures AgreesSoFar(c, r, m, {}, k)
    {
      if !r.BaseRole? {
        assert Agrees(m, k, BaseValue(c, k));
      }
    }
  }

  /** Without TLS material the TLS keys stay unset. */
  lemma NoTlsKeys(c: Config, m: ClientConfig, done: set<Key>)
    requires c.tls.None? && SoFar(c, BaseRole, m, done)
    ensures SoFar(c, BaseRole, m, done + TLS_KEYS)
  {
    forall k
      ensures AgreesSoFar(c, BaseRole, m, done + TLS_KEYS, k)
    {
      assert AgreesSoFar(c, BaseRole, m, done, k);
    }
  }

  /** `m` with `k` set to `v`'s value when there is one. */
  function WithValue(m: ClientConfig, k: Key, v: Option<string>): ClientConfig {
    if v.Some? then m[k := v.value] else m
  }

  /** Sets key `k` of the role's table to `v`. */
  method Set(ghost c: Config, ghost r: Role, cfg0: ClientConfig, k: Key, v: string, ghost done: set<Key>)
    returns (cfg: ClientConfig)
    requires SoFar(c, r, cfg0, done) && IsRoleKey(r, k) && RoleValue(c, r, k) == Some(v)
    ensures SoFar(c, r, cfg, done + {k})
  {
    cfg := cfg0[k := v];
    RoleStep(c, r, cfg0, cfg, k, done);
  }

  /** Sets key `k` of the role's table when a value is supplied; otherwise leaves the settings alone. */
  method SetIfPresent(ghost c: Config, ghost r: Role, cfg0: ClientConfig, k: Key, v: Option<string>, ghost done: set<Key>)
    returns (cfg: ClientConfig)
    requires SoFar(c, r, cfg0, done) && IsRoleKey(r, k) && RoleValue(c, r, k) == v
    ensures SoFar(c, r, cfg, done + {k})
  {
    cfg := cfg0;
    if v.Some? {
      cfg := cfg[k := v.value];
    }
    RoleStep(c, r, cfg0, cfg, k, done);
  }

  /** Applying key `k0` as the role's table says adds it to the applied keys. */
  lemma RoleStep(c: Config, r: Role, m: ClientConfig, m': ClientConfig, k0: Key, done: set<Key>)
    requires SoFar(c, r, m, done) && IsRoleKey(r, k0)
    requires m' == WithValue(m, k0, RoleValue(c, r, k0))
    ensures SoFar(c, r, m', done + {k0})
  {
    forall k
      ensures AgreesSoFar(c, r, m', done + {k0}, k)
    {
      assert AgreesSoFar(c, r, m, done, k);
    }
  }

  /** A key the role's table leaves unset counts as applied without any change. */
  lemma RoleSkip(c: Config, r: Role, m: ClientConfig, k0: Key, done: set<Key>)
    requires SoFar(c, r, m, done) && IsRoleKey(r, k0) && RoleValue(c, r, k0).None?
    ensures SoFar(c, r, m, done + {k0})
  {
    forall k
      ensures AgreesSoFar(c, r, m, done + {k0}, k)
    {
      assert AgreesSoFar(c, r, m, done, k);
    }
  }

  lemma RoleDone(c: Config, r: Role, m: ClientConfig, done: set<Key>)
    requires SoFar(c, r, m, done)
    requires forall k :: IsRoleKey(r, k) ==> k in done
    ensures r.BaseRole? ==> IsBaseConfig(c, m)
    ensures r.ProducerRole? ==> IsProducerConfig(c, m)
    ensures r.ConsumerRole? ==> IsConsumerConfig(c, r.groupId, m)
  {
    if r.BaseRole? {
      forall k
        ensures Agrees(m, k, BaseValue(c, k))
      {
        assert AgreesSoFar(c, r, m, done, k);
      }
    } else if r.ProducerRole? {
      forall k
        ensures Agrees(m, k, ProducerValue(c, k))
      {
        assert AgreesSoFar(c, r, m, done, k);
      }
    } else {
      forall k
        ensures Agrees(m, k, ConsumerValue(c, r.groupId, k))
      {
        assert AgreesSoFar(c, r, m, done, k);
      }
    }
  }

  // -------------------------------------------------------------- lemmas

  /** A key that belongs to transport security: `security.protocol` or any `ssl` setting. */
  predicate IsSecurityKey(k: Key) {
    Name(k) == "security.protocol" || (|Name(k)| >= 4 && Name(k)[..4] == "ssl.")
    || Name(k) == "enable.ssl.certificate.verification"
  }

  /** The always-present base settings. */
  lemma BaseSettings(c: Config, m: ClientConfig)
    requires IsBaseConfig(c, m)
    ensures BootstrapServers in m && m[BootstrapServers] == Join(c.endpoints, ',')
    ensures SocketNagleDisable in m && m[SocketNagleDisable] == "true"
    ensures SocketTimeoutMs in m && AllDigits(m[SocketTimeoutMs])
            && ParseDecimal(m[SocketTimeoutMs]) == c.pubsub.connectTimeout / 1_000_000
    ensures MessageTimeoutMs in m && AllDigits(m[MessageTimeoutMs])
            && ParseDecimal(m[MessageTimeoutMs]) == c.pubsub.publishTimeout / 1_000_000
  {
    assert Agrees(m, BootstrapServers, BaseValue(c, BootstrapServers));
    assert Agrees(m, SocketNagleDisable, BaseValue(c, SocketNagleDisable));
    assert Agrees(m, SocketTimeoutMs, BaseValue(c, SocketTimeoutMs));
    assert Agrees(m, MessageTimeoutMs, BaseValue(c, MessageTimeoutMs));
    ParseDecimalOfDecimal(AsMillis(c.pubsub.connectTimeout));
    ParseDecimalOfDecimal(AsMillis(c.pubsub.publishTimeout));
  }

  /** Without TLS material no security setting is present. */
  lemma NoTlsNoSecurityKeys(c: Config, m: ClientConfig)
    requires c.tls.None? && IsBaseConfig(c, m)
    ensures forall k :: k in m ==> !IsSecurityKey(k)
  {
    forall k | k in m
      ensures !IsSecurityKey(k)
    {
      assert Agrees(m, k, BaseValue(c, k));
      match k
      case BootstrapServers => assert Name(k)[0] == 'b';
      case SocketTimeoutMs => assert Name(k)[1] == 'o';
      case SocketNagleDisable => assert Name(k)[1] == 'o';
      case MessageTimeoutMs => assert Name(k)[0] == 'm';
      case _ =>
    }
  }

  /** With TLS: encryption on, verification off, and each file applied exactly when present. */
  lemma TlsSettings(c: Config, m: ClientConfig)
    requires c.tls.Some? && IsBaseConfig(c, m)
    ensures SecurityProtocol in m && m[SecurityProtocol] == "ssl"
    ensures EnableSslCertificateVerification in m && m[EnableSslCertificateVerification] == "false"
    ensures SslCaLocation in m <==> c.tls.value.caFile.Some?
    ensures SslCertificateLocation in m <==> c.tls.value.certificate.Some?
    ensures SslKeyLocation in m <==> c.tls.value.privateKey.Some?
    ensures SslKeyPassword in m <==> c.tls.value.privateKey.Some? && c.tls.value.privateKeyPassword.Some?
  {
    assert Agrees(m, SecurityProtocol, BaseValue(c, SecurityProtocol));
    assert Agrees(m, EnableSslCertificateVerification, BaseValue(c, EnableSslCertificateVerification));
    assert Agrees(m, SslCaLocation, BaseValue(c, SslCaLocation));
    assert Agrees(m, SslCertificateLocation, BaseValue(c, SslCertificateLocation));
    assert Agrees(m, SslKeyLocation, BaseValue(c, SslKeyLocation));
    assert Agrees(m, SslKeyPassword, BaseValue(c, SslKeyPassword));
  }

  /**
   * The producer and consumer overrides only touch keys the base table leaves
   * absent, so every base setting survives into both configurations.
   */
  lemma OverridesKeepBase(c: Config, groupId: string, k: Key)
    requires BaseValue(c, k).Some?
    ensures !IsProducerKey(k) && ProducerValue(c, k) == BaseValue(c, k)
    ensures !IsConsumerKey(k) && ConsumerValue(c, groupId, k) == BaseValue(c, k)
  {
  }

  /** Producer knobs: acks and compression always, each optional knob exactly when supplied. */
  lemma ProducerSettings(c: Config, m: ClientConfig)
    requires IsProducerConfig(c, m)
    ensures Acks in m && m[Acks] == c.pubsub.kafkaAcks
    ensures CompressionType in m && m[CompressionType] == c.pubsub.kafkaCompressionType
    ensures LingerMs in m <==> c.pubsub.kafkaLingerMs.Some?
    ensures BatchSize in m <==> c.pubsub.kafkaBatchSize.Some?
    ensures BatchNumMessages in m <==> c.pubsub.kafkaBatchNumMessages.Some?
    ensures RequestTimeoutMs in m <==> c.pubsub.kafkaRequestTimeoutMs.Some?
    ensures EnableIdempotence in m <==> c.pubsub.kafkaExactlyOnce
    ensures MaxInFlightRequestsPerConnection in m <==> c.pubsub.kafkaExactlyOnce
    ensures c.pubsub.kafkaExactlyOnce ==> m[EnableIdempotence] == "true" && m[MaxInFlightRequestsPerConnection] == "1"
  {
    assert Agrees(m, Acks, ProducerValue(c, Acks));
    assert Agrees(m, CompressionType, ProducerValue(c, CompressionType));
    assert Agrees(m, LingerMs, ProducerValue(c, LingerMs));
    assert Agrees(m, BatchSize, ProducerValue(c, BatchSize));
    assert Agrees(m, BatchNumMessages, ProducerValue(c, BatchNumMessages));
    assert Agrees(m, RequestTimeoutMs, ProducerValue(c, RequestTimeoutMs));
    assert Agrees(m, EnableIdempotence, ProducerValue(c, EnableIdempotence));
    assert Agrees(m, MaxInFlightRequestsPerConnection, ProducerValue(c, MaxInFlightRequestsPerConnection));
  }

  /** Consumer settings: the given group, auto-commit and end-of-partition events off. */
  lemma ConsumerSettings(c: Config, groupId: string, m: ClientConfig)
    requires IsConsumerConfig(c, groupId, m)
    ensures GroupId in m && m[GroupId] == groupId
    ensures ClientId in m && m[ClientId] == "rpcperf_subscriber"
    ensures EnableAutoCommit in m && m[EnableAutoCommit] == "false"
    ensures EnablePartitionEof in m && m[EnablePartitionEof] == "false"
    ensures AutoOffsetReset in m && m[AutoOffsetReset] == c.pubsub.kafkaAutoOffsetReset
    ensures FetchMessageMaxBytes in m <==> c.pubsub.kafkaFetchMessageMaxBytes.Some?
  {
    assert Agrees(m, GroupId, ConsumerValue(c, groupId, GroupId));
    assert Agrees(m, ClientId, ConsumerValue(c, groupId, ClientId));
    assert Agrees(m, EnableAutoCommit, ConsumerValue(c, groupId, EnableAutoCommit));
    assert Agrees(m, EnablePartitionEof, ConsumerValue(c, groupId, EnablePartitionEof));
    assert Agrees(m, AutoOffsetReset, ConsumerValue(c, groupId, AutoOffsetReset));
    assert Agrees(m, FetchMessageMaxBytes, ConsumerValue(c, groupId, FetchMessageMaxBytes));
  }

  /** The producer table determines the configuration completely. */
  lemma ProducerConfigUnique(c: Config, m1: ClientConfig, m2: ClientConfig)
    requires IsProducerConfig(c, m1) && IsProducerConfig(c, m2)
    ensures m1 == m2
  {
    forall k | k in m1
      ensures k in m2 && m1[k] == m2[k]
    {
      assert Agrees(m1, k, ProducerValue(c, k)) && Agrees(m2, k, ProducerValue(c, k));
    }
    forall k | k in m2
      ensures k in m1
    {
      assert Agrees(m1, k, ProducerValue(c, k)) && Agrees(m2, k, ProducerValue(c, k));
    }
  }

  /** The consumer table determines the configuration completely. */
  lemma ConsumerConfigUnique(c: Config, groupId: string, m1: ClientConfig, m2: ClientConfig)
    requires IsConsumerConfig(c, groupId, m1) && IsConsumerConfig(c, groupId, m2)
    ensures m1 == m2
  {
    forall k | k in m1
      ensures k in m2 && m1[k] == m2[k]
    {
      assert Agrees(m1, k, ConsumerValue(c, groupId, k)) && Agrees(m2, k, ConsumerValue(c, groupId, k));
    }
    forall k | k in m2
      ensures k in m1
    {
      assert Agrees(m1, k, ConsumerValue(c, groupId, k)) && Agrees(m2, k, ConsumerValue(c, groupId, k));
    }
  }

  /** The endpoint list can be read back from `bootstrap.servers`. */
  lemma BootstrapServersRecoverable(c: Config, m: ClientConfig)
    requires IsBaseConfig(c, m)
    requires |c.endpoints| >= 1
    requires forall i :: 0 <= i < |c.endpoints| ==> ',' !in c.endpoints[i]
    ensures BootstrapServers in m && Split(m[BootstrapServers], ',') == c.endpoints
  {
    assert Agrees(m, BootstrapServers, BaseValue(c, BootstrapServers));
    SplitJoin(c.endpoints, ',');
  }
}
