/** MongoDB connection set-up (package `mongodb`): client options built from the
    configuration, the optional client-side field level encryption (CSFLE) set-up,
    closing, and error classification. */
module MongoDb {
  import opened Wrappers
  import opened Text

  const Second: int := 1_000_000_000  // time.Duration is in nanoseconds
  const DefaultPingTimeout: int := 5 * Second
  const MasterKeyLength := 96

  datatype AuthConfig = AuthConfig(username: string, password: string, mechanism: string, source: string)

  datatype CsfleConfig = CsfleConfig(keyVaultNamespace: string, dekName: string, masterKey: seq<int>)

  /** `Config`; `csfle` is `None` when encryption is off. */
  datatype Config = Config(host: string, database: string, auth: AuthConfig, csfle: Option<CsfleConfig>)

  /** `DataEncryptionKeyName` on a possibly nil configuration. */
  function DataEncryptionKeyName(c: Option<CsfleConfig>): (r: string)
    ensures c.None? ==> r == ""
    ensures c.Some? ==> r == c.value.dekName
  {
    match c
    case None => ""
    case Some(cfg) => cfg.dekName
  }

  datatype ClientConfig = ClientConfig(pingTimeout: int, appName: string, directConnection: Option<bool>)

  function DefaultClientConfig(): ClientConfig {
    ClientConfig(DefaultPingTimeout, "", None)
  }

  datatype MongoOption = WithPingTimeout(d: int) | WithAppName(name: string) | WithDirectConnection(direct: bool)

  /** Each option sets its own field and no other. */
  function Apply(c: ClientConfig, o: MongoOption): (r: ClientConfig)
    ensures o.WithPingTimeout? ==> r == c.(pingTimeout := o.d)
    ensures o.WithAppName? ==> r.appName == o.name && r.pingTimeout == c.pingTimeout && r.directConnection == c.directConnection
    ensures o.WithDirectConnection? ==> r.directConnection == Some(o.direct) && r.pingTimeout == c.pingTimeout && r.appName == c.appName
  {
    match o
    case WithPingTimeout(d) => c.(pingTimeout := d)
    case WithAppName(name) => c.(appName := name)
    case WithDirectConnection(direct) => c.(directConnection := Some(direct))
  }

  /** The options run in order over a configuration: the last one ends with its
      value in its field. */
  function ApplyAll(c: ClientConfig, opts: seq<MongoOption>): (r: ClientConfig)
    ensures opts == [] ==> r == c
    ensures opts != [] ==>
      var o := opts[|opts| - 1];
      && (o.WithPingTimeout? ==> r.pingTimeout == o.d)
      && (o.WithAppName? ==> r.appName == o.name)
      && (o.WithDirectConnection? ==> r.directConnection == Some(o.direct))
    decreases |opts|
  {
    if opts == [] then c else ApplyAll(Apply(c, opts[0]), opts[1..])
  }

  /** With no options the ping timeout is five seconds, no app name, no direct flag. */
  lemma DefaultsWithoutOptions()
    ensures ApplyAll(DefaultClientConfig(), []) == ClientConfig(5_000_000_000, "", None)
  {
  }

  /** Options that set other fields do not disturb the ping timeout. */
  lemma {:induction false} PingTimeoutKept(c: ClientConfig, opts: seq<MongoOption>)
    requires forall i | 0 <= i < |opts| :: !opts[i].WithPingTimeout?
    ensures ApplyAll(c, opts).pingTimeout == c.pingTimeout
    decreases |opts|
  {
    if opts != [] {
      PingTimeoutKept(Apply(c, opts[0]), opts[1..]);
    }
  }

  datatype Credential = Credential(username: string, password: string, mechanism: string, source: string)

  datatype AutoEncryption = AutoEncryption(keyVaultNamespace: string, masterKey: seq<int>, bypass: bool)

  /** The client options handed to the driver. */
  datatype ClientOptions = ClientOptions(uri: string, auth: Option<Credential>, appName: Option<string>,
                                         direct: Option<bool>, autoEncryption: Option<AutoEncryption>)

  /** `buildClientOpts`: credentials only with a user name, the auth source
      defaulting to the database; app name and direct flag only when given. */
  function BuildClientOpts(cfg: Config, cc: ClientConfig): (o: ClientOptions)
    ensures o.uri == cfg.host && o.autoEncryption.None?
    ensures o.auth.Some? <==> cfg.auth.username != ""
    ensures o.auth.Some? ==>
      o.auth.value == Credential(cfg.auth.username, cfg.auth.password, cfg.auth.mechanism,
                                 if cfg.auth.source == "" then cfg.database else cfg.auth.source)
    ensures o.appName.Some? <==> cc.appName != ""
    ensures o.appName.Some? ==> o.appName.value == cc.appName
    ensures o.direct == cc.directConnection
  {
    var auth := if cfg.auth.username != "" then
        var source := if cfg.auth.source == "" then cfg.database else cfg.auth.source;
        Some(Credential(cfg.auth.username, cfg.auth.password, cfg.auth.mechanism, source))
      else None;
    ClientOptions(cfg.host, auth, if cc.appName != "" then Some(cc.appName) else None, cc.directConnection, None)
  }

  /** Driver handles: connections, databases on them, an encryption handle. */
  datatype Database = Database(client: int, name: string)

  /** `Client`; an absent handle is a nil pointer. */
  datatype Client = Client(client: Option<int>, db: Option<Database>, plainClient: Option<int>,
                           plainDB: Option<Database>, encryption: Option<int>)

  /** `PlainDB`: the unencrypted database when there is one, else the primary one. */
  function PlainDB(c: Client): (r: Option<Database>)
    ensures c.plainDB.Some? ==> r == c.plainDB
    ensures c.plainDB.None? ==> r == c.db
  {
    if c.plainDB.Some? then c.plainDB else c.db
  }

  /** The handles `Close` shuts, in the order it shuts them. */
  datatype Component = EncryptionHandle | PlainConnection | MainConnection

  function CloseContext(k: Component): string {
    match k
    case EncryptionHandle => "closing encryption handle: "
    case PlainConnection => "disconnecting plain client: "
    case MainConnection => "disconnecting client: "
  }

  function Present(c: Client): seq<Component> {
    (if c.encryption.Some? then [EncryptionHandle] else [])
    + (if c.plainClient.Some? then [PlainConnection] else [])
    + (if c.client.Some? then [MainConnection] else [])
  }

  /** The failure message of one shut-down, with its context; none on success. */
  function FailureOf(k: Component, shut: Component -> Option<string>): seq<string> {
    match shut(k)
    case Some(e) => [CloseContext(k) + e]
    case None => []
  }

  /** The failures of the shut-downs of the present handles, in shut-down order. */
  function CloseFailures(c: Client, shut: Component -> Option<string>): (r: seq<string>)
    ensures |r| <= |Present(c)|
    ensures r == [] <==> forall k | k in Present(c) :: shut(k).None?
  {
    (if c.encryption.Some? then FailureOf(EncryptionHandle, shut) else [])
    + (if c.plainClient.Some? then FailureOf(PlainConnection, shut) else [])
    + (if c.client.Some? then FailureOf(MainConnection, shut) else [])
  }

  /** `errors.Join`: no error for no errors, else the messages one per line. */
  function JoinErrors(errs: seq<string>): Option<string> {
    if errs == [] then None else Some(Join(errs, "\n"))
  }

  datatype CloseOutcome = CloseOutcome(error: Option<string>, shutDown: seq<Component>)

  /** `Close`: encryption handle, then plain client, then client, skipping the
      nil ones; every failure is reported, in that order. */
  method Close(c: Client, shut: Component -> Option<string>) returns (r: CloseOutcome)
    ensures r.shutDown == Present(c)
    ensures r.error == JoinErrors(CloseFailures(c, shut))
    ensures r.error.None? <==> forall k | k in Present(c) :: shut(k).None?
  {
    var errs: seq<string> := [];
    var order: seq<Component> := [];
    if c.encryption.Some? {
      order := order + [EncryptionHandle];
      var err := shut(EncryptionHandle);
      if err.Some? {
        errs := errs + [CloseContext(EncryptionHandle) + err.value];
      }
    }
    ghost var e1 := if c.encryption.Some? then FailureOf(EncryptionHandle, shut) else [];
    assert errs == e1;
    if c.plainClient.Some? {
      order := order + [PlainConnection];
      var err := shut(PlainConnection);
      if err.Some? {
        errs := errs + [CloseContext(PlainConnection) + err.value];
      }
    }
    ghost var e2 := if c.plainClient.Some? then FailureOf(PlainConnection, shut) else [];
    assert errs == e1 + e2;
    if c.client.Some? {
      order := order + [MainConnection];
      var err := shut(MainConnection);
      if err.Some? {
        errs := errs + [CloseContext(MainConnection) + err.value];
      }
    }
    ghost var e3 := if c.client.Some? then FailureOf(MainConnection, shut) else [];
    assert errs == e1 + e2 + e3;
    r := CloseOutcome(JoinErrors(errs), order);
  }

  /** A zero-value client closes with no error and touches nothing. */
  lemma CloseZeroClient(shut: Component -> Option<string>)
    ensures var c := Client(None, None, None, None, None);
      Present(c) == [] && JoinErrors(CloseFailures(c, shut)).None?
  {
  }

  /** The driver calls `Connect` relies on. */
  datatype Driver = Driver(
    connect: ClientOptions -> Result<int, string>,  // mongo.Connect, a client id on success
    ping: (int, int) -> Option<string>,             // client.Ping within a timeout
    newClientEncryption: (int, string, seq<int>) -> Result<int, string>)

  function MasterKeyError(n: int): string {
    "CSFLE MasterKey must be exactly 96 bytes, got " + IntToString(n)
  }

  /** Everything `Connect` does after the options are applied. */
  function ConnectWith(cfg: Config, cc: ClientConfig, d: Driver): (r: Result<Client, string>)
    ensures cfg.csfle.Some? && |cfg.csfle.value.masterKey| != MasterKeyLength ==>
      r == Err(MasterKeyError(|cfg.csfle.value.masterKey|))
    ensures r.Ok? ==> r.value.db.Some? && r.value.db.value.name == cfg.database
    ensures r.Ok? ==> (r.value.plainClient.Some? <==> cfg.csfle.Some?)
    ensures r.Ok? ==> (r.value.encryption.Some? <==> cfg.csfle.Some?)
    ensures r.Ok? ==> PlainDB(r.value).Some? && PlainDB(r.value).value.name == cfg.database
  {
    var base := BuildClientOpts(cfg, cc);
    if cfg.csfle.Some? && |cfg.csfle.value.masterKey| != MasterKeyLength then
      Err(MasterKeyError(|cfg.csfle.value.masterKey|))
    else
      var clientOpts := if cfg.csfle.Some? then
          base.(autoEncryption := Some(AutoEncryption(cfg.csfle.value.keyVaultNamespace, cfg.csfle.value.masterKey, true)))
        else base;
      match d.connect(clientOpts)
      case Err(e) => Err("connecting to MongoDB: " + e)
      case Ok(client) =>
        match d.ping(client, cc.pingTimeout)
        case Some(e) => Err("pinging MongoDB: " + e)
        case None =>
          var c := Client(Some(client), Some(Database(client, cfg.database)), None, None, None);
          if cfg.csfle.None? then Ok(c)
          else
            match d.connect(BuildClientOpts(cfg, cc))
            case Err(e) => Err("connecting plain MongoDB client: " + e)
            case Ok(plain) =>
              match d.newClientEncryption(client, cfg.csfle.value.keyVaultNamespace, cfg.csfle.value.masterKey)
              case Err(e) => Err("creating client encryption: " + e)
              case Ok(ce) => Ok(c.(plainClient := Some(plain), plainDB := Some(Database(plain, cfg.database)),
                                   encryption := Some(ce)))
  }

  /** A master key of the wrong length is refused whatever the driver would do:
      no connection is attempted. */
  lemma MasterKeyCheckedFirst(cfg: Config, cc: ClientConfig, d1: Driver, d2: Driver)
    requires cfg.csfle.Some? && |cfg.csfle.value.masterKey| != MasterKeyLength
    ensures ConnectWith(cfg, cc, d1) == ConnectWith(cfg, cc, d2)
  {
  }

  /** `Connect`: options applied in order, then the connection set-up. */
  method Connect(cfg: Config, opts: seq<MongoOption>, d: Driver) returns (r: Result<Client, string>)
    ensures r == ConnectWith(cfg, ApplyAll(DefaultClientConfig(), opts), d)
  {
    var cc := DefaultClientConfig();
    for i := 0 to |opts|
      invariant ApplyAll(cc, opts[i..]) == ApplyAll(DefaultClientConfig(), opts)
    {
      assert opts[i..][1..] == opts[i + 1..];
      cc := Apply(cc, opts[i]);
    }
    r := ConnectWith(cfg, cc, d);
  }

  /** `IsMongocryptError` on a possibly nil error's message. */
  function IsMongocryptError(err: Option<string>): (r: bool)
    ensures r <==> err.Some? && Contains(err.value, "mongocrypt")
  {
    err.Some? && Contains(err.value, "mongocrypt")
  }

  /** The marker anywhere in the message is enough. */
  lemma MongocryptAnywhere(prefix: string, suffix: string)
    ensures IsMongocryptError(Some(prefix + "mongocrypt" + suffix))
  {
    var m := prefix + "mongocrypt" + suffix;
    assert m[|prefix|..|prefix| + 10] == "mongocrypt";
    ContainsAt(m, "mongocrypt", |prefix|);
  }
}
