/** Redis connection set-up (package `redis`): address defaulting, client options
    and the choice between a Sentinel failover client and a standalone one. */
module Redis {
  import opened Wrappers
  import opened Text

  const Second: int := 1_000_000_000  // time.Duration is in nanoseconds
  const DefaultRedisPort := "6379"

  /** An address carries a port when a `:` follows its last `]` (or occurs
      anywhere, when there is no `]`). */
  predicate HasPort(addr: string) {
    exists i | 0 <= i < |addr| :: addr[i] == ':' && NoBracketAfter(addr, i)
  }

  predicate NoBracketAfter(addr: string, i: int)
    requires 0 <= i < |addr|
  {
    forall j | i < j < |addr| :: addr[j] != ']'
  }

  /** The address a standalone client dials. */
  function ResolvedAddr(addr: string): string {
    if addr == "" then "localhost:" + DefaultRedisPort
    else if HasPort(addr) then addr
    else addr + ":" + DefaultRedisPort
  }

  /** `resolveAddr`: scans from the end for a `:`, stopping at a `]`. */
  method ResolveAddr(addr: string) returns (r: string)
    ensures r == ResolvedAddr(addr)
  {
    if addr == "" {
      return "localhost:" + DefaultRedisPort;
    }
    var i := |addr| - 1;
    while i >= 0
      invariant -1 <= i < |addr|
      invariant forall j | i < j < |addr| :: addr[j] != ':' && addr[j] != ']'
      decreases i
    {
      if addr[i] == ':' {
        assert NoBracketAfter(addr, i);
        return addr;
      }
      if addr[i] == ']' {
        break;
      }
      i := i - 1;
    }
    return addr + ":" + DefaultRedisPort;
  }

  /** The resolved address always names a port. */
  lemma ResolvedHasPort(addr: string)
    ensures HasPort(ResolvedAddr(addr))
    ensures Contains(ResolvedAddr(addr), ":")
  {
    var r := ResolvedAddr(addr);
    var i: int;
    if addr == "" {
      i := 9;
    } else if HasPort(addr) {
      i :| 0 <= i < |addr| && addr[i] == ':' && NoBracketAfter(addr, i);
    } else {
      i := |addr|;
    }
    assert r[i] == ':' && NoBracketAfter(r, i);
    ContainsAt(r, ":", i);
  }

  /** Resolving twice is resolving once. */
  lemma ResolvedAddrIdempotent(addr: string)
    ensures ResolvedAddr(ResolvedAddr(addr)) == ResolvedAddr(addr)
  {
    ResolvedHasPort(addr);
  }

  /** A bracketed IPv6 address without a port gets the default port. */
  lemma BracketedIpv6GetsPort()
    ensures ResolvedAddr("[::1]") == "[::1]:6379"
    ensures ResolvedAddr("[::1]:7000") == "[::1]:7000"
  {
    var a := "[::1]";
    assert !HasPort(a) by {
      forall i | 0 <= i < |a| && a[i] == ':' ensures !NoBracketAfter(a, i) {
        assert a[4] == ']';
      }
    }
    var b := "[::1]:7000";
    assert b[5] == ':' && NoBracketAfter(b, 5);
  }

  /** Internal client settings; durations in nanoseconds. */
  datatype ClientConfig = ClientConfig(pingTimeout: int, poolSize: int, minIdleConns: int,
                                       dialTimeout: int, readTimeout: int, writeTimeout: int)

  function DefaultClientConfig(): ClientConfig {
    ClientConfig(5 * Second, 10, 2, 5 * Second, 3 * Second, 3 * Second)
  }

  /** The six `With*` options. */
  datatype ClientOption =
    | WithPingTimeout(d: int)
    | WithPoolSize(n: int)
    | WithMinIdleConns(n: int)
    | WithDialTimeout(d: int)
    | WithReadTimeout(d: int)
    | WithWriteTimeout(d: int)

  /** The settings, each named by the option that sets it. */
  datatype Field = PingTimeout | PoolSize | MinIdleConns | DialTimeout | ReadTimeout | WriteTimeout

  function Get(c: ClientConfig, f: Field): int {
    match f
    case PingTimeout => c.pingTimeout
    case PoolSize => c.poolSize
    case MinIdleConns => c.minIdleConns
    case DialTimeout => c.dialTimeout
    case ReadTimeout => c.readTimeout
    case WriteTimeout => c.writeTimeout
  }

  function FieldOf(o: ClientOption): Field {
    match o
    case WithPingTimeout(_) => PingTimeout
    case WithPoolSize(_) => PoolSize
    case WithMinIdleConns(_) => MinIdleConns
    case WithDialTimeout(_) => DialTimeout
    case WithReadTimeout(_) => ReadTimeout
    case WithWriteTimeout(_) => WriteTimeout
  }

  function ValueOf(o: ClientOption): int {
    match o
    case WithPingTimeout(d) => d
    case WithPoolSize(n) => n
    case WithMinIdleConns(n) => n
    case WithDialTimeout(d) => d
    case WithReadTimeout(d) => d
    case WithWriteTimeout(d) => d
  }

  /** An option sets its own field to its value and leaves every other field alone. */
  function Apply(c: ClientConfig, o: ClientOption): (r: ClientConfig)
    ensures Get(r, FieldOf(o)) == ValueOf(o)
    ensures forall f | f != FieldOf(o) :: Get(r, f) == Get(c, f)
  {
    match o
    case WithPingTimeout(d) => c.(pingTimeout := d)
    case WithPoolSize(n) => c.(poolSize := n)
    case WithMinIdleConns(n) => c.(minIdleConns := n)
    case WithDialTimeout(d) => c.(dialTimeout := d)
    case WithReadTimeout(d) => c.(readTimeout := d)
    case WithWriteTimeout(d) => c.(writeTimeout := d)
  }

  /** `Connect` runs the options over the defaults in order: the last option ends
      with its value in its field, and a field no option names keeps its value. */
  function ApplyAll(c: ClientConfig, opts: seq<ClientOption>): (r: ClientConfig)
    ensures opts != [] ==> Get(r, FieldOf(opts[|opts| - 1])) == ValueOf(opts[|opts| - 1])
    ensures forall f | (forall i | 0 <= i < |opts| :: FieldOf(opts[i]) != f) :: Get(r, f) == Get(c, f)
    decreases |opts|
  {
    if opts == [] then c else ApplyAll(Apply(c, opts[0]), opts[1..])
  }

  /** Without options the client gets a 5 s ping and dial timeout, a pool of 10
      with 2 idle connections, and 3 s read and write timeouts. */
  lemma DefaultsWithoutOptions()
    ensures ApplyAll(DefaultClientConfig(), [])
         == ClientConfig(5_000_000_000, 10, 2, 5_000_000_000, 3_000_000_000, 3_000_000_000)
  {
  }

  /** The value the last option for `f` gives it, if any option does. */
  function LastSet(opts: seq<ClientOption>, f: Field): Option<int>
    decreases |opts|
  {
    if opts == [] then None
    else if FieldOf(opts[|opts| - 1]) == f then Some(ValueOf(opts[|opts| - 1]))
    else LastSet(opts[..|opts| - 1], f)
  }

  lemma {:induction false} ApplyAllSnoc(c: ClientConfig, opts: seq<ClientOption>, o: ClientOption)
    ensures ApplyAll(c, opts + [o]) == Apply(ApplyAll(c, opts), o)
    decreases |opts|
  {
    if opts != [] {
      assert (opts + [o])[1..] == opts[1..] + [o];
      ApplyAllSnoc(Apply(c, opts[0]), opts[1..], o);
    }
  }

  /** Options apply in order: each field ends with the value of the last option
      that sets it, or keeps its starting value. */
  lemma {:induction false} LastOptionWins(c: ClientConfig, opts: seq<ClientOption>, f: Field)
    ensures Get(ApplyAll(c, opts), f) == LastSet(opts, f).GetOr(Get(c, f))
    decreases |opts|
  {
    if opts != [] {
      var init := opts[..|opts| - 1];
      assert opts == init + [opts[|opts| - 1]];
      ApplyAllSnoc(c, init, opts[|opts| - 1]);
      LastOptionWins(c, init, f);
    }
  }

  datatype AuthConfig = AuthConfig(username: string, password: string)
  datatype SentinelConfig = SentinelConfig(masterName: string, nodes: seq<string>)
  datatype Config = Config(addr: string, db: int, auth: AuthConfig, sentinel: Option<SentinelConfig>)

  /** The client `Connect` builds: a Sentinel failover client or a standalone one. */
  datatype UniversalClient =
    | FailoverClient(masterName: string, sentinelAddrs: seq<string>, auth: AuthConfig, db: int, settings: ClientConfig)
    | StandaloneClient(addr: string, auth: AuthConfig, db: int, settings: ClientConfig)

  function ChooseClient(cfg: Config, cc: ClientConfig): (u: UniversalClient)
    ensures u.FailoverClient? <==> cfg.sentinel.Some? && cfg.sentinel.value.masterName != ""
    ensures u.StandaloneClient? ==> u.addr == ResolvedAddr(cfg.addr)
    ensures u.auth == cfg.auth && u.db == cfg.db && u.settings == cc
  {
    if cfg.sentinel.Some? && cfg.sentinel.value.masterName != "" then
      FailoverClient(cfg.sentinel.value.masterName, cfg.sentinel.value.nodes, cfg.auth, cfg.db, cc)
    else StandaloneClient(ResolvedAddr(cfg.addr), cfg.auth, cfg.db, cc)
  }

  /** `Connect`; `ping` is the outcome of pinging a client within its ping timeout. */
  method Connect(cfg: Config, opts: seq<ClientOption>, ping: UniversalClient -> Option<string>)
    returns (r: Result<UniversalClient, string>)
    ensures var u := ChooseClient(cfg, ApplyAll(DefaultClientConfig(), opts));
      r == if ping(u).Some? then Err("pinging Redis: " + ping(u).value) else Ok(u)
  {
    var cc := DefaultClientConfig();
    for i := 0 to |opts|
      invariant ApplyAll(cc, opts[i..]) == ApplyAll(DefaultClientConfig(), opts)
    {
      assert opts[i..][1..] == opts[i + 1..];
      cc := Apply(cc, opts[i]);
    }
    var uc: UniversalClient;
    if cfg.sentinel.Some? && cfg.sentinel.value.masterName != "" {
      uc := FailoverClient(cfg.sentinel.value.masterName, cfg.sentinel.value.nodes, cfg.auth, cfg.db, cc);
    } else {
      var addr := ResolveAddr(cfg.addr);
      uc := StandaloneClient(addr, cfg.auth, cfg.db, cc);
    }
    var err := ping(uc);
    if err.Some? {
      return Err("pinging Redis: " + err.value);
    }
    return Ok(uc);
  }
}
