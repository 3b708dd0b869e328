/**
 * How `main` in serial2amqp.c settles its configuration: compiled-in
 * defaults, then environment variables, then command-line options, each
 * string copied into its fixed global buffer by the truncating `strlcpy`
 * macro; then the broker port is checked.
 */
module Configuration {
  import opened Util
  import opened CStrings
  import Logging

  /** The settings held in global character buffers. */
  datatype TextKey = Device | Hostname | Vhost | Username | Password | Exchange | RoutingKey

  /** The size of each global buffer. */
  function Capacity(k: TextKey): (n: nat)
    ensures n >= 32
  {
    match k
    case Device => 100
    case Hostname => 255
    case Vhost => 64
    case Username => 64
    case Password => 64
    case Exchange => 32
    case RoutingKey => 128
  }

  function EnvName(k: TextKey): (r: string)
  {
    match k
    case Device => "S2A_DEVICE"
    case Hostname => "AMQP_HOSTNAME"
    case Vhost => "AMQP_VHOST"
    case Username => "AMQP_USERNAME"
    case Password => "AMQP_PASSWORD"
    case Exchange => "AMQP_EXCHANGE"
    case RoutingKey => "AMQP_ROUTINGKEY"
  }

  const PortEnvName: string := "AMQP_PORT"

  /** The short option that sets each buffer. */
  function OptionCode(k: TextKey): (c: char)
  {
    match k
    case Device => 'D'
    case Hostname => 'H'
    case Vhost => 'V'
    case Username => 'U'
    case Password => 'P'
    case Exchange => 'E'
    case RoutingKey => 'K'
  }

  const UserDefault: string := "guest"      // AMQP_USERNAME
  const PasswordDefault: string := "guest"  // AMQP_PASSWORD

  /** The initial contents of each buffer; the user name is initialised from the password constant and vice versa. */
  function DefaultText(k: TextKey): (r: string)
  {
    match k
    case Device => "/dev/ttyS0"
    case Hostname => "amqpbroker"
    case Vhost => "/"
    case Username => PasswordDefault
    case Password => UserDefault
    case Exchange => "amq.direct"
    case RoutingKey => "serial2amqp"
  }

  const DefaultDebugLevel: int := 1
  const DefaultPort: int := 5672

  /** The configuration globals, as values. */
  datatype Settings = Settings(
    device: string, debugLevel: int, foreground: bool, hostname: string, port: int,
    vhost: string, username: string, password: string, exchange: string, routingKey: string)
  {
    function Text(k: TextKey): (r: string)
    {
      match k
      case Device => device
      case Hostname => hostname
      case Vhost => vhost
      case Username => username
      case Password => password
      case Exchange => exchange
      case RoutingKey => routingKey
    }

    function WithText(k: TextKey, v: string): (s: Settings)
      ensures s.Text(k) == v
      ensures s.debugLevel == debugLevel && s.foreground == foreground && s.port == port
    {
      match k
      case Device => this.(device := v)
      case Hostname => this.(hostname := v)
      case Vhost => this.(vhost := v)
      case Username => this.(username := v)
      case Password => this.(password := v)
      case Exchange => this.(exchange := v)
      case RoutingKey => this.(routingKey := v)
    }
  }

  const Defaults: Settings := Settings(
    DefaultText(Device), DefaultDebugLevel, false, DefaultText(Hostname), DefaultPort,
    DefaultText(Vhost), DefaultText(Username), DefaultText(Password),
    DefaultText(Exchange), DefaultText(RoutingKey))

  /** Replacing one string setting leaves the other strings alone. */
  lemma TextOfWithText(s: Settings, k: TextKey, v: string, k': TextKey)
    ensures s.WithText(k, v).Text(k') == if k' == k then v else s.Text(k')
  {
    match k {
      case Device =>
      case Hostname =>
      case Vhost =>
      case Username =>
      case Password =>
      case Exchange =>
      case RoutingKey =>
    }
  }

  /** Every string setting fits its buffer with its terminator. */
  ghost predicate FitsBuffers(s: Settings)
  {
    forall k :: |s.Text(k)| < Capacity(k) && NUL !in s.Text(k)
  }

  /** Each default fits its buffer, terminator included. */
  lemma DefaultTextFits(k: TextKey)
    ensures |DefaultText(k)| < Capacity(k) && NUL !in DefaultText(k)
  {
    match k {
      case Device => assert DefaultText(k) == "/dev/ttyS0";
      case Hostname => assert DefaultText(k) == "amqpbroker";
      case Vhost => assert DefaultText(k) == "/";
      case Username => assert DefaultText(k) == "guest";
      case Password => assert DefaultText(k) == "guest";
      case Exchange => assert DefaultText(k) == "amq.direct";
      case RoutingKey => assert DefaultText(k) == "serial2amqp";
    }
  }

  lemma DefaultsFitBuffers()
    ensures FitsBuffers(Defaults)
  {
    forall k ensures |Defaults.Text(k)| < Capacity(k) && NUL !in Defaults.Text(k) {
      DefaultTextFits(k);
      assert Defaults.Text(k) == DefaultText(k) by {
        match k {
          case Device =>
          case Hostname =>
          case Vhost =>
          case Username =>
          case Password =>
          case Exchange =>
          case RoutingKey =>
        }
      }
    }
  }

  // ---------------------------------------------------------------- fields

  /** One configurable setting, for statements that hold of each of them. */
  datatype Field = TextField(key: TextKey) | PortField | DebugLevelField | ForegroundField
  datatype Value = Str(s: string) | Num(n: int) | Flag(b: bool)

  function Get(s: Settings, f: Field): (v: Value)
  {
    match f
    case TextField(k) => Str(s.Text(k))
    case PortField => Num(s.port)
    case DebugLevelField => Num(s.debugLevel)
    case ForegroundField => Flag(s.foreground)
  }

  /** Replacing one string setting changes that field and no other. */
  lemma GetWithText(s: Settings, k: TextKey, v: string, f: Field)
    ensures Get(s.WithText(k, v), f) == if f == TextField(k) then Str(v) else Get(s, f)
  {
    if f.TextField? {
      TextOfWithText(s, k, v, f.key);
    }
  }

  // ---------------------------------------------------------------- environment

  type Environment = map<string, string>

  /** The variable a setting is read from, if any. */
  function EnvVar(f: Field): (r: Option<string>)
  {
    match f
    case TextField(k) => Some(EnvName(k))
    case PortField => Some(PortEnvName)
    case _ => None
  }

  /** The value a variable's text gives a setting. */
  function FromEnvironment(f: Field, raw: string): (v: Value)
  {
    match f
    case TextField(k) => Str(Copied(raw, Capacity(k)))
    case _ => Num(Atoi(raw))
  }

  /** One `if (NULL != getenv(name)) strlcpy(...)` line. */
  function LoadText(s: Settings, env: Environment, k: TextKey): (r: Settings)
    ensures r.debugLevel == s.debugLevel && r.foreground == s.foreground && r.port == s.port
    ensures EnvName(k) in env ==> r.Text(k) == Copied(env[EnvName(k)], Capacity(k))
    ensures EnvName(k) !in env ==> r == s
  {
    if EnvName(k) in env then s.WithText(k, Copied(env[EnvName(k)], Capacity(k))) else s
  }

  /** The `AMQP_PORT` line, which reads the number with `atoi`. */
  function LoadPort(s: Settings, env: Environment): (r: Settings)
    ensures r == s.(port := r.port)
    ensures r.port == if PortEnvName in env then Atoi(env[PortEnvName]) else s.port
  {
    if PortEnvName in env then s.(port := Atoi(env[PortEnvName])) else s
  }

  /** The `getenv` block at the top of `main`, line by line in its order. */
  function ApplyEnvironment(s: Settings, env: Environment): (r: Settings)
    ensures r.debugLevel == s.debugLevel && r.foreground == s.foreground
    ensures PortEnvName !in env ==> r.port == s.port
  {
    LoadText(LoadText(LoadText(LoadText(LoadText(
      LoadPort(LoadText(LoadText(s, env, Device), env, Hostname), env),
      env, Username), env, Password), env, Vhost), env, Exchange), env, RoutingKey)
  }

  /** The value a `getenv` line stores for `k`. */
  function EnvText(env: Environment, k: TextKey): (v: Value)
    requires EnvName(k) in env
  {
    Str(Copied(env[EnvName(k)], Capacity(k)))
  }

  /** One `getenv` line sets its buffer when the variable is set and touches nothing else. */
  lemma LoadTextEffect(s: Settings, env: Environment, k: TextKey, f: Field)
    ensures Get(LoadText(s, env, k), f) == if f == TextField(k) && EnvName(k) in env then EnvText(env, k) else Get(s, f)
  {
    if EnvName(k) in env {
      GetWithText(s, k, Copied(env[EnvName(k)], Capacity(k)), f);
    }
  }

  /** The `AMQP_PORT` line sets the port when the variable is set and touches nothing else. */
  lemma LoadPortEffect(s: Settings, env: Environment, f: Field)
    ensures Get(LoadPort(s, env), f) == if f == PortField && PortEnvName in env then Num(Atoi(env[PortEnvName])) else Get(s, f)
  {
  }

  /** The `getenv` block, field by field: the one line that sets `f`, if any, decides it. */
  lemma EnvironmentChain(s: Settings, env: Environment, f: Field)
    ensures Get(ApplyEnvironment(s, env), f) ==
      if f == TextField(RoutingKey) && EnvName(RoutingKey) in env then EnvText(env, RoutingKey)
      else if f == TextField(Exchange) && EnvName(Exchange) in env then EnvText(env, Exchange)
      else if f == TextField(Vhost) && EnvName(Vhost) in env then EnvText(env, Vhost)
      else if f == TextField(Password) && EnvName(Password) in env then EnvText(env, Password)
      else if f == TextField(Username) && EnvName(Username) in env then EnvText(env, Username)
      else if f == PortField && PortEnvName in env then Num(Atoi(env[PortEnvName]))
      else if f == TextField(Hostname) && EnvName(Hostname) in env then EnvText(env, Hostname)
      else if f == TextField(Device) && EnvName(Device) in env then EnvText(env, Device)
      else Get(s, f)
  {
    var s1 := LoadText(s, env, Device);
    var s2 := LoadText(s1, env, Hostname);
    var s3 := LoadPort(s2, env);
    var s4 := LoadText(s3, env, Username);
    var s5 := LoadText(s4, env, Password);
    var s6 := LoadText(s5, env, Vhost);
    var s7 := LoadText(s6, env, Exchange);
    LoadTextEffect(s, env, Device, f);
    LoadTextEffect(s1, env, Hostname, f);
    LoadPortEffect(s2, env, f);
    LoadTextEffect(s3, env, Username, f);
    LoadTextEffect(s4, env, Password, f);
    LoadTextEffect(s5, env, Vhost, f);
    LoadTextEffect(s6, env, Exchange, f);
    LoadTextEffect(s7, env, RoutingKey, f);
  }

  /** A setting takes its variable's value when the variable is set, and is left alone otherwise. */
  lemma ApplyEnvironmentEffect(s: Settings, env: Environment, f: Field)
    ensures Get(ApplyEnvironment(s, env), f) ==
      if EnvVar(f).Some? && EnvVar(f).value in env then FromEnvironment(f, env[EnvVar(f).value])
      else Get(s, f)
  {
    EnvironmentChain(s, env, f);
    match f {
      case TextField(k) =>
        match k {
          case Device =>
          case Hostname =>
          case Vhost =>
          case Username =>
          case Password =>
          case Exchange =>
          case RoutingKey =>
        }
      case _ =>
    }
  }

  // ---------------------------------------------------------------- options

  /** One result of `getopt_long`: the option character and its `optarg`. */
  datatype Opt = Opt(code: char, arg: string)

  /** The option characters the `switch` handles; any other (`'?'` included) prints the help and exits with 1. */
  const HandledCodes: string := "\0DHpUPEKVdfq"

  predicate Handled(c: char)
  {
    c in HandledCodes
  }

  predicate RequestsHelp(opts: seq<Opt>)
  {
    exists i :: 0 <= i < |opts| && !Handled(opts[i].code)
  }

  function TextKeyOf(c: char): (r: Option<TextKey>)
    ensures r.Some? ==> OptionCode(r.value) == c
    ensures forall k :: OptionCode(k) == c ==> r == Some(k)
  {
    if c == 'D' then Some(Device)
    else if c == 'H' then Some(Hostname)
    else if c == 'U' then Some(Username)
    else if c == 'P' then Some(Password)
    else if c == 'E' then Some(Exchange)
    else if c == 'K' then Some(RoutingKey)
    else if c == 'V' then Some(Vhost)
    else None
  }

  /** The `-d` normalisation: a level outside 0..9 becomes the default 1, not the nearest bound. */
  function NormaliseDebugLevel(n: int): (r: int)
    ensures 0 <= r <= 9
    ensures r == n <==> 0 <= n <= 9
    ensures !(0 <= n <= 9) ==> r == DefaultDebugLevel
  {
    var lvl := if n >= 0 then n else DefaultDebugLevel;
    if lvl <= 9 then lvl else DefaultDebugLevel
  }

  /** One pass through the `switch` of the option loop (a code it does not handle changes nothing). */
  function ApplyOption(s: Settings, o: Opt): (r: Settings)
    ensures s.foreground ==> r.foreground
  {
    match TextKeyOf(o.code)
    case Some(k) => s.WithText(k, Copied(o.arg, Capacity(k)))
    case None =>
      if o.code == 'p' then s.(port := Atoi(o.arg))
      else if o.code == 'd' then s.(debugLevel := NormaliseDebugLevel(Atoi(o.arg)))
      else if o.code == 'f' then s.(foreground := true)
      else if o.code == 'q' then s.(debugLevel := -1)
      else s
  }

  /** The option loop: options in order, up to the first one that ends the process. */
  function ApplyOptions(s: Settings, opts: seq<Opt>): (r: Settings)
    ensures s.foreground ==> r.foreground
    decreases |opts|
  {
    if |opts| == 0 || !Handled(opts[0].code) then s
    else ApplyOptions(ApplyOption(s, opts[0]), opts[1..])
  }

  /** Whether an option sets a field. */
  predicate Writes(o: Opt, f: Field)
  {
    match f
    case TextField(k) => o.code == OptionCode(k)
    case PortField => o.code == 'p'
    case DebugLevelField => o.code == 'd' || o.code == 'q'
    case ForegroundField => o.code == 'f'
  }

  /** The value an option gives the field it sets. */
  function Written(o: Opt, f: Field): (v: Value)
    requires Writes(o, f)
  {
    match f
    case TextField(k) => Str(Copied(o.arg, Capacity(k)))
    case PortField => Num(Atoi(o.arg))
    case DebugLevelField => if o.code == 'q' then Num(-1) else Num(NormaliseDebugLevel(Atoi(o.arg)))
    case ForegroundField => Flag(true)
  }

  /** Every option that sets a field is one the `switch` handles. */
  lemma WrittenCodesAreHandled(o: Opt, f: Field)
    requires Writes(o, f)
    ensures Handled(o.code)
  {
    match f {
      case TextField(k) =>
        match k {
          case Device => assert HandledCodes[1] == 'D';
          case Hostname => assert HandledCodes[2] == 'H';
          case Username => assert HandledCodes[4] == 'U';
          case Password => assert HandledCodes[5] == 'P';
          case Exchange => assert HandledCodes[6] == 'E';
          case RoutingKey => assert HandledCodes[7] == 'K';
          case Vhost => assert HandledCodes[8] == 'V';
        }
      case PortField => assert HandledCodes[3] == 'p';
      case DebugLevelField => assert HandledCodes[9] == 'd' && HandledCodes[11] == 'q';
      case ForegroundField => assert HandledCodes[10] == 'f';
    }
  }

  /** An option sets the fields it names to its value and leaves every other field alone. */
  lemma ApplyOptionEffect(s: Settings, o: Opt, f: Field)
    ensures Get(ApplyOption(s, o), f) == if Writes(o, f) then Written(o, f) else Get(s, f)
  {
    match TextKeyOf(o.code) {
      case Some(k) => TextOptionEffect(s, o, k, f);
      case None => OtherOptionEffect(s, o, f);
    }
  }

  lemma TextOptionEffect(s: Settings, o: Opt, k: TextKey, f: Field)
    requires TextKeyOf(o.code) == Some(k)
    ensures Get(ApplyOption(s, o), f) == if Writes(o, f) then Written(o, f) else Get(s, f)
  {
    GetWithText(s, k, Copied(o.arg, Capacity(k)), f);
    match f {
      case TextField(k') =>
      case PortField =>
        assert o.code != 'p';
      case DebugLevelField =>
        assert o.code != 'd' && o.code != 'q';
      case ForegroundField =>
        assert o.code != 'f';
    }
  }

  lemma OtherOptionEffect(s: Settings, o: Opt, f: Field)
    requires TextKeyOf(o.code) == None
    ensures Get(ApplyOption(s, o), f) == if Writes(o, f) then Written(o, f) else Get(s, f)
  {
    var r := ApplyOption(s, o);
    if o.code == 'p' {
      assert r == s.(port := Atoi(o.arg));
    } else if o.code == 'd' {
      assert r == s.(debugLevel := NormaliseDebugLevel(Atoi(o.arg)));
    } else if o.code == 'f' {
      assert r == s.(foreground := true);
    } else if o.code == 'q' {
      assert r == s.(debugLevel := -1);
    } else {
      assert r == s;
    }
    match f {
      case TextField(k') =>
        assert o.code != OptionCode(k');
      case _ =>
    }
  }

  lemma StepOptions(s: Settings, opts: seq<Opt>)
    requires |opts| > 0 && Handled(opts[0].code)
    ensures ApplyOptions(s, opts) == ApplyOptions(ApplyOption(s, opts[0]), opts[1..])
  {
  }

  /** A field no option sets keeps its value through the whole option loop. */
  lemma {:induction false} UnwrittenFieldKept(s: Settings, opts: seq<Opt>, f: Field)
    requires forall j :: 0 <= j < |opts| ==> !Writes(opts[j], f)
    ensures Get(ApplyOptions(s, opts), f) == Get(s, f)
    decreases |opts|
  {
    if |opts| > 0 && Handled(opts[0].code) {
      ApplyOptionEffect(s, opts[0], f);
      UnwrittenFieldKept(ApplyOption(s, opts[0]), opts[1..], f);
    }
  }

  /**
   * Among repeated options the last one processed wins: when option `i` is
   * the last to set `f`, and no option before it ends the process, `f` ends
   * with the value option `i` gives it, whatever came before.
   */
  lemma {:induction false} LastOptionWins(s: Settings, opts: seq<Opt>, f: Field, i: nat)
    requires i < |opts| && Writes(opts[i], f)
    requires forall j :: i < j < |opts| ==> !Writes(opts[j], f)
    requires forall j :: 0 <= j < i ==> Handled(opts[j].code)
    ensures Get(ApplyOptions(s, opts), f) == Written(opts[i], f)
    decreases |opts|
  {
    assert Handled(opts[i].code) by {
      WrittenCodesAreHandled(opts[i], f);
    }
    assert Handled(opts[0].code);
    StepOptions(s, opts);
    var t := ApplyOption(s, opts[0]);
    if i == 0 {
      ApplyOptionEffect(s, opts[0], f);
      UnwrittenFieldKept(t, opts[1..], f);
    } else {
      assert opts[1..][i - 1] == opts[i];
      LastOptionWins(t, opts[1..], f, i - 1);
    }
  }

  /** The verbosity stays within -1..9 through the option loop. */
  lemma {:induction false} DebugLevelStaysInRange(s: Settings, opts: seq<Opt>)
    requires -1 <= s.debugLevel <= 9
    ensures -1 <= ApplyOptions(s, opts).debugLevel <= 9
    decreases |opts|
  {
    if |opts| > 0 && Handled(opts[0].code) {
      DebugLevelStaysInRange(ApplyOption(s, opts[0]), opts[1..]);
    }
  }

  /** Every copy the option loop makes fits its buffer. */
  lemma {:induction false} OptionsFitBuffers(s: Settings, opts: seq<Opt>)
    requires FitsBuffers(s)
    ensures FitsBuffers(ApplyOptions(s, opts))
    decreases |opts|
  {
    if |opts| > 0 && Handled(opts[0].code) {
      var t := ApplyOption(s, opts[0]);
      forall k
        ensures |t.Text(k)| < Capacity(k) && NUL !in t.Text(k)
      {
        ApplyOptionEffect(s, opts[0], TextField(k));
      }
      OptionsFitBuffers(t, opts[1..]);
    }
  }

  /** `-d N` with N printed in decimal yields N when 0 <= N <= 9 and the default 1 otherwise. */
  lemma DebugOptionValue(n: int)
    ensures Written(Opt('d', IntToString(n)), DebugLevelField) == Num(if 0 <= n <= 9 then n else DefaultDebugLevel)
  {
    AtoiReadsIntToString(n, "");
    assert IntToString(n) + "" == IntToString(n);
  }

  // ---------------------------------------------------------------- validation

  /** The "Bad port" check: accepted exactly when the port lies in 0..65535. */
  function ValidatePort(port: int): (r: Option<Logging.Fatal>)
    ensures r.None? <==> 0 <= port <= 65535
    ensures r.Some? ==> r.value.exitCode == 1 && r.value.syslogText == "ERROR: Bad port"
  {
    if port < 0 then Some(Logging.Bomb(1, "Bad port", false))
    else if port > 65535 then Some(Logging.Bomb(1, "Bad port", false))
    else None
  }

  /** How the configuration phase of `main` ends. */
  datatype Startup = Ready(settings: Settings) | ShowHelp(exitCode: int) | Abort(fatal: Logging.Fatal)

  /** Environment, then options, then the port check, starting from the given settings. */
  function StartupFrom(s: Settings, env: Environment, opts: seq<Opt>): (r: Startup)
    ensures r.ShowHelp? <==> RequestsHelp(opts)
    ensures r.ShowHelp? ==> r.exitCode == 1
    ensures r.Ready? ==> 0 <= r.settings.port <= 65535
  {
    if RequestsHelp(opts) then ShowHelp(1)
    else
      var t := ApplyOptions(ApplyEnvironment(s, env), opts);
      match ValidatePort(t.port)
      case Some(fatal) => Abort(fatal)
      case None => Ready(t)
  }

  function Resolve(env: Environment, opts: seq<Opt>): (r: Startup)
    ensures r.Abort? ==> r.fatal.exitCode == 1 && r.fatal.syslogText == "ERROR: Bad port"
  {
    StartupFrom(Defaults, env, opts)
  }

  /** A command-line option overrides the environment and the default: the last one given wins. */
  lemma OptionOverridesEnvironment(env: Environment, opts: seq<Opt>, f: Field, i: nat)
    requires i < |opts| && Writes(opts[i], f)
    requires forall j :: i < j < |opts| ==> !Writes(opts[j], f)
    requires Resolve(env, opts).Ready?
    ensures Get(Resolve(env, opts).settings, f) == Written(opts[i], f)
  {
    LastOptionWins(ApplyEnvironment(Defaults, env), opts, f, i);
  }

  /** Without an option for it, a setting comes from its environment variable when set, else from the default. */
  lemma EnvironmentOverridesDefault(env: Environment, opts: seq<Opt>, f: Field)
    requires forall j :: 0 <= j < |opts| ==> !Writes(opts[j], f)
    requires Resolve(env, opts).Ready?
    ensures Get(Resolve(env, opts).settings, f) ==
      if EnvVar(f).Some? && EnvVar(f).value in env then FromEnvironment(f, env[EnvVar(f).value])
      else Get(Defaults, f)
  {
    UnwrittenFieldKept(ApplyEnvironment(Defaults, env), opts, f);
    ApplyEnvironmentEffect(Defaults, env, f);
  }

  /** The configuration `main` goes on with has its port in range, its verbosity in -1..9 and every string within its buffer. */
  lemma ReadyIsWellFormed(env: Environment, opts: seq<Opt>)
    requires Resolve(env, opts).Ready?
    ensures var t := Resolve(env, opts).settings;
      0 <= t.port <= 65535 && -1 <= t.debugLevel <= 9 && FitsBuffers(t)
  {
    var e := ApplyEnvironment(Defaults, env);
    DebugLevelStaysInRange(e, opts);
    DefaultsFitBuffers();
    assert FitsBuffers(e) by {
      forall k ensures |e.Text(k)| < Capacity(k) && NUL !in e.Text(k) {
        ApplyEnvironmentEffect(Defaults, env, TextField(k));
      }
    }
    OptionsFitBuffers(e, opts);
  }

  /** `main` takes the "Bad port" path exactly when no option asks for the help and the resolved port is out of range. */
  lemma BadPortIff(env: Environment, opts: seq<Opt>)
    ensures Resolve(env, opts).Abort? <==>
      !RequestsHelp(opts) && !(0 <= ApplyOptions(ApplyEnvironment(Defaults, env), opts).port <= 65535)
  {
  }

  // ---------------------------------------------------------------- the globals

  /** `char buffer[Capacity(k)] = DEFAULT;`: the default text, the rest of the buffer zero-filled. */
  method NewBuffer(k: TextKey) returns (a: array<char>)
    ensures fresh(a) && a.Length == Capacity(k)
    ensures CString(a[..]) == DefaultText(k)
  {
    var text := DefaultText(k);
    DefaultTextFits(k);
    a := new char[Capacity(k)](i => if 0 <= i < |text| then text[i] else NUL);
    assert a[..][..|text|] == text;
    CStringUnique(a[..], text);
  }

  /** The configuration globals of serial2amqp.c: fixed character buffers and three integers. */
  class Config {
    const serialDevice: array<char>
    const amqpHostname: array<char>
    const amqpVhost: array<char>
    const amqpUsername: array<char>
    const amqpPassword: array<char>
    const amqpExchange: array<char>
    const amqpRoutingKey: array<char>
    var debugLevel: int
    var foregroundFlag: bool
    var amqpPort: int

    function Buffer(k: TextKey): array<char>
    {
      match k
      case Device => serialDevice
      case Hostname => amqpHostname
      case Vhost => amqpVhost
      case Username => amqpUsername
      case Password => amqpPassword
      case Exchange => amqpExchange
      case RoutingKey => amqpRoutingKey
    }

    ghost function Repr(): set<object>
    {
      {this, serialDevice, amqpHostname, amqpVhost, amqpUsername, amqpPassword, amqpExchange, amqpRoutingKey}
    }

    /** Each buffer has its declared size and is a buffer of its own. */
    ghost predicate Valid()
    {
      && serialDevice.Length == Capacity(Device) && amqpHostname.Length == Capacity(Hostname)
      && amqpVhost.Length == Capacity(Vhost) && amqpUsername.Length == Capacity(Username)
      && amqpPassword.Length == Capacity(Password) && amqpExchange.Length == Capacity(Exchange)
      && amqpRoutingKey.Length == Capacity(RoutingKey)
      && serialDevice != amqpHostname && serialDevice != amqpVhost && serialDevice != amqpUsername
      && serialDevice != amqpPassword && serialDevice != amqpExchange && serialDevice != amqpRoutingKey
      && amqpHostname != amqpVhost && amqpHostname != amqpUsername && amqpHostname != amqpPassword
      && amqpHostname != amqpExchange && amqpHostname != amqpRoutingKey
      && amqpVhost != amqpUsername && amqpVhost != amqpPassword && amqpVhost != amqpExchange
      && amqpVhost != amqpRoutingKey
      && amqpUsername != amqpPassword && amqpUsername != amqpExchange && amqpUsername != amqpRoutingKey
      && amqpPassword != amqpExchange && amqpPassword != amqpRoutingKey
      && amqpExchange != amqpRoutingKey
    }

    /** The configuration the globals hold. */
    function Current(): (s: Settings)
      reads this, serialDevice, amqpHostname, amqpVhost, amqpUsername, amqpPassword, amqpExchange, amqpRoutingKey
    {
      Settings(CString(serialDevice[..]), debugLevel, foregroundFlag, CString(amqpHostname[..]), amqpPort,
               CString(amqpVhost[..]), CString(amqpUsername[..]), CString(amqpPassword[..]),
               CString(amqpExchange[..]), CString(amqpRoutingKey[..]))
    }

    /** The static initialisers. */
    constructor ()
      ensures Valid()
      ensures Current() == Defaults
    {
      var device := NewBuffer(Device);
      var hostname := NewBuffer(Hostname);
      var vhost := NewBuffer(Vhost);
      var username := NewBuffer(Username);
      var password := NewBuffer(Password);
      var exchange := NewBuffer(Exchange);
      var routingKey := NewBuffer(RoutingKey);
      serialDevice, amqpHostname, amqpVhost := device, hostname, vhost;
      amqpUsername, amqpPassword, amqpExchange, amqpRoutingKey := username, password, exchange, routingKey;
      debugLevel := DefaultDebugLevel;
      foregroundFlag := false;
      amqpPort := DefaultPort;
      new;
      assert Valid();
    }

    /** `strlcpy(buffer, src, sizeof(buffer))` into the buffer of `k`. */
    method SetText(k: TextKey, src: string)
      requires Valid()
      modifies Buffer(k)
      ensures Current() == old(Current()).WithText(k, Copied(src, Capacity(k)))
    {
      Strlcpy(Buffer(k), src);
    }

    /** The `getenv` block at the top of `main`, in its order. */
    method LoadEnvironment(env: Environment)
      requires Valid()
      modifies Repr()
      ensures Current() == ApplyEnvironment(old(Current()), env)
    {
      LoadVariable(Device, env);
      LoadVariable(Hostname, env);
      ghost var s2 := Current();
      if PortEnvName in env { amqpPort := Atoi(env[PortEnvName]); }
      assert Current() == LoadPort(s2, env);
      LoadVariable(Username, env);
      LoadVariable(Password, env);
      LoadVariable(Vhost, env);
      LoadVariable(Exchange, env);
      LoadVariable(RoutingKey, env);
    }

    /** One `getenv` line, for the buffer of `k`. */
    method LoadVariable(k: TextKey, env: Environment)
      requires Valid()
      modifies Buffer(k)
      ensures Current() == LoadText(old(Current()), env, k)
    {
      if EnvName(k) in env {
        SetText(k, env[EnvName(k)]);
      }
    }

    /**
     * The `getopt_long` loop. It stops at the first option the `switch` does
     * not handle, where `main` prints the help and exits with status 1.
     */
    method ParseOptions(opts: seq<Opt>) returns (help: bool)
      requires Valid()
      modifies Repr()
      ensures help <==> RequestsHelp(opts)
      ensures Current() == ApplyOptions(old(Current()), opts)
    {
      var i := 0;
      while i < |opts|
        invariant 0 <= i <= |opts|
        invariant forall j :: 0 <= j < i ==> Handled(opts[j].code)
        invariant ApplyOptions(old(Current()), opts) == ApplyOptions(Current(), opts[i..])
      {
        var o := opts[i];
        if !Handled(o.code) {
          return true;
        }
        StepOptions(Current(), opts[i..]);
        ApplySwitch(o);
        assert opts[i..][1..] == opts[i + 1..];
        i := i + 1;
      }
      return false;
    }

    /** One pass through the `switch (c)` of the option loop, for a code it handles. */
    method ApplySwitch(o: Opt)
      requires Valid() && Handled(o.code)
      modifies Repr()
      ensures Current() == ApplyOption(old(Current()), o)
    {
      var c := o.code;
      if c == '\0' {
        assert ApplyOption(Current(), o) == Current();
      } else if c == 'D' {
        SetOption(Device, o);
      } else if c == 'H' {
        SetOption(Hostname, o);
      } else if c == 'U' {
        SetOption(Username, o);
      } else if c == 'P' {
        SetOption(Password, o);
      } else if c == 'E' {
        SetOption(Exchange, o);
      } else if c == 'K' {
        SetOption(RoutingKey, o);
      } else if c == 'V' {
        SetOption(Vhost, o);
      } else {
        SetNumber(o);
      }
    }

    /** The `case`s of the option `switch` that set `amqp_port`, `debug_level` or `foreground_flag`. */
    method SetNumber(o: Opt)
      requires o.code == 'p' || o.code == 'd' || o.code == 'f' || o.code == 'q'
      modifies this
      ensures Current() == ApplyOption(old(Current()), o)
    {
      ghost var before := Current();
      var c := o.code;
      if c == 'p' {
        amqpPort := Atoi(o.arg);
        assert ApplyOption(before, o) == before.(port := Atoi(o.arg));
      } else if c == 'd' {
        debugLevel := Atoi(o.arg);
        debugLevel := if debugLevel >= 0 then debugLevel else DefaultDebugLevel;
        debugLevel := if debugLevel <= 9 then debugLevel else DefaultDebugLevel;
        assert ApplyOption(before, o) == before.(debugLevel := NormaliseDebugLevel(Atoi(o.arg)));
      } else if c == 'f' {
        foregroundFlag := true;
        assert ApplyOption(before, o) == before.(foreground := true);
      } else {
        debugLevel := -1;
        assert ApplyOption(before, o) == before.(debugLevel := -1);
      }
    }

    /** A `case` of the option `switch` that copies `optarg` into the buffer of `k`. */
    method SetOption(k: TextKey, o: Opt)
      requires Valid() && o.code == OptionCode(k)
      modifies Buffer(k)
      ensures Current() == ApplyOption(old(Current()), o)
    {
      assert TextKeyOf(o.code) == Some(k);
      SetText(k, o.arg);
    }

    /** The configuration phase of `main`: environment, options, then the port check. */
    method Configure(env: Environment, opts: seq<Opt>) returns (outcome: Startup)
      requires Valid()
      modifies Repr()
      ensures outcome == StartupFrom(old(Current()), env, opts)
      ensures !RequestsHelp(opts) ==> Current() == ApplyOptions(ApplyEnvironment(old(Current()), env), opts)
    {
      LoadEnvironment(env);
      var help := ParseOptions(opts);
      if help {
        return ShowHelp(1);
      }
      if amqpPort < 0 {
        return Abort(Logging.Bomb(1, "Bad port", false));
      }
      if amqpPort > 65535 {
        return Abort(Logging.Bomb(1, "Bad port", false));
      }
      return Ready(Current());
    }
  }
}
