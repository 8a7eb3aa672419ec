/**
 * `config.rs`: the settings the application starts with. They come from the
 * configuration file when it can be read, from the defaults otherwise (a
 * missing file is created holding the defaults), and each command-line
 * option that is present then overrides its own setting.
 *
 * The directory lookup, the file system and the TOML parser are outside the
 * model: their outcomes are given as `ConfigIo`.
 */
module Config {
  import opened Wrappers
  import opened Bytes
  import opened Net

  /** `Config` */
  datatype Config = Config(discoveryAddr: SocketAddr, tcpServerPort: u16, userName: string, terminalBell: bool)

  /** The multicast address peers announce themselves on, 238.255.0.1:5877. */
  const DefaultDiscovery: SocketAddr := SocketAddr([238, 255, 0, 1], 5877)

  /**
   * `Config::default`: discovery on 238.255.0.1:5877, a TCP port chosen by
   * the system (0), the operating system's user name, and the bell on.
   */
  function Default(osUserName: string): (c: Config)
    ensures c.discoveryAddr.ip == [238, 255, 0, 1] && c.discoveryAddr.port == 5877
    ensures c.tcpServerPort == 0 && c.userName == osUserName && c.terminalBell
  {
    Config(DefaultDiscovery, 0, osUserName, true)
  }

  /** The kinds of I/O error the source tells apart. */
  datatype IoErrorKind = NotFound | AlreadyExists | OtherKind

  /** The outcomes of the I/O `from_config_file` performs, in the order it performs them. */
  datatype ConfigIo = ConfigIo(
    configDir: Option<string>,
    createDir: Result<(), IoErrorKind>,
    read: Result<string, IoErrorKind>,
    parse: string -> Option<Config>,
    writeDefaults: Result<(), string>)

  /** What `from_config_file` yields, and whether it tried to write the defaults to the file. */
  datatype FileOutcome = FileOutcome(config: Option<Config>, writesDefaults: bool)

  /** The configuration directory exists, or was made, so the file can be looked at. */
  predicate DirectoryReady(io: ConfigIo)
  {
    io.configDir.Some? && (io.createDir.Ok? || io.createDir.error == AlreadyExists)
  }

  /**
   * `from_config_file`: no configuration directory, or one that cannot be
   * created for a reason other than already existing, gives nothing; a file
   * that reads gives what it parses to; a missing file is written with the
   * defaults, which are given when the write works; any other read error
   * gives nothing.
   */
  function FromConfigFile(io: ConfigIo, osUserName: string): (r: FileOutcome)
    ensures r.writesDefaults <==> DirectoryReady(io) && io.read == Err(NotFound)
    ensures r.config.Some? ==> DirectoryReady(io) && io.read != Err(OtherKind) && io.read != Err(AlreadyExists)
    ensures DirectoryReady(io) && io.read.Ok? ==> r.config == io.parse(io.read.value)
    ensures r.writesDefaults ==> (r.config.Some? <==> io.writeDefaults.Ok?)
    ensures r.writesDefaults && r.config.Some? ==> r.config.value == Default(osUserName)
  {
    if io.configDir.None? then FileOutcome(None, false)
    else if io.createDir.Err? && io.createDir.error != AlreadyExists then FileOutcome(None, false)
    else
      match io.read
      case Ok(text) => FileOutcome(io.parse(text), false)
      case Err(NotFound) =>
        FileOutcome(if io.writeDefaults.Ok? then Some(Default(osUserName)) else None, true)
      case Err(_) => FileOutcome(None, false)
  }

  /** The settings before the command line: the file's, or the defaults (`unwrap_or_default`). */
  function FileOrDefault(io: ConfigIo, osUserName: string): Config
  {
    match FromConfigFile(io, osUserName).config
    case Some(c) => c
    case None => Default(osUserName)
  }

  /** Whenever the file cannot be had, the defaults are used. */
  lemma FallsBackToDefaults(io: ConfigIo, osUserName: string)
    ensures !DirectoryReady(io) ==> FileOrDefault(io, osUserName) == Default(osUserName)
    ensures DirectoryReady(io) && io.read.Ok? && io.parse(io.read.value).None? ==>
      FileOrDefault(io, osUserName) == Default(osUserName)
    ensures io.read.Err? ==> FileOrDefault(io, osUserName) == Default(osUserName)
    ensures DirectoryReady(io) && io.read.Ok? && io.parse(io.read.value).Some? ==>
      FileOrDefault(io, osUserName) == io.parse(io.read.value).value
  {
  }

  /** The options given on the command line, already checked by the parser's validators. */
  datatype Matches = Matches(
    discovery: Option<SocketAddr>,
    tcpServerPort: Option<u16>,
    userName: Option<string>,
    quietMode: Option<string>)

  /** The settings once the options present are applied to `base`. */
  function Overridden(base: Config, matches: Matches): (c: Config)
  {
    Config(
      if matches.discovery.Some? then matches.discovery.value else base.discoveryAddr,
      if matches.tcpServerPort.Some? then matches.tcpServerPort.value else base.tcpServerPort,
      if matches.userName.Some? then matches.userName.value else base.userName,
      if matches.quietMode.Some? then false else base.terminalBell)
  }

  /** `Config::from_matches`: the file's settings (or the defaults), then the options, one field at a time. */
  method FromMatches(io: ConfigIo, osUserName: string, matches: Matches) returns (config: Config)
    ensures config == Overridden(FileOrDefault(io, osUserName), matches)
  {
    var file := FromConfigFile(io, osUserName);
    config := if file.config.Some? then file.config.value else Default(osUserName);
    if matches.discovery.Some? {
      config := config.(discoveryAddr := matches.discovery.value);
    }
    if matches.tcpServerPort.Some? {
      config := config.(tcpServerPort := matches.tcpServerPort.value);
    }
    if matches.userName.Some? {
      config := config.(userName := matches.userName.value);
    }
    if matches.quietMode.Some? {
      config := config.(terminalBell := false);
    }
  }

  /**
   * Each option present overrides exactly its own setting: any setting whose
   * option is absent keeps the value from the file or the defaults.
   */
  lemma OverridesOwnField(base: Config, matches: Matches)
    ensures var c := Overridden(base, matches);
      && (matches.discovery.None? ==> c.discoveryAddr == base.discoveryAddr)
      && (matches.tcpServerPort.None? ==> c.tcpServerPort == base.tcpServerPort)
      && (matches.userName.None? ==> c.userName == base.userName)
      && (matches.quietMode.None? ==> c.terminalBell == base.terminalBell)
      && (matches.discovery.Some? ==> c.discoveryAddr == matches.discovery.value)
      && (matches.tcpServerPort.Some? ==> c.tcpServerPort == matches.tcpServerPort.value)
      && (matches.userName.Some? ==> c.userName == matches.userName.value)
  {
  }

  /** Without options the settings are the file's, or the defaults. */
  lemma NoOptionsKeepsBase(base: Config)
    ensures Overridden(base, Matches(None, None, None, None)) == base
  {
  }

  /** The command line can silence the bell but never turn it on. */
  lemma QuietOnlySilences(base: Config, matches: Matches)
    ensures Overridden(base, matches).terminalBell ==> base.terminalBell
    ensures matches.quietMode.Some? ==> !Overridden(base, matches).terminalBell
  {
  }

  /** Applying the same options twice changes nothing more. */
  lemma OverrideIdempotent(base: Config, matches: Matches)
    ensures Overridden(Overridden(base, matches), matches) == Overridden(base, matches)
  {
  }
}
