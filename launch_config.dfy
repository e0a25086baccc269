/** The parsed `launch.toml` of an FMU and the choice of the command that
    starts its backend (fmiapi/src/common/spawn/launch_config.rs). The file
    system and the TOML parser are parameters: whether the file exists, what
    reading it yields, and what parsing its text yields. */
module LaunchConfigs {
  import opened Wrappers
  import opened Dispatching

  /** `LaunchConfig`: where the backend runs and one optional command line
      per operating system. */
  datatype LaunchConfig = LaunchConfig(
    location: BackendLocation,
    windows: Option<seq<string>>,
    linux: Option<seq<string>>,
    macos: Option<seq<string>>)

  /** `ConfigError`; the I/O and TOML errors are carried as their texts. */
  datatype ConfigError =
    | UnsupportedOS(os: string)
    | Invalid(parseError: string)
    | Unreadable(path: string, ioError: string)
    | NotFound(path: string)

  /** The deserialized record: a missing `location` key takes the enumeration's
      default, `Local`; the three command lines are taken as they are. */
  function FromFields(location: Option<BackendLocation>, windows: Option<seq<string>>,
                      linux: Option<seq<string>>, macos: Option<seq<string>>): (c: LaunchConfig)
    ensures location.None? ==> c.location == Local
    ensures location.Some? ==> c.location == location.value
    ensures c.windows == windows && c.linux == linux && c.macos == macos
  {
    LaunchConfig(if location.Some? then location.value else Local, windows, linux, macos)
  }

  /** The entry the operating system's name selects; other names select none. */
  function EntryFor(config: LaunchConfig, os: string): Option<seq<string>>
  {
    if os == "windows" then config.windows
    else if os == "macos" then config.macos
    else if os == "linux" then config.linux
    else None
  }

  /** `get_launch_command`, with the operating system's name as a parameter:
      the command line of that system's entry, copied; an unknown system or a
      missing entry is `UnsupportedOS` naming the system. */
  function GetLaunchCommand(config: LaunchConfig, os: string): (r: Result<seq<string>, ConfigError>)
    ensures os == "windows" && config.windows.Some? ==> r == Success(config.windows.value)
    ensures os == "macos" && config.macos.Some? ==> r == Success(config.macos.value)
    ensures os == "linux" && config.linux.Some? ==> r == Success(config.linux.value)
    ensures r.Success? <==>
      (os == "windows" && config.windows.Some?) || (os == "macos" && config.macos.Some?)
      || (os == "linux" && config.linux.Some?)
    ensures r.Failure? ==> r.error == UnsupportedOS(os)
  {
    match EntryFor(config, os)
    case Some(command) => Success(command)
    case None => Failure(UnsupportedOS(os))
  }

  /** The location does not take part in the choice of the command. */
  lemma CommandIgnoresLocation(config: LaunchConfig, location: BackendLocation, os: string)
    ensures GetLaunchCommand(config.(location := location), os) == GetLaunchCommand(config, os)
  {
  }

  /** `create`, given the path of `launch.toml` inside the resources, whether
      that file exists, what reading it yields and the TOML parser: a missing
      file is `NotFound`, a failed read `Unreadable`, a failed parse
      `Invalid`; checks happen in that order. */
  function Create(configPath: string, fileExists: bool, read: Result<string, string>,
                  parse: string -> Result<LaunchConfig, string>): (r: Result<LaunchConfig, ConfigError>)
    ensures !fileExists ==> r == Failure(NotFound(configPath))
    ensures fileExists && read.Failure? ==> r == Failure(Unreadable(configPath, read.error))
    ensures r.Success? <==> fileExists && read.Success? && parse(read.value).Success?
    ensures r.Success? ==> r.value == parse(read.value).value
    ensures fileExists && read.Success? && parse(read.value).Failure? ==>
      r == Failure(Invalid(parse(read.value).error))
  {
    if !fileExists then Failure(NotFound(configPath))
    else match read
      case Failure(e) => Failure(Unreadable(configPath, e))
      case Success(text) =>
        match parse(text)
        case Failure(e) => Failure(Invalid(e))
        case Success(config) => Success(config)
  }
}
