/** The ambient inputs that the resource kinds read from package-level state
    in the program, made explicit: facts about the host (whether the process
    runs as root, the current user's numeric ids as text, the Ubuntu codename
    and the platform id from the os-release file) and the two flag sets the
    program keeps side by side (the command-line flags and the run
    configuration), each with its own dry-run, quiet and silent switches. */
module Ambient {

  /** The current user's uid and gid, as the text `os/user` reports. */
  datatype CurrentUser = CurrentUser(uid: string, gid: string)

  datatype Host = Host(
    isRoot: bool,
    user: CurrentUser,
    ubuntuCodename: string,
    platformID: string)

  datatype Flags = Flags(dryRun: bool, quiet: bool, silent: bool)

  /** `cli` stands for the command-line flag set and `config` for the run
      configuration; different resource kinds consult different ones. */
  datatype Env = Env(host: Host, cli: Flags, config: Flags)
}
