/** The package resource (resources/package.go): installs or removes a list of
    packages with the platform's package manager. The manager itself is not
    run here; the model yields the argument vector the resource would hand to
    it. */
module PackageResource {
  import opened Wrappers
  import opened Ambient
  import opened Contract

  datatype Package = Package(names: seq<string>, verbose: bool, uninstall: bool)

  /** A package resource always runs under the global lock. */
  function Params(p: Package): (r: ResourceParams)
    ensures r.globalLock
  {
    NewResourceParamsWithLock()
  }

  /** Names are required, then root; nothing is defaulted. */
  function PreflightChecks(p: Package, host: Host): (r: Checked<Package>)
    ensures r.value == p
    ensures r.err.None? <==> |p.names| >= 1 && host.isRoot
    ensures |p.names| == 0 ==> r.err == Some("required parameter: Names")
    ensures |p.names| >= 1 && !host.isRoot ==> r.err == Some("package resource must be run as root")
  {
    if |p.names| < 1 then Checked(p, Some("required parameter: Names"))
    else if !host.isRoot then Checked(p, Some("package resource must be run as root"))
    else Checked(p, None)
  }

  /** `Pkg(name)`: one package. */
  function Pkg(name: string): Package
  {
    Package([name], false, false)
  }

  /** `Pkgs(names...)`: several packages, in the order given. */
  function Pkgs(names: seq<string>): Package
  {
    Package(names, false, false)
  }

  /** The shortcuts declare installs of exactly the names given; a single
      package passes preflight exactly when running as root, a list only when
      it is also non-empty. */
  lemma ShortcutsSpec(name: string, names: seq<string>, host: Host)
    ensures Pkg(name).names == [name] && !Pkg(name).uninstall
    ensures Pkgs(names).names == names && !Pkgs(names).uninstall
    ensures PreflightChecks(Pkg(name), host).err.None? <==> host.isRoot
    ensures PreflightChecks(Pkgs(names), host).err.None? <==> |names| >= 1 && host.isRoot
  {
  }

  function OperationName(p: Package): string
  {
    if p.uninstall then "Uninstall" else "Install"
  }

  /** The package managers the resource knows. */
  datatype Tool = AptGet | Dnf | Pacman

  /** The manager used on a platform id, if the platform is recognised. */
  function ToolFor(platform: string): Option<Tool>
  {
    if platform in {"debian", "ubuntu", "linuxmint"} then Some(AptGet)
    else if platform in {"fedora", "centos"} then Some(Dnf)
    else if platform in {"arch", "manjaro"} then Some(Pacman)
    else None
  }

  function ToolName(t: Tool): string
  {
    match t
    case AptGet => "apt-get"
    case Dnf => "dnf"
    case Pacman => "pacman"
  }

  /** `aptGetCmd`. */
  function AptGetArgv(command: string, packages: seq<string>): seq<string>
  {
    ["apt-get", command, "-y"] + packages
  }

  /** `dnfCmd`. */
  function DnfArgv(command: string, packages: seq<string>): seq<string>
  {
    ["dnf", command, "-y"] + packages
  }

  /** `pacmanCmd`: `--needed` is added for installs only. */
  function PacmanArgv(command: string, packages: seq<string>): seq<string>
  {
    ["pacman", command, "--noconfirm"] + (if command == "-S" then ["--needed"] else []) + packages
  }

  /** `installPkg`: the install command of the platform's manager. */
  function InstallArgv(platform: string, packages: seq<string>): Result<seq<string>>
  {
    match ToolFor(platform)
    case Some(AptGet) => Ok(AptGetArgv("install", packages))
    case Some(Dnf) => Ok(DnfArgv("install", packages))
    case Some(Pacman) => Ok(PacmanArgv("-S", packages))
    case None => Err("unrecognised distribution: " + platform)
  }

  /** `removePkg`: the removal command of the platform's manager. */
  function RemoveArgv(platform: string, packages: seq<string>): Result<seq<string>>
  {
    match ToolFor(platform)
    case Some(AptGet) => Ok(AptGetArgv("remove", packages))
    case Some(Dnf) => Ok(DnfArgv("remove", packages))
    case Some(Pacman) => Ok(PacmanArgv("-R", packages))
    case None => Err("unrecognised distribution: " + platform)
  }

  /** The number of leading flag words before the package names. */
  function HeaderLength(t: Tool, uninstall: bool): nat
  {
    if t == Pacman && !uninstall then 4 else 3
  }

  /** `Run`: with the command-line dry-run flag nothing is issued (`None`);
      otherwise the argument vector for the platform, or the "unrecognised
      distribution" error. */
  function Run(p: Package, env: Env): (r: Result<Option<seq<string>>>)
    ensures env.cli.dryRun ==> r == Ok(None)
    ensures !env.cli.dryRun && ToolFor(env.host.platformID).None? ==>
      r == Err("unrecognised distribution: " + env.host.platformID)
    ensures !env.cli.dryRun && ToolFor(env.host.platformID).Some? ==>
      r.Ok? && r.value.Some? &&
      var t := ToolFor(env.host.platformID).value;
      var argv := r.value.value;
      var h := HeaderLength(t, p.uninstall);
      && |argv| == h + |p.names|
      && argv[0] == ToolName(t)
      && argv[h..] == p.names
      && argv[1] == (if p.uninstall then (if t == Pacman then "-R" else "remove")
                     else (if t == Pacman then "-S" else "install"))
      && argv[2] == (if t == Pacman then "--noconfirm" else "-y")
      && (h == 4 ==> argv[3] == "--needed")
      && (p.uninstall <==> argv[1] in {"remove", "-R"})
      && ("--needed" in argv[..h] <==> t == Pacman && !p.uninstall)
  {
    if env.cli.dryRun then Ok(None)
    else
      var argv :- if p.uninstall then RemoveArgv(env.host.platformID, p.names)
                  else InstallArgv(env.host.platformID, p.names);
      Ok(Some(argv))
  }

  /** The operation name and what `Run` issues agree: "Uninstall" exactly when
      the removal command is built. */
  lemma OperationMatchesRun(p: Package, env: Env)
    requires !env.cli.dryRun && ToolFor(env.host.platformID).Some?
    ensures OperationName(p) == "Uninstall" <==>
      Run(p, env) == Ok(Some(RemoveArgv(env.host.platformID, p.names).value))
  {
    if !p.uninstall {
      var t := ToolFor(env.host.platformID).value;
      var i := InstallArgv(env.host.platformID, p.names).value;
      var r := RemoveArgv(env.host.platformID, p.names).value;
      assert i[1] != r[1];
    }
  }
}
