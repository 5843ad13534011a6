/** The descriptor contract of resource.go seen from the engine: every
    resource kind behind one type, with its kind name, operation name,
    scheduling parameters, preflight checks and run. The host facts and
    everything a run touches or asks of the outside world are gathered in a
    `World`. */
module Descriptor {
  import opened Wrappers
  import opened Ambient
  import opened Contract
  import opened FileSystem
  import PackageResource
  import AptResource
  import DirectoryResource
  import GitResource
  import FileResource
  import DownloadResource
  import LinkResource
  import ExecuteResource
  import DebResource

  datatype Attrs =
    | PackageAttrs(package: PackageResource.Package)
    | AptAttrs(apt: AptResource.Apt)
    | DirectoryAttrs(directory: DirectoryResource.Directory)
    | GitAttrs(git: GitResource.Git)
    | FileAttrs(file: FileResource.File)
    | DownloadAttrs(download: DownloadResource.Download)
    | LinkAttrs(link: LinkResource.Link)
    | ExecuteAttrs(execute: ExecuteResource.Execute)
    | DebAttrs(deb: DebResource.Deb)

  /** The name of the descriptor's type, which the engine records as the
      resource kind. */
  function KindName(a: Attrs): (k: string)
    ensures k != "" && '_' !in k
  {
    match a
    case PackageAttrs(_) => "Package"
    case AptAttrs(_) => "Apt"
    case DirectoryAttrs(_) => "Directory"
    case GitAttrs(_) => "Git"
    case FileAttrs(_) => "File"
    case DownloadAttrs(_) => "Download"
    case LinkAttrs(_) => "Link"
    case ExecuteAttrs(_) => "Execute"
    case DebAttrs(_) => "Deb"
  }

  /** Both descriptors are of the same kind. */
  predicate SameKind(a: Attrs, b: Attrs)
  {
    match (a, b)
    case (PackageAttrs(_), PackageAttrs(_)) => true
    case (AptAttrs(_), AptAttrs(_)) => true
    case (DirectoryAttrs(_), DirectoryAttrs(_)) => true
    case (GitAttrs(_), GitAttrs(_)) => true
    case (FileAttrs(_), FileAttrs(_)) => true
    case (DownloadAttrs(_), DownloadAttrs(_)) => true
    case (LinkAttrs(_), LinkAttrs(_)) => true
    case (ExecuteAttrs(_), ExecuteAttrs(_)) => true
    case (DebAttrs(_), DebAttrs(_)) => true
    case _ => false
  }

  /** Kind names tell kinds apart: equal names exactly for equal kinds. */
  lemma KindNameInjective(a: Attrs, b: Attrs)
    ensures KindName(a) == KindName(b) <==> SameKind(a, b)
  {
  }

  function OperationName(a: Attrs): string
  {
    match a
    case PackageAttrs(p) => PackageResource.OperationName(p)
    case AptAttrs(x) => AptResource.OperationName(x)
    case DirectoryAttrs(d) => DirectoryResource.OperationName(d)
    case GitAttrs(g) => GitResource.OperationName(g)
    case FileAttrs(f) => FileResource.OperationName(f)
    case DownloadAttrs(d) => DownloadResource.OperationName(d)
    case LinkAttrs(l) => LinkResource.OperationName(l)
    case ExecuteAttrs(e) => ExecuteResource.OperationName(e)
    case DebAttrs(d) => DebResource.OperationName(d)
  }

  /** Only packages, debs and apt repositories that update ask for the
      global lock. */
  function Params(a: Attrs): (r: ResourceParams)
    ensures r.globalLock <==>
      a.PackageAttrs? || a.DebAttrs? || (a.AptAttrs? && (a.apt.update || a.apt.updateOnly))
  {
    match a
    case PackageAttrs(p) => PackageResource.Params(p)
    case AptAttrs(x) => AptResource.Params(x)
    case DirectoryAttrs(d) => DirectoryResource.Params(d)
    case GitAttrs(g) => GitResource.Params(g)
    case FileAttrs(f) => FileResource.Params(f)
    case DownloadAttrs(d) => DownloadResource.Params(d)
    case LinkAttrs(l) => LinkResource.Params(l)
    case ExecuteAttrs(e) => ExecuteResource.Params(e)
    case DebAttrs(d) => DebResource.Params(d)
  }

  /** The kind's preflight checks; the descriptor keeps its kind. */
  function PreflightChecks(a: Attrs, host: Host): (r: Checked<Attrs>)
    ensures SameKind(r.value, a)
  {
    match a
    case PackageAttrs(p) =>
      var c := PackageResource.PreflightChecks(p, host); Checked(PackageAttrs(c.value), c.err)
    case AptAttrs(x) =>
      var c := AptResource.PreflightChecks(x, host); Checked(AptAttrs(c.value), c.err)
    case DirectoryAttrs(d) =>
      var c := DirectoryResource.PreflightChecks(d, host); Checked(DirectoryAttrs(c.value), c.err)
    case GitAttrs(g) =>
      var c := GitResource.PreflightChecks(g, host); Checked(GitAttrs(c.value), c.err)
    case FileAttrs(f) =>
      var c := FileResource.PreflightChecks(f, host); Checked(FileAttrs(c.value), c.err)
    case DownloadAttrs(d) =>
      var c := DownloadResource.PreflightChecks(d, host); Checked(DownloadAttrs(c.value), c.err)
    case LinkAttrs(l) =>
      var c := LinkResource.PreflightChecks(l, host); Checked(LinkAttrs(c.value), c.err)
    case ExecuteAttrs(e) =>
      var c := ExecuteResource.PreflightChecks(e, host); Checked(ExecuteAttrs(c.value), c.err)
    case DebAttrs(d) =>
      var c := DebResource.PreflightChecks(d, host); Checked(DebAttrs(c.value), c.err)
  }

  /** For a fixed host, preflight twice is preflight once, for every kind:
      the engine's preflight pass and the one inside each run agree. */
  lemma PreflightIdempotent(a: Attrs, host: Host)
    ensures PreflightChecks(PreflightChecks(a, host).value, host) == PreflightChecks(a, host)
  {
    match a
    case PackageAttrs(p) =>
    case AptAttrs(x) => AptResource.PreflightIdempotent(x, host);
    case DirectoryAttrs(d) => DirectoryResource.PreflightIdempotent(d, host);
    case GitAttrs(g) => GitResource.PreflightIdempotent(g, host);
    case FileAttrs(f) => FileResource.PreflightIdempotent(f, host);
    case DownloadAttrs(d) => DownloadResource.PreflightIdempotent(d, host);
    case LinkAttrs(l) =>
    case ExecuteAttrs(e) =>
    case DebAttrs(d) =>
  }

  /** Everything a run consults besides its descriptor: the flags and host
      facts, the filesystem, how processes and HTTP requests turn out, home
      expansion and absolute paths, Go's iteration order for a map, and the
      outcome of the operations this model does not follow (cloning and
      pulling, creating and removing directories). */
  datatype World = World(
    env: Env,
    fs: FS,
    exec: Invocation -> Option<string>,
    fetch: string -> DownloadResource.Response,
    expand: string -> string,
    absolute: string -> string,
    enumerate: map<string, string> -> seq<string>,
    external: Attrs -> Option<string>)

  /** Go ranges over a map once per key, in an order it picks afresh each
      time; each run's world fixes one such order per map. */
  ghost predicate Enumerates(w: World)
  {
    forall m: map<string, string> :: AptResource.IsEnumeration(w.enumerate(m), m.Keys)
  }

  /** The kind's `Run`, as one effect on the world. */
  function Run(a: Attrs, w: World): (r: Effect)
    requires Enumerates(w)
    ensures a.DebAttrs? ==> r.err.None?
    ensures (a.DirectoryAttrs? || a.GitAttrs?) ==> r == Effect(w.fs, [], w.external(a))
    ensures a.PackageAttrs? && w.env.cli.dryRun ==> r == Effect(w.fs, [], None)
  {
    match a
    case PackageAttrs(p) =>
      (match PackageResource.Run(p, w.env)
       case Err(e) => Effect(w.fs, [], Some(e))
       case Ok(None) => Effect(w.fs, [], None)
       case Ok(Some(argv)) => Effect(w.fs, [Invocation(argv, "")], w.exec(Invocation(argv, ""))))
    case AptAttrs(x) =>
      AptResource.Run(x, w.fs, w.env, w.enumerate(AptResource.EffectiveParameters(x)), w.exec)
    case DirectoryAttrs(_) => Effect(w.fs, [], w.external(a))
    case GitAttrs(_) => Effect(w.fs, [], w.external(a))
    case FileAttrs(f) => FileResource.Run(f, w.fs, w.env, w.expand)
    case DownloadAttrs(d) => DownloadResource.Run(d, w.fs, w.env, w.expand, w.fetch)
    case LinkAttrs(l) => LinkResource.Run(l, w.fs, w.env, w.expand, w.absolute)
    case ExecuteAttrs(e) =>
      var ran := ExecuteResource.RunExecute(e, w.env, w.exec);
      Effect(w.fs, ran.commands, ran.err)
    case DebAttrs(d) => Effect(w.fs, [], DebResource.Run(d, w.env))
  }
}
