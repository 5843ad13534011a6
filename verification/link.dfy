/** The symbolic link resource (resources/link.go). Queries here look at the
    entry at the path itself, not through it. The expanded, absolute form of
    the source is the `absolute` parameter. */
module LinkResource {
  import opened Wrappers
  import opened Ambient
  import opened Contract
  import opened FileSystem

  datatype Link = Link(path: string, source: string, delete: bool)

  /** `CreateLink(path, source)`. */
  function CreateLink(path: string, source: string): Link
  {
    Link(path, source, false)
  }

  /** `DeleteLink(path, source)`: the source is not kept. */
  function DeleteLink(path: string, source: string): Link
  {
    Link(path, "", true)
  }

  function Params(l: Link): (r: ResourceParams)
    ensures !r.globalLock
  {
    NewResourceParams()
  }

  /** Only the path is required; the source is checked when creating. */
  function PreflightChecks(l: Link, host: Host): (r: Checked<Link>)
    ensures r.value == l
    ensures r.err.None? <==> l.path != ""
    ensures r.err.Some? ==> r.err == Some("required parameter: Path")
  {
    if l.path == "" then Checked(l, Some("required parameter: Path")) else Checked(l, None)
  }

  /** A deleting link passes preflight with no source at all. */
  lemma DeleteNeedsNoSource(path: string, source: string, host: Host)
    requires path != ""
    ensures PreflightChecks(DeleteLink(path, source), host).err.None?
    ensures Run(DeleteLink(path, source), map[], Env(host, Flags(false, false, false), Flags(false, false, false)),
                p => p, p => p).err.None?
  {
  }

  function OperationName(l: Link): string
  {
    if l.delete then "Delete" else "Create"
  }

  /** The shortcuts: a created link keeps its source, a deleting one ignores
      it, and both pass preflight exactly when the path is given. */
  lemma ShortcutsSpec(path: string, s1: string, s2: string, host: Host)
    ensures CreateLink(path, s1).source == s1 && OperationName(CreateLink(path, s1)) == "Create"
    ensures DeleteLink(path, s1) == DeleteLink(path, s2) && OperationName(DeleteLink(path, s1)) == "Delete"
    ensures PreflightChecks(CreateLink(path, s1), host).err.None? <==> path != ""
    ensures PreflightChecks(DeleteLink(path, s1), host).err.None? <==> path != ""
  {
  }

  /** `createLink`: a source is required; a link already pointing at the
      source is left alone; anything else at the path is removed and the link
      created. */
  function CreateLinkRun(l: Link, fs: FS, env: Env, expand: string -> string,
                         absolute: string -> string): (r: Effect)
    ensures r.commands == []
    ensures l.source == "" ==> r == Effect(fs, [], Some("required parameter: Source"))
    ensures l.source != "" && env.cli.dryRun ==> r == Effect(fs, [], None)
    ensures r.err.None? && l.source != "" && !env.cli.dryRun ==>
      r.fs == fs[expand(l.path) := Symlink(absolute(expand(l.source)))]
    ensures r.err.None? && r.fs != fs ==>
      !(expand(l.path) in fs && fs[expand(l.path)] == Symlink(absolute(expand(l.source))))
    ensures r.err.Some? && l.source != "" ==>
      r.fs == fs && expand(l.path) in fs && fs[expand(l.path)].Dir? && HasChildren(fs, expand(l.path))
  {
    if l.source == "" then Effect(fs, [], Some("required parameter: Source"))
    else
      var source := absolute(expand(l.source));
      var path := expand(l.path);
      if env.cli.dryRun then Effect(fs, [], None)
      else if path in fs && fs[path] == Symlink(source) then Effect(fs, [], None)
      else
        match RemoveOr(fs, path)
        case Err(e) => Effect(fs, [], Some(e))
        case Ok(cleared) => Effect(cleared[path := Symlink(source)], [], None)
  }

  /** Removal of whatever is at the path before linking, carried as an effect
      so that a failure ends the run. */
  function RemoveOr(fs: FS, path: string): (r: Result<FS>)
    ensures r.Ok? ==> r.value == Remove(fs, path)
    ensures r.Err? <==> path in fs && fs[path].Dir? && HasChildren(fs, path)
  {
    if path !in fs then Ok(fs) else RemoveEntry(fs, path)
  }

  /** Creating twice: the second run finds the link in place. */
  lemma CreateLinkRunIdempotent(l: Link, fs: FS, env: Env, expand: string -> string,
                                absolute: string -> string)
    requires CreateLinkRun(l, fs, env, expand, absolute).err.None?
    ensures var fs1 := CreateLinkRun(l, fs, env, expand, absolute).fs;
      CreateLinkRun(l, fs1, env, expand, absolute) == Effect(fs1, [], None)
  {
  }

  /** `deleteLink`: nothing to do when nothing is at the path. */
  function DeleteLinkRun(l: Link, fs: FS, env: Env, expand: string -> string): (r: Effect)
    ensures r.commands == []
    ensures env.cli.dryRun || expand(l.path) !in fs ==> r == Effect(fs, [], None)
    ensures r.err.None? && !env.cli.dryRun ==> expand(l.path) !in r.fs && r.fs == Remove(fs, expand(l.path))
    ensures r.err.Some? ==> r.fs == fs
  {
    var path := expand(l.path);
    if env.cli.dryRun || !LinkExists(fs, path) then Effect(fs, [], None)
    else match RemoveEntry(fs, path)
      case Err(e) => Effect(fs, [], Some(e))
      case Ok(fs1) => Effect(fs1, [], None)
  }

  datatype Operation = CreateLinkOp | DeleteLinkOp

  function RunDispatch(l: Link): Operation
  {
    if l.delete then DeleteLinkOp else CreateLinkOp
  }

  lemma OperationMatchesRun(l: Link)
    ensures OperationName(l) == "Delete" <==> RunDispatch(l) == DeleteLinkOp
    ensures OperationName(l) == "Create" <==> RunDispatch(l) == CreateLinkOp
  {
  }

  /** `Run`: delete or create as the descriptor says. No command is issued,
      a failed run changes nothing, a successful create outside dry-run
      leaves the path a link to the absolute expanded source, and a
      successful delete outside dry-run leaves nothing at the path. */
  function Run(l: Link, fs: FS, env: Env, expand: string -> string,
               absolute: string -> string): (r: Effect)
    ensures r.commands == []
    ensures r.err.Some? ==> r.fs == fs
    ensures !l.delete && r.err.None? && !env.cli.dryRun ==>
      expand(l.path) in r.fs && r.fs[expand(l.path)] == Symlink(absolute(expand(l.source)))
    ensures l.delete && r.err.None? && !env.cli.dryRun ==> expand(l.path) !in r.fs
  {
    match RunDispatch(l)
    case CreateLinkOp => CreateLinkRun(l, fs, env, expand, absolute)
    case DeleteLinkOp => DeleteLinkRun(l, fs, env, expand)
  }
}
