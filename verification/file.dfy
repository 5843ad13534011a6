/** The file resource (resources/file.go): a file holding given content, or
    its absence. Paths are expanded by the `expand` parameter, standing for
    the home-directory expansion the program applies. Setting the owner and
    mode after the write is not modelled. */
module FileResource {
  import opened Wrappers
  import opened Ambient
  import opened Contract
  import opened Permissions
  import opened FileSystem

  datatype File = File(path: string, content: string, perms: Permissions, delete: bool)

  /** `Touch(path)`: an empty file. */
  function Touch(path: string): File
  {
    File(path, "", Unset, false)
  }

  /** `CreateFile(path, content)`. */
  function CreateFile(path: string, content: string): File
  {
    File(path, content, Unset, false)
  }

  /** `DeleteFile(path)`. */
  function DeleteFile(path: string): File
  {
    File(path, "", Unset, true)
  }

  function Params(f: File): (r: ResourceParams)
    ensures !r.globalLock
  {
    NewResourceParams()
  }

  /** The path is required; then the mode and ids are settled as for any
      file. */
  function PreflightChecks(f: File, host: Host): (r: Checked<File>)
    ensures f.path == "" ==> r == Checked(f, Some("required parameter: Path"))
    ensures r.err.None? <==> f.path != "" && IdsAvailable(f.perms, host.user)
    ensures f.path != "" ==> r.value.perms.mode == DefaultMode(f.perms.mode, PFile)
    ensures r.value.path == f.path && r.value.content == f.content && r.value.delete == f.delete
    ensures f.path != "" ==> r.value.perms == PreflightPermissions(f.perms, PFile, host.user).value
    ensures f.path != "" ==> r.err == PreflightPermissions(f.perms, PFile, host.user).err
  {
    if f.path == "" then Checked(f, Some("required parameter: Path"))
    else
      var pp := PreflightPermissions(f.perms, PFile, host.user);
      Checked(f.(perms := pp.value), pp.err)
  }

  /** The mode is 0644 when none was given and otherwise exactly the one
      given. */
  lemma PreflightMode(f: File, host: Host)
    requires f.path != ""
    ensures f.perms.mode == 0 ==> PreflightChecks(f, host).value.perms.mode == DefaultFilePermissions
    ensures f.perms.mode != 0 ==> PreflightChecks(f, host).value.perms.mode == f.perms.mode
  {
    DefaultModeSpec(f.perms.mode, PFile);
  }

  lemma PreflightIdempotent(f: File, host: Host)
    ensures PreflightChecks(PreflightChecks(f, host).value, host) == PreflightChecks(f, host)
  {
    PreflightPermissionsIdempotent(f.perms, PFile, host.user);
  }

  function OperationName(f: File): string
  {
    if f.delete then "Delete" else "Create"
  }

  /** The shortcuts: a touch is the creation of an empty file, a deletion
      keeps no content, and each passes preflight exactly when its path is
      given and the current user's ids parse, with the default file mode. */
  lemma ShortcutsSpec(path: string, content: string, host: Host)
    ensures Touch(path) == CreateFile(path, "")
    ensures OperationName(CreateFile(path, content)) == "Create" && OperationName(DeleteFile(path)) == "Delete"
    ensures CreateFile(path, content).content == content && DeleteFile(path).content == ""
    ensures PreflightChecks(CreateFile(path, content), host).err.None? <==> path != "" && IdsParse(host.user)
    ensures PreflightChecks(DeleteFile(path), host).err.None? <==> path != "" && IdsParse(host.user)
    ensures path != "" ==> PreflightChecks(CreateFile(path, content), host).value.perms.mode == DefaultFilePermissions
  {
    if path != "" {
      PreflightMode(CreateFile(path, content), host);
    }
  }

  /** The write decision of `createFile`: a file is written when nothing is
      at the path or what is there reads differently; a read error ends the
      run. */
  function CreateFileRun(f: File, fs: FS, env: Env, expand: string -> string): (r: Effect)
    ensures r.commands == []
    ensures env.config.dryRun ==> r == Effect(fs, [], None)
    ensures r.fs == fs || r.fs == WriteFile(fs, expand(f.path), f.content)
    ensures r.err.Some? <==>
      !env.config.dryRun && FileExists(fs, expand(f.path)) && ReadFile(fs, expand(f.path)).Err?
    ensures r.err.Some? ==> r.fs == fs && r.err == Some(ReadFile(fs, expand(f.path)).error)
    ensures !env.config.dryRun && r.err.None? ==>
      FileExists(r.fs, expand(f.path)) && ReadFile(r.fs, expand(f.path)) == Ok(f.content)
    ensures r.fs != fs ==>
      !FileExists(fs, expand(f.path)) || ReadFile(fs, expand(f.path)) != Ok(f.content)
  {
    ReadAfterWrite(fs, expand(f.path), f.content);
    if env.config.dryRun then Effect(fs, [], None)
    else
      var path := expand(f.path);
      if FileExists(fs, path) then
        match ReadFile(fs, path)
        case Err(e) => Effect(fs, [], Some(e))
        case Ok(c) => if c != f.content then Effect(WriteFile(fs, path, f.content), [], None)
                      else Effect(fs, [], None)
      else Effect(WriteFile(fs, path, f.content), [], None)
  }

  /** A create changes no path other than the one written. */
  lemma CreateFileRunWrites(f: File, fs: FS, env: Env, expand: string -> string)
    ensures var fs1 := CreateFileRun(f, fs, env, expand).fs;
      forall q :: q != Resolve(fs, expand(f.path)) ==> (q in fs1 <==> q in fs) && (q in fs ==> fs1[q] == fs[q])
  {
    ReadAfterWrite(fs, expand(f.path), f.content);
  }

  /** A second create after a successful one finds the content in place and
      leaves the filesystem as it is. */
  lemma CreateFileRunIdempotent(f: File, fs: FS, env: Env, expand: string -> string)
    requires CreateFileRun(f, fs, env, expand).err.None?
    ensures var fs1 := CreateFileRun(f, fs, env, expand).fs;
      CreateFileRun(f, fs1, env, expand) == Effect(fs1, [], None)
  {
  }

  /** `deleteFile`: nothing to do when no file is at the path; otherwise the
      entry at the path is removed, and the removal's error, on a directory
      that still has entries, ends the run with nothing changed. */
  function DeleteFileRun(f: File, fs: FS, env: Env, expand: string -> string): (r: Effect)
    ensures r.commands == []
    ensures env.config.dryRun || !FileExists(fs, expand(f.path)) ==> r == Effect(fs, [], None)
    ensures r.err.Some? <==>
      !env.config.dryRun && FileExists(fs, expand(f.path)) && fs[expand(f.path)].Dir? && HasChildren(fs, expand(f.path))
    ensures r.err.Some? ==> r.fs == fs
    ensures !env.config.dryRun && FileExists(fs, expand(f.path)) && r.err.None? ==>
      r.fs == Remove(fs, expand(f.path))
  {
    if env.config.dryRun then Effect(fs, [], None)
    else
      var path := expand(f.path);
      if !FileExists(fs, path) then Effect(fs, [], None)
      else match RemoveEntry(fs, path)
        case Err(e) => Effect(fs, [], Some(e))
        case Ok(fs1) => Effect(fs1, [], None)
  }

  /** A successful deletion leaves nothing at the path, every other path as
      it was, and a second deletion with nothing to do; a failed one leaves
      the filesystem alone. */
  lemma DeleteFileRunRemoves(f: File, fs: FS, env: Env, expand: string -> string)
    requires !env.config.dryRun
    ensures var r := DeleteFileRun(f, fs, env, expand);
      r.err.None? ==> !FileExists(r.fs, expand(f.path)) && DeleteFileRun(f, r.fs, env, expand) == Effect(r.fs, [], None)
    ensures var r := DeleteFileRun(f, fs, env, expand);
      forall q :: q != expand(f.path) ==> (q in r.fs <==> q in fs) && (q in r.fs ==> r.fs[q] == fs[q])
    ensures var r := DeleteFileRun(f, fs, env, expand);
      r.err.None? && FileExists(fs, expand(f.path)) ==> expand(f.path) !in r.fs
  {
  }

  datatype Operation = CreateFileOp | DeleteFileOp

  function RunDispatch(f: File): Operation
  {
    if f.delete then DeleteFileOp else CreateFileOp
  }

  lemma OperationMatchesRun(f: File)
    ensures OperationName(f) == "Delete" <==> RunDispatch(f) == DeleteFileOp
    ensures OperationName(f) == "Create" <==> RunDispatch(f) == CreateFileOp
  {
  }

  /** `Run`: the dispatched operation. A failure changes nothing; outside
      dry-run, a successful creation leaves the content readable at the path
      and a successful deletion leaves no file there. */
  function Run(f: File, fs: FS, env: Env, expand: string -> string): (r: Effect)
    ensures r.commands == []
    ensures r.err.Some? ==> r.fs == fs
    ensures !env.config.dryRun && r.err.None? && !f.delete ==>
      FileExists(r.fs, expand(f.path)) && ReadFile(r.fs, expand(f.path)) == Ok(f.content)
    ensures !env.config.dryRun && r.err.None? && f.delete ==> !FileExists(r.fs, expand(f.path))
  {

    match RunDispatch(f)
    case CreateFileOp => CreateFileRun(f, fs, env, expand)
    case DeleteFileOp => DeleteFileRun(f, fs, env, expand)
  }
}
