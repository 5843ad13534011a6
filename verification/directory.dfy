/** The directory resource (resources/directory.go). Its mode, owner and
    group fields are the shared permission record; its preflight is the
    shared permission preflight for a directory behind a path check. */
module DirectoryResource {
  import opened Wrappers
  import opened Ambient
  import opened Contract
  import opened Permissions
  import Text

  datatype Directory = Directory(path: string, perms: Permissions, delete: bool)

  /** `Dir(path)`: only the path is set. */
  function Dir(path: string): Directory
  {
    Directory(path, Unset, false)
  }

  function Params(d: Directory): (r: ResourceParams)
    ensures !r.globalLock
  {
    NewResourceParams()
  }

  /** The path is required; then the mode and ids are settled as for any
      directory. */
  function PreflightChecks(d: Directory, host: Host): (r: Checked<Directory>)
    ensures d.path == "" ==> r == Checked(d, Some("Required parameter: Path"))
    ensures r.err.None? <==> d.path != "" && IdsAvailable(d.perms, host.user)
    ensures d.path != "" ==> r.value.perms.mode == DefaultMode(d.perms.mode, PDir)
    ensures r.value.path == d.path && r.value.delete == d.delete
    ensures r.value.perms.user == d.perms.user && r.value.perms.group == d.perms.group
    ensures d.path != "" ==> r.value.perms == PreflightPermissions(d.perms, PDir, host.user).value
    ensures d.path != "" ==> r.err == PreflightPermissions(d.perms, PDir, host.user).err
  {
    if d.path == "" then Checked(d, Some("Required parameter: Path"))
    else
      var pp := PreflightPermissions(d.perms, PDir, host.user);
      Checked(d.(perms := pp.value), pp.err)
  }

  /** After a successful preflight the directory's mode carries the
      directory bit and is the default when none was given, and the ids come
      from the current user when nothing else was asked for and are kept as
      given otherwise. */
  lemma PreflightDefaults(d: Directory, host: Host)
    requires PreflightChecks(d, host).err.None?
    ensures var m := PreflightChecks(d, host).value.perms.mode;
      m & ModeDir == ModeDir && (d.perms.mode == 0 ==> m == DefaultDirectoryPermissions)
    ensures TakesCurrentUid(d.perms) ==> PreflightChecks(d, host).value.perms.uid == Text.Atoi(host.user.uid).value
    ensures TakesCurrentGid(d.perms) ==> PreflightChecks(d, host).value.perms.gid == Text.Atoi(host.user.gid).value
    ensures !TakesCurrentUid(d.perms) ==> PreflightChecks(d, host).value.perms.uid == d.perms.uid
    ensures !TakesCurrentGid(d.perms) ==> PreflightChecks(d, host).value.perms.gid == d.perms.gid
  {
    DefaultModeSpec(d.perms.mode, PDir);
  }

  lemma PreflightIdempotent(d: Directory, host: Host)
    ensures PreflightChecks(PreflightChecks(d, host).value, host) == PreflightChecks(d, host)
  {
    PreflightPermissionsIdempotent(d.perms, PDir, host.user);
  }

  function OperationName(d: Directory): string
  {
    if d.delete then "Delete" else "Create"
  }

  /** A directory declared with the shortcut is created, and passes
      preflight exactly when the path is given and the current user's ids
      parse, with the default directory mode. */
  lemma DirSpec(path: string, host: Host)
    ensures Dir(path).path == path && Dir(path).perms == Unset
    ensures OperationName(Dir(path)) == "Create"
    ensures PreflightChecks(Dir(path), host).err.None? <==> path != "" && IdsParse(host.user)
    ensures path != "" ==> PreflightChecks(Dir(path), host).value.perms.mode == DefaultDirectoryPermissions
  {
    if path != "" {
      DefaultModeSpec(0, PDir);
    }
  }

  datatype Operation = CreateDirectory | DeleteDirectory

  /** The operation `Run` dispatches to; the operation itself is outside the
      model. */
  function RunDispatch(d: Directory): Operation
  {
    if d.delete then DeleteDirectory else CreateDirectory
  }

  /** The logged name and the dispatch always agree. */
  lemma OperationMatchesRun(d: Directory)
    ensures OperationName(d) == "Delete" <==> RunDispatch(d) == DeleteDirectory
    ensures OperationName(d) == "Create" <==> RunDispatch(d) == CreateDirectory
  {
  }
}
