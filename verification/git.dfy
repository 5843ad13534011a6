/** The git repository resource (resources/git.go). Cloning and pulling are
    not modelled; the descriptor's checks, defaults and dispatch are. */
module GitResource {
  import opened Wrappers
  import opened Ambient
  import opened Contract
  import opened Permissions
  import Text

  datatype Git = Git(
    path: string,
    url: string,
    reference: string,
    remoteName: string,
    ensure: bool,
    perms: Permissions,
    delete: bool)

  /** `Repo(path, url)`: a repository that is kept up to date. */
  function Repo(path: string, url: string): Git
  {
    Git(path, url, "", "", true, Unset, false)
  }

  function Params(g: Git): (r: ResourceParams)
    ensures !r.globalLock
  {
    NewResourceParams()
  }

  const DefaultReference := "refs/heads/main"
  const DefaultRemoteName := "origin"

  /** Path, then URL, are required; the reference and remote name default;
      then the mode and ids are settled as for any directory. */
  function PreflightChecks(g: Git, host: Host): (r: Checked<Git>)
    ensures g.path == "" ==> r == Checked(g, Some("required parameter: Path"))
    ensures g.path != "" && g.url == "" ==> r == Checked(g, Some("required parameter: URL"))
    ensures r.err.None? <==> g.path != "" && g.url != "" && IdsAvailable(g.perms, host.user)
    ensures g.path != "" && g.url != "" ==>
      && r.value.reference == (if g.reference == "" then DefaultReference else g.reference)
      && r.value.remoteName == (if g.remoteName == "" then DefaultRemoteName else g.remoteName)
      && r.value.perms.mode == DefaultMode(g.perms.mode, PDir)
    ensures r.value.path == g.path && r.value.url == g.url
    ensures r.value.ensure == g.ensure && r.value.delete == g.delete
    ensures g.path != "" && g.url != "" ==> r.value.perms == PreflightPermissions(g.perms, PDir, host.user).value
    ensures g.path != "" && g.url != "" ==> r.err == PreflightPermissions(g.perms, PDir, host.user).err
  {
    if g.path == "" then Checked(g, Some("required parameter: Path"))
    else if g.url == "" then Checked(g, Some("required parameter: URL"))
    else
      var g1 := g.(
        reference := if g.reference == "" then DefaultReference else g.reference,
        remoteName := if g.remoteName == "" then DefaultRemoteName else g.remoteName);
      var pp := PreflightPermissions(g1.perms, PDir, host.user);
      Checked(g1.(perms := pp.value), pp.err)
  }

  lemma PreflightIdempotent(g: Git, host: Host)
    ensures PreflightChecks(PreflightChecks(g, host).value, host) == PreflightChecks(g, host)
  {
    PreflightPermissionsIdempotent(g.perms, PDir, host.user);
  }

  /** A repository declared with the shortcut passes preflight whenever both
      arguments are given and the current user's ids parse, and then tracks
      the main branch of "origin". */
  lemma RepoPreflight(path: string, url: string, host: Host)
    requires path != "" && url != "" && IdsParse(host.user)
    ensures var r := PreflightChecks(Repo(path, url), host);
      r.err.None? && r.value.reference == "refs/heads/main" && r.value.remoteName == "origin"
    ensures Repo(path, url).ensure && OperationName(Repo(path, url)) == "Create"
  {
  }

  function OperationName(g: Git): string
  {
    if g.delete then "Delete" else "Create"
  }

  datatype Operation = CreateGit | DeleteGit

  /** The operation `Run` dispatches to; the operation itself is outside the
      model. */
  function RunDispatch(g: Git): Operation
  {
    if g.delete then DeleteGit else CreateGit
  }

  /** The logged name and the dispatch always agree. */
  lemma OperationMatchesRun(g: Git)
    ensures OperationName(g) == "Delete" <==> RunDispatch(g) == DeleteGit
    ensures OperationName(g) == "Create" <==> RunDispatch(g) == CreateGit
  {
  }
}
