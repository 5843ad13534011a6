/** The debian package resource (resources/deb.go). Its operations are
    placeholders in the program: both succeed without doing anything. */
module DebResource {
  import opened Wrappers
  import opened Ambient
  import opened Contract

  datatype Deb = Deb(name: string, uri: string, checkSum: string, delete: bool)

  /** A deb resource always runs under the global lock. */
  function Params(d: Deb): (r: ResourceParams)
    ensures r.globalLock
  {
    ResourceParams(true)
  }

  /** Name, URI and root are required, in that order; nothing is defaulted. */
  function PreflightChecks(d: Deb, host: Host): (r: Checked<Deb>)
    ensures r.value == d
    ensures r.err.None? <==> d.name != "" && d.uri != "" && host.isRoot
    ensures d.name == "" ==> r.err == Some("Required parameter: Name")
    ensures d.name != "" && d.uri == "" ==> r.err == Some("Required parameter: URI")
    ensures d.name != "" && d.uri != "" && !host.isRoot ==> r.err == Some("Deb resource must be run as root")
  {
    if d.name == "" then Checked(d, Some("Required parameter: Name"))
    else if d.uri == "" then Checked(d, Some("Required parameter: URI"))
    else if !host.isRoot then Checked(d, Some("Deb resource must be run as root"))
    else Checked(d, None)
  }

  function OperationName(d: Deb): string
  {
    if d.delete then "Delete" else "Create"
  }

  datatype Operation = CreateDeb | DeleteDeb

  function RunDispatch(d: Deb): Operation
  {
    if d.delete then DeleteDeb else CreateDeb
  }

  lemma OperationMatchesRun(d: Deb)
    ensures OperationName(d) == "Delete" <==> RunDispatch(d) == DeleteDeb
    ensures OperationName(d) == "Create" <==> RunDispatch(d) == CreateDeb
  {
  }

  /** `Run`: `create` and `delete` both succeed, in dry-run or not. */
  function Run(d: Deb, env: Env): (err: Option<string>)
    ensures err.None?
  {
    match RunDispatch(d)
    case CreateDeb => None
    case DeleteDeb => None
  }
}
