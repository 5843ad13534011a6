/** The download resource (resources/download.go): fetch a URL into a file.
    The HTTP exchange is the `fetch` parameter; setting the owner and mode
    afterwards is not modelled. Two versions of the fetch step are given:
    the program's, which `Run` performs, and a corrected one. */
module DownloadResource {
  import opened Wrappers
  import opened Ambient
  import opened Contract
  import opened Permissions
  import opened FileSystem
  import Text

  datatype Download = Download(url: string, path: string, notIfExists: bool, perms: Permissions)

  /** `Wget(url, path)`: only the URL and the path are set. */
  function Wget(url: string, path: string): Download
  {
    Download(url, path, false, Unset)
  }

  function Params(d: Download): (r: ResourceParams)
    ensures !r.globalLock
  {
    NewResourceParams()
  }

  /** URL, then path, are required; then the mode and ids are settled as for
      any file. */
  function PreflightChecks(d: Download, host: Host): (r: Checked<Download>)
    ensures d.url == "" ==> r == Checked(d, Some("required parameter: URL"))
    ensures d.url != "" && d.path == "" ==> r == Checked(d, Some("required parameter: Path"))
    ensures r.err.None? <==> d.url != "" && d.path != "" && IdsAvailable(d.perms, host.user)
    ensures d.url != "" && d.path != "" ==> r.value.perms.mode == DefaultMode(d.perms.mode, PFile)
    ensures r.value.url == d.url && r.value.path == d.path && r.value.notIfExists == d.notIfExists
    ensures d.url != "" && d.path != "" ==> r.value.perms == PreflightPermissions(d.perms, PFile, host.user).value
    ensures d.url != "" && d.path != "" ==> r.err == PreflightPermissions(d.perms, PFile, host.user).err
  {
    if d.url == "" then Checked(d, Some("required parameter: URL"))
    else if d.path == "" then Checked(d, Some("required parameter: Path"))
    else
      var pp := PreflightPermissions(d.perms, PFile, host.user);
      Checked(d.(perms := pp.value), pp.err)
  }

  lemma PreflightIdempotent(d: Download, host: Host)
    ensures PreflightChecks(PreflightChecks(d, host).value, host) == PreflightChecks(d, host)
  {
    PreflightPermissionsIdempotent(d.perms, PFile, host.user);
  }

  /** Always "Get". */
  function OperationName(d: Download): string
  {
    "Get"
  }

  /** A `Wget` fetches whatever is there, and passes preflight exactly when
      both the URL and the path are given and the current user's ids parse. */
  lemma WgetSpec(url: string, path: string, host: Host)
    ensures Wget(url, path).url == url && Wget(url, path).path == path && !Wget(url, path).notIfExists
    ensures OperationName(Wget(url, path)) == "Get"
    ensures PreflightChecks(Wget(url, path), host).err.None? <==> url != "" && path != "" && IdsParse(host.user)
    ensures url == "" ==> PreflightChecks(Wget(url, path), host).err == Some("required parameter: URL")
  {
  }

  /** What the HTTP client gives back for a URL. */
  datatype Response = Response(status: int, body: string) | NetworkError(message: string)

  function StatusError(status: int): string
  {
    "request received status code " + Text.IntToString(status)
  }

  /** `os.Create` of a path: an error when the directory it goes into is
      missing or a directory is at the path, otherwise an empty regular file
      there (an existing one is truncated). */
  function CreateEmpty(fs: FS, p: string): (r: Result<FS>)
    ensures r.Err? <==> !ParentExists(fs, p) || (Resolve(fs, p) in fs && fs[Resolve(fs, p)].Dir?)
    ensures r.Ok? ==> r.value == WriteFile(fs, p, "")
  {
    if !ParentExists(fs, p) then Err("open " + p + ": no such file or directory")
    else if Resolve(fs, p) in fs && fs[Resolve(fs, p)].Dir? then Err("open " + p + ": is a directory")
    else Ok(WriteFile(fs, p, ""))
  }

  /** The skip decision both versions share: dry-run, or a file already at
      the expanded path when asked not to fetch again. */
  predicate Skips(d: Download, fs: FS, env: Env, expand: string -> string)
  {
    env.config.dryRun || (FileExists(fs, expand(d.path)) && d.notIfExists)
  }

  /** `get` as the program writes it: the file is created at the path as
      given, before expansion, and before the response is known; the body
      is copied in only on status 200. A network error or another status
      is reported with the file at the given path already emptied. */
  function GetAsWritten(d: Download, fs: FS, env: Env, expand: string -> string,
                        fetch: string -> Response): (r: Effect)
    ensures r.commands == []
    ensures Skips(d, fs, env, expand) ==> r == Effect(fs, [], None)
    ensures !Skips(d, fs, env, expand) && CreateEmpty(fs, d.path).Err? ==>
      r == Effect(fs, [], Some(CreateEmpty(fs, d.path).error))
    ensures !Skips(d, fs, env, expand) && CreateEmpty(fs, d.path).Ok? ==>
      && FileExists(r.fs, d.path)
      && (fetch(d.url).NetworkError? ==>
            r.err == Some(fetch(d.url).message) && ReadFile(r.fs, d.path) == Ok(""))
      && (fetch(d.url).Response? && fetch(d.url).status != 200 ==>
            r.err == Some(StatusError(fetch(d.url).status)) && ReadFile(r.fs, d.path) == Ok(""))
      && (fetch(d.url).Response? && fetch(d.url).status == 200 ==>
            r.err.None? && ReadFile(r.fs, d.path) == Ok(fetch(d.url).body))
  {
    if Skips(d, fs, env, expand) then Effect(fs, [], None)
    else match CreateEmpty(fs, d.path)
      case Err(e) => Effect(fs, [], Some(e))
      case Ok(fs1) =>
        ReadAfterWrite(fs, d.path, "");
        match fetch(d.url)
        case NetworkError(m) => Effect(fs1, [], Some(m))
        case Response(status, body) =>
          if status != 200 then Effect(fs1, [], Some(StatusError(status)))
          else
            ReadAfterWrite(fs1, d.path, body);
            Effect(WriteFile(fs1, d.path, body), [], None)
  }

  /** A refused request still empties an existing file: the old content at
      the path is gone although the run reports an error. */
  lemma AsWrittenTruncatesOnErrorStatus()
    ensures var d := Download("http://example.org/x", "/srv/x", false, Unset);
      var fs := map["/srv" := Dir, "/srv/x" := Regular("old")];
      var env := Env(Host(true, CurrentUser("0", "0"), "", "ubuntu"), Flags(false, false, false), Flags(false, false, false));
      var r := GetAsWritten(d, fs, env, p => p, u => Response(404, ""));
      r.err == Some(StatusError(404)) && r.fs["/srv/x"] == Regular("")
  {
    var fs := map["/srv" := Dir, "/srv/x" := Regular("old")];
    assert Dirname("/srv/x") == "/srv" by {
      assert "/srv/x"[..5] == "/srv/";
      assert "/srv/"[..4] == "/srv";
    }
    assert Resolve(fs, "/srv/x") == "/srv/x";
  }

  /** A path starting with "~" is created as given, relative to the working
      directory: where no directory named "~" is there the download fails,
      and where one is the body lands under it. Either way the expanded path
      the skip check reads never appears, so NotIfExists never takes
      effect. */
  lemma AsWrittenIgnoresExpansion()
    ensures var d := Download("http://example.org/x", "~/x", true, Unset);
      var expand := p => if p == "~/x" then "/home/u/x" else p;
      var env := Env(Host(true, CurrentUser("0", "0"), "", "ubuntu"), Flags(false, false, false), Flags(false, false, false));
      var fetch := u => Response(200, "data");
      var fs := map["/home/u" := Dir];
      var r := GetAsWritten(d, fs, env, expand, fetch);
      var r2 := GetAsWritten(d, fs["~" := Dir], env, expand, fetch);
      && r.err.Some? && r.fs == fs && !ParentExists(fs, d.path)
      && r2.err.None? && !FileExists(r2.fs, "/home/u/x") && !Skips(d, r2.fs, env, expand)
  {
    assert Dirname("~/x") == "~" by {
      assert "~/x"[..2] == "~/";
      assert "~/"[..1] == "~";
    }
    var d := Download("http://example.org/x", "~/x", true, Unset);
    var expand := p => if p == "~/x" then "/home/u/x" else p;
    var env := Env(Host(true, CurrentUser("0", "0"), "", "ubuntu"), Flags(false, false, false), Flags(false, false, false));
    var fetch := u => Response(200, "data");
    var fs := map["/home/u" := Dir];
    assert !Skips(d, fs, env, expand);
    assert !ParentExists(fs, "~/x");
    assert GetAsWritten(d, fs, env, expand, fetch) == Effect(fs, [], Some(CreateEmpty(fs, "~/x").error));
    var fs2 := fs["~" := Dir];
    assert !Skips(d, fs2, env, expand);
    assert ParentExists(fs2, "~/x");
    var fs3 := WriteFile(fs2, "~/x", "");
    assert fs3 == fs2["~/x" := Regular("")];
    assert WriteFile(fs3, "~/x", "data") == fs2["~/x" := Regular("data")];
    var r2 := GetAsWritten(d, fs2, env, expand, fetch);
    assert r2.err.None?;
    assert r2.fs == fs2["~/x" := Regular("data")];
    assert !FileExists(r2.fs, "/home/u/x");
  }

  /** `get` corrected: the response is awaited first and the body is written
      to the expanded path, only on status 200. */
  function Get(d: Download, fs: FS, env: Env, expand: string -> string,
               fetch: string -> Response): (r: Effect)
    ensures r.commands == []
    ensures Skips(d, fs, env, expand) ==> r == Effect(fs, [], None)
    ensures r.err.Some? ==> r.fs == fs
    ensures !Skips(d, fs, env, expand) && r.err.None? ==>
      fetch(d.url).Response? && fetch(d.url).status == 200 &&
      FileExists(r.fs, expand(d.path)) && ReadFile(r.fs, expand(d.path)) == Ok(fetch(d.url).body)
    ensures !Skips(d, fs, env, expand) && fetch(d.url).Response? && fetch(d.url).status != 200 ==>
      r.err == Some(StatusError(fetch(d.url).status))
    ensures !Skips(d, fs, env, expand) && fetch(d.url).NetworkError? ==>
      r.err == Some(fetch(d.url).message)
  {
    if Skips(d, fs, env, expand) then Effect(fs, [], None)
    else
      var path := expand(d.path);
      match fetch(d.url)
      case NetworkError(m) => Effect(fs, [], Some(m))
      case Response(status, body) =>
        if status != 200 then Effect(fs, [], Some(StatusError(status)))
        else match CreateEmpty(fs, path)
          case Err(e) => Effect(fs, [], Some(e))
          case Ok(fs1) =>
            ReadAfterWrite(fs1, path, body);
            Effect(WriteFile(fs1, path, body), [], None)
  }

  /** With the corrected step, a successful fetch makes the next run with
      NotIfExists a no-op. */
  lemma GetNotIfExistsSettles(d: Download, fs: FS, env: Env, expand: string -> string,
                              fetch: string -> Response)
    requires d.notIfExists && Get(d, fs, env, expand, fetch).err.None?
    requires !env.config.dryRun
    ensures var fs1 := Get(d, fs, env, expand, fetch).fs;
      Get(d, fs1, env, expand, fetch) == Effect(fs1, [], None)
  {
  }

  /** The two versions agree when they skip, and the corrected one never
      leaves the filesystem changed by a failed run. */
  lemma GetCorrectsAsWritten(d: Download, fs: FS, env: Env, expand: string -> string,
                             fetch: string -> Response)
    ensures Skips(d, fs, env, expand) ==>
      Get(d, fs, env, expand, fetch) == GetAsWritten(d, fs, env, expand, fetch)
    ensures Get(d, fs, env, expand, fetch).err.Some? ==> Get(d, fs, env, expand, fetch).fs == fs
  {
  }

  /** `Run` performs the program's fetch step: when it neither skips nor
      fails, the path as given holds the body. */
  function Run(d: Download, fs: FS, env: Env, expand: string -> string,
               fetch: string -> Response): (r: Effect)
    ensures r.commands == []
    ensures !Skips(d, fs, env, expand) && r.err.None? ==>
      fetch(d.url).Response? && fetch(d.url).status == 200 &&
      FileExists(r.fs, d.path) && ReadFile(r.fs, d.path) == Ok(fetch(d.url).body)
  {
    GetAsWritten(d, fs, env, expand, fetch)
  }
}
