/** The apt repository resource (resources/apt.go): writes, removes or just
    refreshes an entry under /etc/apt/sources.list.d. Fetching signing keys
    is not modelled beyond its outcome, which in the program is always
    success. */
module AptResource {
  import opened Wrappers
  import opened Ambient
  import opened Contract
  import opened FileSystem
  import Text

  datatype Apt = Apt(
    name: string,
    uri: string,
    distribution: string,
    source: string,
    parameters: map<string, string>,
    signingKey: string,
    signingKeyURL: string,
    delete: bool,
    update: bool,
    updateOnly: bool,
    path: string)

  /** The zero value of the record. */
  const Blank := Apt("", "", "", "", map[], "", "", false, false, false, "")

  /** The global lock is requested exactly when an `apt-get update` may run. */
  function Params(a: Apt): (r: ResourceParams)
    ensures r.globalLock <==> a.update || a.updateOnly
  {
    ResourceParams(a.update || a.updateOnly)
  }

  /** Where the repository's list file is written. */
  function SourcesListPath(name: string): string
  {
    "/etc/apt/sources.list.d/" + name + ".list"
  }

  /** `signingKeyPath`. */
  function SigningKeyPath(name: string): string
  {
    "/usr/share/keyrings/" + name + ".gpg"
  }

  /** The preflight errors, in the order they are checked. */
  const NameRequired := "Required parameter: Name"
  const UriRequired := "Required parameter: URI"
  const RootRequired := "Apt resource must be run as root"
  const BothKeys := "Cannot set both SigningKey and SigningKeyURL"

  /** Update-only needs nothing. Otherwise Name, URI and root are required in
      that order; then the distribution defaults to the Ubuntu codename and the
      source to "main"; then both kinds of signing key at once are refused;
      only then is the list path recorded. */
  function PreflightChecks(a: Apt, host: Host): (r: Checked<Apt>)
    ensures a.updateOnly ==> r == Checked(a, None)
    ensures !a.updateOnly && a.name == "" ==> r.err == Some(NameRequired)
    ensures !a.updateOnly && a.name != "" && a.uri == "" ==> r.err == Some(UriRequired)
    ensures !a.updateOnly && a.name != "" && a.uri != "" && !host.isRoot ==>
      r.err == Some(RootRequired)
    ensures !a.updateOnly && a.name != "" && a.uri != "" && host.isRoot ==>
      && r.value.distribution == (if a.distribution == "" then host.ubuntuCodename else a.distribution)
      && r.value.source == (if a.source == "" then "main" else a.source)
      && (r.err.Some? <==> a.signingKey != "" && a.signingKeyURL != "")
    ensures r.err.None? && !a.updateOnly ==> r.value.path == SourcesListPath(a.name)
    ensures r.value.name == a.name && r.value.uri == a.uri && r.value.parameters == a.parameters
    ensures r.value.signingKey == a.signingKey && r.value.signingKeyURL == a.signingKeyURL
    ensures r.value.delete == a.delete && r.value.update == a.update && r.value.updateOnly == a.updateOnly
  {
    if a.updateOnly then Checked(a, None)
    else if a.name == "" then Checked(a, Some(NameRequired))
    else if a.uri == "" then Checked(a, Some(UriRequired))
    else if !host.isRoot then Checked(a, Some(RootRequired))
    else
      var a1 := a.(
        distribution := if a.distribution == "" then host.ubuntuCodename else a.distribution,
        source := if a.source == "" then "main" else a.source);
      if a1.signingKey != "" && a1.signingKeyURL != "" then
        Checked(a1, Some(BothKeys))
      else
        Checked(a1.(path := SourcesListPath(a1.name)), None)
  }

  /** Preflight a second time changes nothing and reports the same error. */
  lemma PreflightIdempotent(a: Apt, host: Host)
    ensures PreflightChecks(PreflightChecks(a, host).value, host) == PreflightChecks(a, host)
  {
  }

  /** `AptUpdate()`: only the update-only flag, which passes preflight
      untouched and takes the global lock. */
  function AptUpdate(): Apt
  {
    Blank.(updateOnly := true)
  }

  lemma AptUpdateSpec(host: Host)
    ensures AptUpdate().updateOnly && AptUpdate().(updateOnly := false) == Blank
    ensures OperationName(AptUpdate()) == "Update"
    ensures PreflightChecks(AptUpdate(), host) == Checked(AptUpdate(), None)
    ensures Params(AptUpdate()).globalLock
  {
  }

  /** The name logged for the operation: Delete before Update before Create. */
  function OperationName(a: Apt): string
  {
    if a.delete then "Delete" else if a.updateOnly then "Update" else "Create"
  }

  datatype Operation = UpdateOnly | DeleteRepository | CreateRepository

  /** What `Run` does: update-only before delete before create. */
  function RunDispatch(a: Apt): Operation
  {
    if a.updateOnly then UpdateOnly else if a.delete then DeleteRepository else CreateRepository
  }

  /** The name and the dispatch agree except when both Delete and UpdateOnly
      are set: the log then says "Delete" while the run only updates. */
  lemma OperationVersusRun(a: Apt)
    ensures a.delete && a.updateOnly ==> OperationName(a) == "Delete" && RunDispatch(a) == UpdateOnly
    ensures !(a.delete && a.updateOnly) ==>
      (OperationName(a) == "Delete" <==> RunDispatch(a) == DeleteRepository) &&
      (OperationName(a) == "Update" <==> RunDispatch(a) == UpdateOnly) &&
      (OperationName(a) == "Create" <==> RunDispatch(a) == CreateRepository)
  {
  }

  // ---------------------------------------------------------------------------
  // The sources.list line

  /** `order` lists every key of `keys` exactly once: one of the orders in
      which Go may iterate over the parameter map. */
  predicate IsEnumeration(order: seq<string>, keys: set<string>)
  {
    && (forall k :: k in keys ==> k in order)
    && (forall i :: 0 <= i < |order| ==> order[i] in keys)
    && (forall i, j :: 0 <= i < j < |order| ==> order[i] != order[j])
  }

  /** The `k=v` words in the given iteration order (keys the map lacks are
      passed over). When every key of the order is in the map there is one
      word per key, in the order's order. */
  function Pairs(params: map<string, string>, order: seq<string>): (r: seq<string>)
    ensures |r| <= |order|
    ensures (forall i :: 0 <= i < |order| ==> order[i] in params) ==>
      && |r| == |order|
      && forall i :: 0 <= i < |order| ==> r[i] == order[i] + "=" + params[order[i]]
  {
    if |order| == 0 then []
    else (if order[0] in params then [order[0] + "=" + params[order[0]]] else []) + Pairs(params, order[1..])
  }

  lemma EveryParameterListed(params: map<string, string>, order: seq<string>)
    requires IsEnumeration(order, params.Keys)
    ensures forall k :: k in params ==> k + "=" + params[k] in Pairs(params, order)
  {
    forall k | k in params
      ensures k + "=" + params[k] in Pairs(params, order)
    {
      var i :| 0 <= i < |order| && order[i] == k;
      assert Pairs(params, order)[i] == k + "=" + params[k];
    }
  }

  /** The words of the line: "deb", the bracketed options when there are any,
      the URI, the distribution, the source and a final newline word. */
  function LineFields(uri: string, distribution: string, source: string,
                      params: map<string, string>, order: seq<string>): seq<string>
  {
    ["deb"]
    + (if |params| > 0 then ["[" + Text.Join(Pairs(params, order), " ") + "]"] else [])
    + [uri, distribution, source, "\n"]
  }

  /** The content written to the list file: the words joined by single spaces. */
  function SourceLine(uri: string, distribution: string, source: string,
                      params: map<string, string>, order: seq<string>): string
  {
    Text.Join(LineFields(uri, distribution, source, params, order), " ")
  }

  /** Without options, splitting the line at spaces gives back exactly
      "deb", the URI, the distribution, the source and the newline, provided
      none of them contains a space. */
  lemma SourceLineFields(uri: string, distribution: string, source: string)
    requires ' ' !in uri && ' ' !in distribution && ' ' !in source
    ensures Text.Split(SourceLine(uri, distribution, source, map[], []), ' ')
            == ["deb", uri, distribution, source, "\n"]
    ensures SourceLine(uri, distribution, source, map[], [])
            == "deb " + uri + " " + distribution + " " + source + " \n"
  {
    var fields := ["deb", uri, distribution, source, "\n"];
    assert LineFields(uri, distribution, source, map[], []) == fields;
    assert forall i :: 0 <= i < |fields| ==> ' ' !in fields[i] by {
      assert ' ' !in "deb" && ' ' !in "\n";
    }
    Text.SplitJoin(fields, ' ');
    JoinedFields(uri, distribution, source);
  }

  lemma JoinedFields(uri: string, distribution: string, source: string)
    ensures Text.Join(["deb", uri, distribution, source, "\n"], " ")
            == "deb " + uri + " " + distribution + " " + source + " \n"
  {
    Text.JoinCons(source, ["\n"], " ");
    Text.JoinCons(distribution, [source, "\n"], " ");
    Text.JoinCons(uri, [distribution, source, "\n"], " ");
    Text.JoinCons("deb", [uri, distribution, source, "\n"], " ");
  }

  /** With options, the second word is the bracketed list of pairs. */
  lemma SourceLineOptions(uri: string, distribution: string, source: string,
                          params: map<string, string>, order: seq<string>)
    requires IsEnumeration(order, params.Keys) && |params| > 0
    ensures LineFields(uri, distribution, source, params, order)[1]
            == "[" + Text.Join(Pairs(params, order), " ") + "]"
    ensures |LineFields(uri, distribution, source, params, order)| == 6
  {
    var opt := "[" + Text.Join(Pairs(params, order), " ") + "]";
    assert LineFields(uri, distribution, source, params, order) == ["deb", opt, uri, distribution, source, "\n"];
  }

  /** The options in force when the list is written: a signing key, of either
      kind, adds `signed-by` pointing at the key file. */
  function EffectiveParameters(a: Apt): (r: map<string, string>)
    ensures a.signingKey != "" || a.signingKeyURL != "" ==>
      r == a.parameters["signed-by" := SigningKeyPath(a.name)]
    ensures a.signingKey == "" && a.signingKeyURL == "" ==> r == a.parameters
  {
    if a.signingKey != "" || a.signingKeyURL != "" then
      a.parameters["signed-by" := SigningKeyPath(a.name)]
    else a.parameters
  }

  // ---------------------------------------------------------------------------
  // Run

  /** `apt-get update -y` through `bash -c`. */
  const UpdateCommand := Invocation(["bash", "-c", "apt-get update -y"], "")

  /** `updateApt`: nothing in dry-run, an error when not root, else the update
      command with the error it returns. */
  function UpdateApt(fs: FS, env: Env, exec: Invocation -> Option<string>): (r: Effect)
    ensures r.fs == fs
    ensures env.config.dryRun ==> r == Effect(fs, [], None)
    ensures !env.config.dryRun && !env.host.isRoot ==> r == Effect(fs, [], Some("must be run as root"))
    ensures !env.config.dryRun && env.host.isRoot ==> r == Effect(fs, [UpdateCommand], exec(UpdateCommand))
  {
    if env.config.dryRun then Effect(fs, [], None)
    else if !env.host.isRoot then Effect(fs, [], Some("must be run as root"))
    else Effect(fs, [UpdateCommand], exec(UpdateCommand))
  }

  /** The list file's content once the signing key, if any, is in place. */
  function ListContent(a: Apt, order: seq<string>): string
  {
    SourceLine(a.uri, a.distribution, a.source, EffectiveParameters(a), order)
  }

  /** Write the list file unless it already holds exactly the line, then
      update if asked. */
  function WriteList(a: Apt, fs: FS, env: Env, line: string,
                     exec: Invocation -> Option<string>): Effect
  {
    if FileExists(fs, a.path) && ReadFile(fs, a.path).Err? then
      Effect(fs, [], Some(ReadFile(fs, a.path).error))
    else if FileExists(fs, a.path) && ReadFile(fs, a.path).value == line then
      Effect(fs, [], None)
    else
      var fs' := WriteFile(fs, a.path, line);
      if a.update then UpdateApt(fs', env, exec) else Effect(fs', [], None)
  }

  /** `createApt`: write the list file unless it already holds exactly the
      line, then update if asked. Fetching the signing key always reports
      success in the program, so it does not show here beyond the
      `signed-by` option it adds. */
  function CreateApt(a: Apt, fs: FS, env: Env, order: seq<string>,
                     exec: Invocation -> Option<string>): (r: Effect)
  {
    if env.config.dryRun then Effect(fs, [], None)
    else WriteList(a, fs, env, ListContent(a, order), exec)
  }

  /** Creating the repository leaves the list file holding the line (or
      already holding it), and no other path changes. */
  lemma CreateAptWrites(a: Apt, fs: FS, env: Env, order: seq<string>,
                        exec: Invocation -> Option<string>)
    requires !env.config.dryRun
    ensures var r := CreateApt(a, fs, env, order, exec);
      r.err.None? ==> FileExists(r.fs, a.path) && ReadFile(r.fs, a.path) == Ok(ListContent(a, order))
    ensures var r := CreateApt(a, fs, env, order, exec);
      forall q :: q != Resolve(fs, a.path) ==> (q in r.fs <==> q in fs) && (q in fs ==> r.fs[q] == fs[q])
  {
    ReadAfterWrite(fs, a.path, ListContent(a, order));
  }

  /** Creating twice with the same parameter order: the second run finds the
      line in place and writes nothing and issues nothing. */
  lemma CreateAptSameOrderIdempotent(a: Apt, fs: FS, env: Env, order: seq<string>,
                                     exec: Invocation -> Option<string>)
    requires !env.config.dryRun
    requires CreateApt(a, fs, env, order, exec).err.None?
    ensures var fs1 := CreateApt(a, fs, env, order, exec).fs;
      CreateApt(a, fs1, env, order, exec) == Effect(fs1, [], None)
  {
    CreateAptWrites(a, fs, env, order, exec);
  }

  /** An enumeration has one entry per key. */
  lemma {:induction false} EnumerationLength(order: seq<string>, keys: set<string>)
    requires IsEnumeration(order, keys)
    ensures |order| == |keys|
  {
    if |order| == 0 {
      assert forall k :: k in keys ==> k in order;
      assert keys == {};
    } else {
      var x := order[0];
      var rest := order[1..];
      forall k | k in keys - {x}
        ensures k in rest
      {
        var i :| 0 <= i < |order| && order[i] == k;
        assert rest[i - 1] == k;
      }
      forall i | 0 <= i < |rest|
        ensures rest[i] in keys - {x}
      {
        assert rest[i] == order[i + 1];
      }
      forall i, j | 0 <= i < j < |rest|
        ensures rest[i] != rest[j]
      {
        assert rest[i] == order[i + 1] && rest[j] == order[j + 1];
      }
      EnumerationLength(rest, keys - {x});
    }
  }

  /** A set of at most one key has a single enumeration. */
  lemma EnumerationsOfAtMostOneKey(o1: seq<string>, o2: seq<string>, keys: set<string>)
    requires IsEnumeration(o1, keys) && IsEnumeration(o2, keys) && |keys| <= 1
    ensures o1 == o2
  {
    EnumerationLength(o1, keys);
    EnumerationLength(o2, keys);
    if |keys| == 1 {
      var k :| k in keys;
      assert keys == {k} by {
        assert |keys - {k}| == 0;
      }
      assert o1[0] in keys && o2[0] in keys;
    }
  }

  /** Creating twice, each run iterating over the parameters in whatever
      order the map yields that time: with at most one option on the line
      the order cannot matter, and the second run is a no-op. */
  lemma CreateAptIdempotent(a: Apt, fs: FS, env: Env, o1: seq<string>, o2: seq<string>,
                            exec: Invocation -> Option<string>)
    requires !env.config.dryRun
    requires IsEnumeration(o1, EffectiveParameters(a).Keys)
    requires IsEnumeration(o2, EffectiveParameters(a).Keys)
    requires |EffectiveParameters(a)| <= 1
    requires CreateApt(a, fs, env, o1, exec).err.None?
    ensures var fs1 := CreateApt(a, fs, env, o1, exec).fs;
      CreateApt(a, fs1, env, o2, exec) == Effect(fs1, [], None)
  {
    EnumerationsOfAtMostOneKey(o1, o2, EffectiveParameters(a).Keys);
    CreateAptSameOrderIdempotent(a, fs, env, o1, exec);
  }

  /** A repository with two options, updating after every write. */
  const TwoOptions := Blank.(name := "r", uri := "u", distribution := "d", source := "main",
                             parameters := map["arch" := "amd64", "lang" := "en"],
                             update := true, path := "/etc/apt/sources.list.d/r.list")

  /** With options, the sixth character of the line, just after "deb [", is
      the first character of the first key in the iteration order. */
  lemma SourceLineFirstKey(uri: string, distribution: string, source: string,
                           params: map<string, string>, order: seq<string>)
    requires forall i :: 0 <= i < |order| ==> order[i] in params
    requires |order| >= 1 && |order[0]| >= 1
    ensures |SourceLine(uri, distribution, source, params, order)| > 5
    ensures SourceLine(uri, distribution, source, params, order)[5] == order[0][0]
  {
    var ps := Pairs(params, order);
    Text.JoinHead(ps, " ");
    var opt := "[" + Text.Join(ps, " ") + "]";
    var fields := LineFields(uri, distribution, source, params, order);
    assert fields == ["deb"] + fields[1..] && fields[1] == opt;
    Text.JoinCons("deb", fields[1..], " ");
    Text.JoinHead(fields[1..], " ");
    var line := SourceLine(uri, distribution, source, params, order);
    assert line == "deb " + Text.Join(fields[1..], " ");
    assert line[5] == opt[1];
  }

  /** Two options whose keys begin differently give different lines in the
      two orders. */
  lemma SwappedKeysChangeLine(a: Apt, k1: string, k2: string)
    requires k1 in EffectiveParameters(a) && k2 in EffectiveParameters(a)
    requires |k1| >= 1 && |k2| >= 1 && k1[0] != k2[0]
    ensures ListContent(a, [k1, k2]) != ListContent(a, [k2, k1])
  {
    var params := EffectiveParameters(a);
    SourceLineFirstKey(a.uri, a.distribution, a.source, params, [k1, k2]);
    SourceLineFirstKey(a.uri, a.distribution, a.source, params, [k2, k1]);
  }

  /** When the line differs from the one the first run wrote, a second create
      as root with Update rewrites the list file and updates again. */
  lemma CreateAptRewrites(a: Apt, fs: FS, env: Env, o1: seq<string>, o2: seq<string>,
                          exec: Invocation -> Option<string>)
    requires !env.config.dryRun && env.host.isRoot && a.update
    requires ListContent(a, o1) != ListContent(a, o2)
    requires CreateApt(a, fs, env, o1, exec).err.None?
    ensures var fs1 := CreateApt(a, fs, env, o1, exec).fs;
      var r2 := CreateApt(a, fs1, env, o2, exec);
      r2.fs != fs1 && r2.commands == [UpdateCommand]
  {
    CreateAptWrites(a, fs, env, o1, exec);
    var fs1 := CreateApt(a, fs, env, o1, exec).fs;
    ReadAfterWrite(fs1, a.path, ListContent(a, o2));
  }

  /** The options in force for the example are exactly its two keys. */
  lemma TwoOptionsKeys()
    ensures EffectiveParameters(TwoOptions).Keys == {"arch", "lang"}
    ensures IsEnumeration(["arch", "lang"], EffectiveParameters(TwoOptions).Keys)
    ensures IsEnumeration(["lang", "arch"], EffectiveParameters(TwoOptions).Keys)
  {
    assert EffectiveParameters(TwoOptions) == map["arch" := "amd64", "lang" := "en"];
  }

  /** The two iteration orders of the two options give different lines. */
  lemma TwoOptionsLines()
    ensures ListContent(TwoOptions, ["arch", "lang"]) != ListContent(TwoOptions, ["lang", "arch"])
  {
    TwoOptionsKeys();
    SwappedKeysChangeLine(TwoOptions, "arch", "lang");
  }

  /** With two options, a second run that meets the map in the other order
      rewrites the list file and updates again. */
  lemma CreateAptOrderMatters()
    ensures var env := Env(Host(true, CurrentUser("0", "0"), "", "ubuntu"), Flags(false, false, false), Flags(false, false, false));
      var exec := (c: Invocation) => None;
      var r1 := CreateApt(TwoOptions, map[], env, ["arch", "lang"], exec);
      var r2 := CreateApt(TwoOptions, r1.fs, env, ["lang", "arch"], exec);
      && IsEnumeration(["arch", "lang"], EffectiveParameters(TwoOptions).Keys)
      && IsEnumeration(["lang", "arch"], EffectiveParameters(TwoOptions).Keys)
      && r1.err.None? && r2.err.None?
      && r2.fs != r1.fs && r2.commands == [UpdateCommand]
  {
    var env := Env(Host(true, CurrentUser("0", "0"), "", "ubuntu"), Flags(false, false, false), Flags(false, false, false));
    var exec := (c: Invocation) => None;
    TwoOptionsKeys();
    TwoOptionsLines();
    CreateAptRewrites(TwoOptions, map[], env, ["arch", "lang"], ["lang", "arch"], exec);
  }

  /** Creation with the parameters sorted by key: the line no longer depends
      on the iteration order. */
  function CreateAptSorted(a: Apt, fs: FS, env: Env, order: seq<string>,
                           exec: Invocation -> Option<string>): (r: Effect)
    ensures !env.config.dryRun && r.err.None? ==>
      FileExists(r.fs, a.path) && ReadFile(r.fs, a.path) == Ok(ListContent(a, Text.SortStrings(order)))
  {
    if env.config.dryRun then Effect(fs, [], None)
    else
      CreateAptWrites(a, fs, env, Text.SortStrings(order), exec);
      CreateApt(a, fs, env, Text.SortStrings(order), exec)
  }

  /** The corrected creation is idempotent whatever order each run meets
      the parameters in. */
  lemma CreateAptSortedIdempotent(a: Apt, fs: FS, env: Env, o1: seq<string>, o2: seq<string>,
                                  exec: Invocation -> Option<string>)
    requires !env.config.dryRun
    requires IsEnumeration(o1, EffectiveParameters(a).Keys)
    requires IsEnumeration(o2, EffectiveParameters(a).Keys)
    requires CreateAptSorted(a, fs, env, o1, exec).err.None?
    ensures var fs1 := CreateAptSorted(a, fs, env, o1, exec).fs;
      CreateAptSorted(a, fs1, env, o2, exec) == Effect(fs1, [], None)
  {
    Text.SortStringsIgnoresOrder(o1, o2);
    CreateAptSameOrderIdempotent(a, fs, env, Text.SortStrings(o1), exec);
  }

  /** `deleteApt`: remove the list file if there is one, then update if
      asked. A removal that fails (a directory with entries at the path)
      ends the run with nothing changed and nothing issued. */
  function DeleteApt(a: Apt, fs: FS, env: Env, exec: Invocation -> Option<string>): (r: Effect)
    ensures env.config.dryRun || !FileExists(fs, a.path) ==> r == Effect(fs, [], None)
    ensures !env.config.dryRun && FileExists(fs, a.path) && RemoveEntry(fs, a.path).Err? ==>
      r == Effect(fs, [], Some(RemoveEntry(fs, a.path).error))
    ensures !env.config.dryRun && FileExists(fs, a.path) && RemoveEntry(fs, a.path).Ok? ==>
      && r.fs == Remove(fs, a.path)
      && (r.commands != [] ==> a.update)
      && (!a.update ==> r.err.None?)
      && (a.update && env.host.isRoot ==> r.commands == [UpdateCommand] && r.err == exec(UpdateCommand))
  {
    if env.config.dryRun || !FileExists(fs, a.path) then Effect(fs, [], None)
    else match RemoveEntry(fs, a.path)
      case Err(e) => Effect(fs, [], Some(e))
      case Ok(fs') => if a.update then UpdateApt(fs', env, exec) else Effect(fs', [], None)
  }

  /** Deleting twice: after a removal the list file is gone, and a second
      deletion finds nothing to do and issues nothing, even when updating. */
  lemma DeleteAptRemoves(a: Apt, fs: FS, env: Env, exec: Invocation -> Option<string>)
    requires !env.config.dryRun && FileExists(fs, a.path) && RemoveEntry(fs, a.path).Ok?
    ensures var fs1 := DeleteApt(a, fs, env, exec).fs;
      !FileExists(fs1, a.path) && DeleteApt(a, fs1, env, exec) == Effect(fs1, [], None)
  {
  }

  /** `Run`: the dispatched operation. */
  function Run(a: Apt, fs: FS, env: Env, order: seq<string>,
               exec: Invocation -> Option<string>): (r: Effect)
    ensures a.updateOnly ==> r == UpdateApt(fs, env, exec)
  {
    match RunDispatch(a)
    case UpdateOnly => UpdateApt(fs, env, exec)
    case DeleteRepository => DeleteApt(a, fs, env, exec)
    case CreateRepository => CreateApt(a, fs, env, order, exec)
  }
}
