/** An abstract filesystem: a map from (already expanded) paths to entries.
    `Stat`-style queries follow a symbolic link at the path one hop;
    `Lstat`-style queries look at the entry itself. Also the record of what a
    resource's run did: the filesystem afterwards, the commands it issued and
    the error it returned. */
module FileSystem {
  import opened Wrappers
  import Text

  datatype Entry = Regular(content: string) | Dir | Symlink(target: string)

  type FS = map<string, Entry>

  /** The path a following query looks at: the target of a link at `p`, or `p`. */
  function Resolve(fs: FS, p: string): string
  {
    if p in fs && fs[p].Symlink? then fs[p].target else p
  }

  /** `FileExists`: `os.Stat` succeeds, so something that is not a dangling
      link is at the path. */
  predicate FileExists(fs: FS, p: string)
  {
    Resolve(fs, p) in fs && !fs[Resolve(fs, p)].Symlink?
  }

  /** What `os.Stat` finds: nothing where nothing is; any entry that is not
      a link; a link exactly when its target is there and is not a link. A
      path just written exists, and a path just removed does not. */
  lemma FileExistsCases(fs: FS, p: string, content: string)
    ensures p !in fs ==> !FileExists(fs, p)
    ensures p in fs && !fs[p].Symlink? ==> FileExists(fs, p)
    ensures p in fs && fs[p].Symlink? ==>
      (FileExists(fs, p) <==> fs[p].target in fs && !fs[fs[p].target].Symlink?)
    ensures FileExists(WriteFile(fs, p, content), p)
    ensures !FileExists(Remove(fs, p), p)
  {
  }

  /** `os.ReadFile` of an existing path: the content of a regular file, an
      error for a directory. */
  function ReadFile(fs: FS, p: string): Result<string>
    requires FileExists(fs, p)
  {
    match fs[Resolve(fs, p)]
    case Regular(c) => Ok(c)
    case _ => Err("read " + p + ": is a directory")
  }

  /** `os.WriteFile`: the (link-resolved) path now holds exactly `content`. */
  function WriteFile(fs: FS, p: string, content: string): FS
  {
    fs[Resolve(fs, p) := Regular(content)]
  }

  /** A write is visible to the next read of the same path, and no other
      path changes. */
  lemma ReadAfterWrite(fs: FS, p: string, content: string)
    ensures FileExists(WriteFile(fs, p, content), p)
    ensures ReadFile(WriteFile(fs, p, content), p) == Ok(content)
    ensures forall q :: q != Resolve(fs, p) ==> (q in WriteFile(fs, p, content) <==> q in fs)
  {
  }

  /** `os.Remove` / `os.RemoveAll` of the entry at the path itself. */
  function Remove(fs: FS, p: string): FS
  {
    fs - {p}
  }

  /** Some entry lies below `p`: removing `p` itself would fail. */
  predicate HasChildren(fs: FS, p: string)
  {
    exists q :: q in fs && Text.StartsWith(q, p + "/")
  }

  /** `os.Remove` of the entry at `p` itself (a link is removed, not
      followed), which fails on a directory that still has entries. */
  function RemoveEntry(fs: FS, p: string): (r: Result<FS>)
    ensures r.Err? <==> p in fs && fs[p].Dir? && HasChildren(fs, p)
    ensures r.Ok? ==> p !in r.value && forall q :: q != p ==> (q in r.value <==> q in fs) && (q in r.value ==> r.value[q] == fs[q])
  {
    if p in fs && fs[p].Dir? && HasChildren(fs, p) then Err("remove " + p + ": directory not empty")
    else Ok(Remove(fs, p))
  }

  /** The directory part of a path: everything before its last `/`, or ""
      when there is none (the working directory, or the root). */
  function Dirname(p: string): (d: string)
    ensures |d| < |p| || d == ""
    ensures d == "" || p[|d|] == '/'
    ensures d == p[..|d|] || d == ""
    ensures '/' !in p ==> d == ""
  {
    if |p| == 0 then ""
    else if p[|p| - 1] == '/' then p[..|p| - 1]
    else Dirname(p[..|p| - 1])
  }

  /** The directory a new file at `p` goes into is there. */
  predicate ParentExists(fs: FS, p: string)
  {
    var d := Dirname(p);
    d == "" || (Resolve(fs, d) in fs && fs[Resolve(fs, d)].Dir?)
  }

  /** `LinkExists`: some entry, of any kind, is at the path itself. */
  predicate LinkExists(fs: FS, p: string)
  {
    p in fs
  }

  /** A process the resource started: its argument vector and working
      directory (empty for the current one). */
  datatype Invocation = Invocation(argv: seq<string>, dir: string)

  /** What one run of a resource did. */
  datatype Effect = Effect(fs: FS, commands: seq<Invocation>, err: Option<string>)
}
