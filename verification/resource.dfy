/** Resources as the engine keeps them (resource.go): a descriptor with its
    kind, dependencies, status, identifier, lock flag and error. The
    identifier is derived from a hash of the whole record; the hash itself
    (SHA-1 over a JSON rendering) is the `hash` parameter, known only to
    give 40 lower-case hexadecimal digits. */
module Resources {
  import opened Wrappers
  import opened Ambient
  import opened Contract
  import opened FileSystem
  import opened Descriptor

  datatype Status = DependencyFailed | Failed | Pending | Success

  /** The status's text. */
  function StatusName(s: Status): string
  {
    match s
    case DependencyFailed => "DependencyFailed"
    case Failed => "Failed"
    case Pending => "Pending"
    case Success => "Success"
  }

  /** A resource counts as failed when it failed itself or one of its
      dependencies did. */
  predicate IsFailed(s: Status)
  {
    s == Failed || s == DependencyFailed
  }

  datatype Resource = Resource(
    attributes: Option<Attrs>,
    kind: string,
    dependsOn: seq<string>,
    status: Status,
    id: string,
    globalLock: bool,
    error: Option<string>)

  /** `newResource`: every dependency must already carry an identifier; the
      identifiers are recorded in argument order, duplicates included. */
  method NewResource(deps: seq<Resource>) returns (r: Result<Resource>)
    ensures r.Ok? <==> forall i :: 0 <= i < |deps| ==> deps[i].id != ""
    ensures r.Err? ==> r.error == "dependency is not a valid resource"
    ensures r.Ok? ==>
      && r.value.attributes == None && r.value.kind == "" && r.value.id == ""
      && r.value.status == Pending && !r.value.globalLock && r.value.error == None
      && |r.value.dependsOn| == |deps|
      && (forall i :: 0 <= i < |deps| ==> r.value.dependsOn[i] == deps[i].id)
  {
    var ids: seq<string> := [];
    var i := 0;
    while i < |deps|
      invariant 0 <= i <= |deps|
      invariant |ids| == i
      invariant forall j :: 0 <= j < i ==> ids[j] == deps[j].id && deps[j].id != ""
    {
      if deps[i].id == "" {
        return Err("dependency is not a valid resource");
      }
      ids := ids + [deps[i].id];
      i := i + 1;
    }
    return Ok(Resource(None, "", ids, Pending, "", false, None));
  }

  /** How a descriptor reaches the engine: behind a pointer, as the program
      expects, or as a plain value. */
  datatype Handle = Pointer(attrs: Attrs) | Value(attrs: Attrs)

  /** `setKind`: the pointed-to type's name; a value cannot be classified. */
  function SetKind(h: Handle): (r: Result<string>)
    ensures r.Ok? <==> h.Pointer?
    ensures r.Ok? ==> r.value == KindName(h.attrs) && r.value != ""
    ensures r.Err? ==> r.error == "cannot determine resource type"
  {
    match h
    case Pointer(a) => Ok(KindName(a))
    case Value(_) => Err("cannot determine resource type")
  }

  predicate IsLowerHex(c: char)
  {
    '0' <= c <= '9' || 'a' <= c <= 'f'
  }

  predicate AllLowerHex(s: string)
  {
    forall i :: 0 <= i < |s| ==> IsLowerHex(s[i])
  }

  /** A SHA-1 digest in hexadecimal. */
  type Digest = s: string | |s| == 40 && AllLowerHex(s)
    witness "0000000000000000000000000000000000000000"

  const IDInfix := "_id-"

  /** The identifier built from a kind and a digest. */
  function MakeID(kind: string, digest: Digest): string
  {
    kind + IDInfix + digest[..8]
  }

  /** `setID`: the kind must be known; the identifier is the kind, "_id-" and
      the first eight digits of the record's hash. */
  function SetID(r: Resource, hash: Resource -> Digest): (out: Result<Resource>)
    ensures out.Err? <==> r.kind == ""
    ensures out.Err? ==> out.error == "resource kind has not been set"
    ensures out.Ok? ==> out.value == r.(id := MakeID(r.kind, hash(r)))
  {
    if r.kind == "" then Err("resource kind has not been set")
    else Ok(r.(id := MakeID(r.kind, hash(r))))
  }

  /** Splits an identifier back into its kind and its eight hash digits. */
  function ParseID(id: string): Option<(string, string)>
  {
    if |id| >= 12 && id[|id| - 12..|id| - 8] == IDInfix && AllLowerHex(id[|id| - 8..]) then
      Some((id[..|id| - 12], id[|id| - 8..]))
    else None
  }

  /** An identifier is twelve characters longer than its kind, and reads back
      as the kind and the digest's first eight digits. */
  lemma ParseMakeID(kind: string, digest: Digest)
    ensures |MakeID(kind, digest)| == |kind| + 12
    ensures ParseID(MakeID(kind, digest)) == Some((kind, digest[..8]))
  {
    var id := MakeID(kind, digest);
    assert id[..|id| - 12] == kind;
    assert id[|id| - 12..|id| - 8] == IDInfix;
    assert id[|id| - 8..] == digest[..8];
  }

  /** Equal identifiers come from the same kind and the same leading digits. */
  lemma MakeIDInjective(k1: string, d1: Digest, k2: string, d2: Digest)
    requires MakeID(k1, d1) == MakeID(k2, d2)
    ensures k1 == k2 && d1[..8] == d2[..8]
  {
    ParseMakeID(k1, d1);
    ParseMakeID(k2, d2);
  }

  /** `run`: the preflight checks first, and the kind's run only when they
      pass, on the descriptor they returned. */
  function RunResource(r: Resource, w: World): (e: Effect)
    requires r.attributes.Some? && Descriptor.Enumerates(w)
    ensures var c := PreflightChecks(r.attributes.value, w.env.host);
      c.err.Some? ==> e == Effect(w.fs, [], c.err)
    ensures var c := PreflightChecks(r.attributes.value, w.env.host);
      c.err.None? ==> e == Descriptor.Run(c.value, w)
  {
    var c := PreflightChecks(r.attributes.value, w.env.host);
    if c.err.Some? then Effect(w.fs, [], c.err) else Descriptor.Run(c.value, w)
  }

  /** A descriptor that went through preflight already (the engine checks
      every resource before running any) runs exactly as the original. */
  lemma RunAfterPreflight(r: Resource, w: World)
    requires r.attributes.Some? && Descriptor.Enumerates(w)
    requires PreflightChecks(r.attributes.value, w.env.host).err.None?
    ensures RunResource(r.(attributes := Some(PreflightChecks(r.attributes.value, w.env.host).value)), w)
            == RunResource(r, w)
  {
    PreflightIdempotent(r.attributes.value, w.env.host);
  }
}
