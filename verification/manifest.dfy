/** The manifest's registration API (manifest.go): a map from identifier to
    resource, filled by `Add` and edited by `SetName`, `SetDep` and
    `WithLock`. Where the program aborts the process (`log.Fatal`), the
    model returns an error. */
module Manifests {
  import opened Wrappers
  import opened Descriptor
  import opened Resources

  datatype Manifest = Manifest(resources: map<string, Resource>)

  /** `New`: no resources. */
  function New(): (m: Manifest)
    ensures |m.resources| == 0
  {
    Manifest(map[])
  }

  /** An entry as registration leaves it: stored under its own identifier,
      with a descriptor, the descriptor's kind, the lock whenever the kind
      asks for it, still pending and without error. */
  predicate Registered(r: Resource, id: string)
  {
    && r.id == id
    && r.attributes.Some?
    && r.kind == KindName(r.attributes.value)
    && (Params(r.attributes.value).globalLock ==> r.globalLock)
    && r.status == Pending
    && r.error == None
  }

  predicate WellFormed(m: Manifest)
  {
    forall id :: id in m.resources ==> Registered(m.resources[id], id)
  }

  /** Every entry except the one at `except` is the same in both maps. */
  ghost predicate OthersUnchanged(a: map<string, Resource>, b: map<string, Resource>, except: set<string>)
  {
    forall k :: k !in except ==> (k in a <==> k in b) && (k in a ==> a[k] == b[k])
  }

  // ---------------------------------------------------------------------------
  // SetName

  /** `SetName` as the program writes it: the entry is stored under the new
      name and then the old key is deleted, so a rename to the same name
      deletes the entry. */
  function SetNameAsWritten(m: Manifest, h: Resource, newName: string): (r: Result<Manifest>)
    ensures r.Err? <==> h.id !in m.resources
  {
    if h.id !in m.resources then Err("Unknown resource")
    else
      var res := m.resources[h.id].(id := newName);
      Ok(Manifest(m.resources[newName := res] - {h.id}))
  }

  /** Renaming a resource to its own identifier removes it from the map. */
  lemma SetNameAsWrittenLosesSelfRename(m: Manifest, h: Resource)
    requires h.id in m.resources
    ensures SetNameAsWritten(m, h, h.id).Ok?
    ensures h.id !in SetNameAsWritten(m, h, h.id).value.resources
    ensures |SetNameAsWritten(m, h, h.id).value.resources| == |m.resources| - 1
  {
  }

  /** `SetName` corrected: the entry moves to the new key with the new
      identifier, replacing whatever was stored there, and the old key is
      deleted only when it differs from the new one. */
  function SetName(m: Manifest, h: Resource, newName: string): (r: Result<Manifest>)
    ensures r.Err? <==> h.id !in m.resources
    ensures r.Err? ==> r.error == "Unknown resource"
    ensures r.Ok? ==> newName in r.value.resources && r.value.resources[newName] == m.resources[h.id].(id := newName)
    ensures r.Ok? && newName != h.id ==> h.id !in r.value.resources
    ensures r.Ok? ==> r.value.resources.Keys == m.resources.Keys - {h.id} + {newName}
    ensures r.Ok? ==> OthersUnchanged(m.resources, r.value.resources, {h.id, newName})
  {
    if h.id !in m.resources then Err("Unknown resource")
    else
      var res := m.resources[h.id].(id := newName);
      var moved := m.resources[newName := res];
      Ok(Manifest(if newName == h.id then moved else moved - {h.id}))
  }

  /** The correction changes only the self-rename, which on a well-formed
      manifest now leaves it as it was. */
  lemma SetNameCorrectsAsWritten(m: Manifest, h: Resource, newName: string)
    ensures newName != h.id ==> SetName(m, h, newName) == SetNameAsWritten(m, h, newName)
    ensures WellFormed(m) && h.id in m.resources ==> SetName(m, h, h.id) == Ok(m)
  {
    if WellFormed(m) && h.id in m.resources {
      assert m.resources[h.id].(id := h.id) == m.resources[h.id];
      assert m.resources[h.id := m.resources[h.id]] == m.resources;
    }
  }

  lemma SetNamePreserves(m: Manifest, h: Resource, newName: string)
    requires WellFormed(m) && SetName(m, h, newName).Ok?
    ensures WellFormed(SetName(m, h, newName).value)
  {
  }

  // ---------------------------------------------------------------------------
  // SetDep and WithLock

  /** `SetDep`: the name is appended to the stored dependencies, whether or
      not anything by that name exists; an unknown resource is ignored. */
  function SetDep(m: Manifest, h: Resource, name: string): (r: Manifest)
    ensures h.id !in m.resources ==> r == m
    ensures r.resources.Keys == m.resources.Keys
    ensures OthersUnchanged(m.resources, r.resources, {h.id})
    ensures h.id in m.resources ==>
      var before := m.resources[h.id];
      var after := r.resources[h.id];
      after.dependsOn == before.dependsOn + [name] && after == before.(dependsOn := after.dependsOn)
  {
    if h.id in m.resources then
      var v := m.resources[h.id];
      Manifest(m.resources[h.id := v.(dependsOn := v.dependsOn + [name])])
    else m
  }

  /** `WithLock`: the stored resource takes the global lock; nothing else
      changes, and an unknown resource is ignored. */
  function WithLock(m: Manifest, h: Resource): (r: Manifest)
    ensures h.id !in m.resources ==> r == m
    ensures r.resources.Keys == m.resources.Keys
    ensures OthersUnchanged(m.resources, r.resources, {h.id})
    ensures h.id in m.resources ==> r.resources[h.id] == m.resources[h.id].(globalLock := true)
  {
    if h.id in m.resources then
      Manifest(m.resources[h.id := m.resources[h.id].(globalLock := true)])
    else m
  }

  lemma WithLockIdempotent(m: Manifest, h: Resource)
    ensures WithLock(WithLock(m, h), h) == WithLock(m, h)
  {
  }

  lemma EditsPreserve(m: Manifest, h: Resource, name: string)
    requires WellFormed(m)
    ensures WellFormed(SetDep(m, h, name))
    ensures WellFormed(WithLock(m, h))
  {
  }

  /** The caller's handle keeps the identifier it had before a rename, so
      later edits through it do nothing. */
  lemma StaleHandleAfterRename(m: Manifest, h: Resource, newName: string, name: string)
    requires SetName(m, h, newName).Ok? && newName != h.id
    ensures var m1 := SetName(m, h, newName).value;
      SetDep(m1, h, name) == m1 && WithLock(m1, h) == m1
  {
  }

  // ---------------------------------------------------------------------------
  // addResource and Add

  /** `addResource`: the descriptor is attached and its lock request merged
      in, the identifier is computed, and a resource whose identifier is
      already taken is refused. */
  function AddResource(m: Manifest, r: Resource, a: Attrs, hash: Resource -> Digest)
    : (out: Result<(Manifest, Resource)>)
    ensures r.kind == "" ==> out == Err("resource kind has not been set")
    ensures out.Ok? ==>
      var (m1, stored) := out.value;
      && stored.id !in m.resources
      && m1.resources == m.resources[stored.id := stored]
      && stored.attributes == Some(a)
      && stored.globalLock == (r.globalLock || Params(a).globalLock)
      && stored.dependsOn == r.dependsOn && stored.kind == r.kind
      && stored.status == r.status && stored.error == r.error
    ensures r.kind != "" && out.Err? ==> out.error == "resource already exists"
  {
    var r1 := r.(attributes := Some(a), globalLock := r.globalLock || Params(a).globalLock);
    var r2 :- SetID(r1, hash);
    if r2.id in m.resources then Err("resource already exists")
    else Ok((Manifest(m.resources[r2.id := r2]), r2))
  }

  /** A duplicate is refused exactly when its identifier is taken; the map
      grows by exactly one key otherwise. */
  lemma AddResourceDuplicate(m: Manifest, r: Resource, a: Attrs, hash: Resource -> Digest)
    requires r.kind != ""
    ensures var r1 := r.(attributes := Some(a), globalLock := r.globalLock || Params(a).globalLock);
      AddResource(m, r, a, hash).Err? <==> MakeID(r.kind, hash(r1)) in m.resources
    ensures AddResource(m, r, a, hash).Ok? ==>
      |AddResource(m, r, a, hash).value.0.resources| == |m.resources| + 1
  {
  }

  /** `Add`: a new resource from the descriptor and the dependencies' handles,
      classified, registered, and returned as the caller's handle. */
  method Add(m: Manifest, h: Handle, deps: seq<Resource>, hash: Resource -> Digest)
    returns (out: Result<(Manifest, Resource)>)
    ensures out.Ok? ==>
      var (m1, handle) := out.value;
      && h.Pointer?
      && handle.id !in m.resources
      && m1.resources == m.resources[handle.id := handle]
      && Registered(handle, handle.id)
      && handle.attributes == Some(h.attrs)
      && |handle.dependsOn| == |deps|
      && (forall i :: 0 <= i < |deps| ==> handle.dependsOn[i] == deps[i].id)
      && (handle.globalLock <==> Params(h.attrs).globalLock)
    ensures (exists i :: 0 <= i < |deps| && deps[i].id == "") ==> out.Err?
    ensures h.Value? ==> out.Err?
    ensures WellFormed(m) && out.Ok? ==> WellFormed(out.value.0)
  {
    var created := NewResource(deps);
    if created.Err? {
      return Err(created.error);
    }
    var kind := SetKind(h);
    if kind.Err? {
      return Err(kind.error);
    }
    var r := created.value.(kind := kind.value);
    out := AddResource(m, r, h.attrs, hash);
    if out.Ok? {
      ParseMakeID(r.kind, hash(r.(attributes := Some(h.attrs), globalLock := Params(h.attrs).globalLock)));
    }
  }
}
