/** Permission defaults shared by the file-like resource kinds
    (resources/utils.go): the mode, owner and group a resource will apply, and
    the preflight step that fills in the default mode and, when nothing else
    was asked for, the current user's uid and gid. */
module Permissions {
  import opened Wrappers
  import opened Ambient
  import opened Contract
  import Text

  /** Go's `os.FileMode`, a 32-bit word whose top bit marks a directory. */
  type FileMode = bv32

  const ModeDir: FileMode := 0x8000_0000

  /** `ModeDir | 0o755`. */
  const DefaultDirectoryPermissions: FileMode := ModeDir | 0x1ED

  /** `0o644`. */
  const DefaultFilePermissions: FileMode := 0x1A4

  /** What the permissions apply to. */
  datatype PType = PDir | PFile

  datatype Permissions = Permissions(
    mode: FileMode,
    user: string,
    group: string,
    uid: int,
    gid: int,
    root: bool)

  /** The zero value: nothing requested. */
  const Unset := Permissions(0, "", "", 0, 0, false)

  /** The mode preflight settles on: the kind's default for mode 0, and for a
      directory the directory bit added to any explicit mode. */
  function DefaultMode(mode: FileMode, t: PType): FileMode
  {
    if mode == 0 then
      (if t == PDir then DefaultDirectoryPermissions else DefaultFilePermissions)
    else if t == PDir then ModeDir | mode
    else mode
  }

  lemma DirectoryBit(mode: FileMode)
    ensures (ModeDir | mode) & ModeDir == ModeDir
    ensures (ModeDir | mode) | ModeDir == mode | ModeDir
    ensures ModeDir | mode != 0
  {
  }

  /** The settled mode is never 0; a directory's always carries the directory
      bit; an explicit mode keeps all its other bits, and a file's explicit
      mode is kept as it is. */
  lemma DefaultModeSpec(mode: FileMode, t: PType)
    ensures DefaultMode(mode, t) != 0
    ensures t == PDir ==> DefaultMode(mode, t) & ModeDir == ModeDir
    ensures mode != 0 ==> DefaultMode(mode, t) | ModeDir == mode | ModeDir
    ensures mode != 0 && t == PFile ==> DefaultMode(mode, t) == mode
  {
    if mode != 0 && t == PDir {
      DirectoryBit(mode);
    } else if mode == 0 && t == PDir {
      assert DefaultDirectoryPermissions == 0x8000_01ED;
    }
  }

  /** A settled mode is left alone by a second pass. */
  lemma DefaultModeIdempotent(mode: FileMode, t: PType)
    ensures DefaultMode(DefaultMode(mode, t), t) == DefaultMode(mode, t)
  {
    if t == PDir {
      if mode == 0 {
        assert DefaultMode(mode, t) == 0x8000_01ED;
      } else {
        DirectoryBit(mode);
        OrAbsorbs(mode);
      }
    }
  }

  lemma OrAbsorbs(mode: FileMode)
    ensures ModeDir | (ModeDir | mode) == ModeDir | mode
  {
  }

  /** The owner is taken from the current user: no user name, no uid and no
      request for root were given. */
  predicate TakesCurrentUid(p: Permissions)
  {
    p.user == "" && p.uid == 0 && !p.root
  }

  /** Likewise for the group. */
  predicate TakesCurrentGid(p: Permissions)
  {
    p.group == "" && p.gid == 0 && !p.root
  }

  /** The ids the preflight must take from the current user parse. */
  predicate IdsAvailable(p: Permissions, u: CurrentUser)
  {
    (TakesCurrentUid(p) ==> Text.Atoi(u.uid).Ok?) && (TakesCurrentGid(p) ==> Text.Atoi(u.gid).Ok?)
  }

  /** `preflightPermissions`: settle the mode, then fill the uid, then the gid,
      stopping at the first id that does not parse. */
  function PreflightPermissions(p: Permissions, t: PType, u: CurrentUser): (r: Checked<Permissions>)
    ensures r.value.mode == DefaultMode(p.mode, t)
    ensures r.value.user == p.user && r.value.group == p.group && r.value.root == p.root
    ensures r.err.None? <==> IdsAvailable(p, u)
    ensures TakesCurrentUid(p) && Text.Atoi(u.uid).Err? ==> r.err == Some(Text.Atoi(u.uid).error)
    ensures !(TakesCurrentUid(p) && Text.Atoi(u.uid).Err?) && TakesCurrentGid(p) && Text.Atoi(u.gid).Err? ==>
      r.err == Some(Text.Atoi(u.gid).error)
    ensures r.value.uid == (if TakesCurrentUid(p) && Text.Atoi(u.uid).Ok? then Text.Atoi(u.uid).value else p.uid)
    ensures r.err.None? ==> r.value.gid == (if TakesCurrentGid(p) then Text.Atoi(u.gid).value else p.gid)
    ensures !TakesCurrentGid(p) ==> r.value.gid == p.gid
  {
    var p1 := p.(mode := DefaultMode(p.mode, t));
    if TakesCurrentUid(p1) && Text.Atoi(u.uid).Err? then
      Checked(p1, Some(Text.Atoi(u.uid).error))
    else
      var p2 := if TakesCurrentUid(p1) then p1.(uid := Text.Atoi(u.uid).value) else p1;
      if TakesCurrentGid(p2) && Text.Atoi(u.gid).Err? then
        Checked(p2, Some(Text.Atoi(u.gid).error))
      else
        var p3 := if TakesCurrentGid(p2) then p2.(gid := Text.Atoi(u.gid).value) else p2;
        Checked(p3, None)
  }

  /** For a fixed current user, a second preflight pass changes nothing and
      reports the same error: the program runs preflight once before the run
      and again inside each resource's run, on the same descriptor. */
  lemma PreflightPermissionsIdempotent(p: Permissions, t: PType, u: CurrentUser)
    ensures PreflightPermissions(PreflightPermissions(p, t, u).value, t, u) == PreflightPermissions(p, t, u)
  {
    DefaultModeIdempotent(p.mode, t);
  }

  /** The current user's ids both parse. */
  predicate IdsParse(u: CurrentUser)
  {
    Text.Atoi(u.uid).Ok? && Text.Atoi(u.gid).Ok?
  }
}
