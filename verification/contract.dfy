/** The parts of the descriptor contract (resource.go) that every resource
    kind shares: the scheduling parameters a kind asks for, and the shape of a
    preflight result — the descriptor after defaults were filled in, together
    with the error the checks returned, if any. Defaults filled in before an
    error stay filled in, as they do on the program's pointer receivers. */
module Contract {
  import opened Wrappers

  /** `ResourceParams`: whether the resource must hold the global lock while
      it runs. */
  datatype ResourceParams = ResourceParams(globalLock: bool)

  /** `NewResourceParams`: no global lock. */
  function NewResourceParams(): (p: ResourceParams)
    ensures !p.globalLock
  {
    ResourceParams(false)
  }

  /** `NewResourceParamsWithLock`: the global lock is requested. */
  function NewResourceParamsWithLock(): (p: ResourceParams)
    ensures p.globalLock
  {
    ResourceParams(true)
  }

  /** A descriptor after its preflight checks, and their error. */
  datatype Checked<+T> = Checked(value: T, err: Option<string>)
}
