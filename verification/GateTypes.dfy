/** The gate's vocabulary: modes, tool effects, coverage, gate states and decisions. */
module GateTypes {

  datatype Option<+T> = None | Some(value: T)

  datatype Mode = Manual | Auto | Robot

  datatype MutationKind = Create | Replace | Migrate | Modify | Delete

  datatype ToolEffect = ReadOnly | Mutation(kind: MutationKind) | ExternalSideEffect | Unknown

  datatype CoverageStatus = PresentFresh | AbsentFresh | Partial | StaleCoverage | Missing

  datatype GateState =
    | Advisory
    | AwaitingProof
    | TargetProbe
    | ControllerProbe
    | Replanning
    | ClearedAbsent
    | RejectedPresent
    | Quarantined
    | Stale

  datatype GateDecision = Annotate | AskProof | Deny | AutonomousResolve | QuarantineBranch | DeferToBase

  /** The material an action digest is taken over. It always embeds the mode, so leases of
      different modes never share a record. Digests are injective, so the material stands for
      its own digest. */
  datatype Action = Action(base: string, mode: Mode, detail: string)

  /** The pair every lookup in the store compares. */
  datatype GateKey = GateKey(session: string, action: Action)

  /** The states in which a gate still waits for proof. */
  predicate Waiting(state: GateState) {
    state == AwaitingProof || state == TargetProbe || state == ControllerProbe
  }

  function Min(a: int, b: int): int {
    if a <= b then a else b
  }

  ghost predicate NoDuplicates<T>(s: seq<T>) {
    forall i, j :: 0 <= i < j < |s| ==> s[i] != s[j]
  }
}
