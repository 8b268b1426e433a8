/** The wire entities shared by the agent and the control plane: action definitions,
    command outputs, execution results and the digest that binds a result to a definition. */
module Actions {

  datatype Option<+T> = None | Some(value: T)

  /** A point in time or a duration, in nanoseconds. */
  type Time = int

  const HOUR: Time := 3_600_000_000_000

  /** Interpreter, working directory and environment of a script are one opaque `settings` value. */
  datatype ShellParams = ShellParams(script: string, detection: string, isCompliance: bool, settings: string)

  /** The concrete arm of the action's parameters; `Shell(None)` is a shell arm without parameters. */
  datatype Params = Unset | Package(spec: string) | Update(spec: string) | Shell(shell: Option<ShellParams>)

  /** `id` is empty when the message carries no identifier. */
  datatype Action = Action(id: string, params: Params, intervalHours: int, timeoutSeconds: int)

  datatype Output = Output(exitCode: int, stdout: string, stderr: string)

  datatype Status = Success | Failed | Timeout | Indeterminate

  /** SHA-256 over the deterministic encoding is taken to be injective: a digest of an action
      is represented by the action itself; any other byte string by its bytes. */
  datatype Digest = Sha256(of: Action) | Raw(bytes: seq<int>)

  function ActionDigest(a: Action): Digest {
    Sha256(a)
  }

  /** A digest names one definition: a single changed field gives another digest. */
  lemma DigestBindsDefinition(a: Action, b: Action)
    ensures ActionDigest(a) == ActionDigest(b) <==> a == b
  {
  }

  predicate Is32(d: Digest) {
    d.Raw? ==> |d.bytes| == 32
  }

  datatype ActionResult = ActionResult(
    actionId: string, runId: string, status: Status,
    output: Option<Output>, detection: Option<Output>,
    completedAt: Option<Time>, digest: Digest)

  predicate IsComplianceAction(a: Action) {
    a.params.Shell? && a.params.shell.Some? && a.params.shell.value.isCompliance
  }
}
