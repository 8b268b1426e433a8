/** How the agent turns an action into an observation: detection, remediation, verification,
    and the status and error text of the result. The command runner is the parameter `world`:
    `world(n)` is the outcome of the n-th command of this execution. */
module Executor {
  import opened Actions

  datatype Outcome =
    | Ran(out: Output)
    | Broke(partial: Option<Output>, deadline: bool, message: string)

  datatype Error = Error(deadline: bool, message: string)

  datatype Kind = Detect | Remediate | Manage

  /** What one execution did: outputs, error, and the kinds of commands run, in order. */
  datatype Run = Run(output: Option<Output>, detection: Option<Output>, err: Option<Error>, ran: seq<Kind>)

  function WithError(o: Option<Output>, message: string): Option<Output> {
    var out := if o.Some? then o.value else Output(0, "", "");
    Some(if out.stderr == "" then out.(stderr := message) else out)
  }

  function ExecuteShell(p: Option<ShellParams>, world: int -> Outcome): Run {
    if p.None? then Run(None, None, Some(Error(false, "shell params required")), [])
    else if p.value.isCompliance && p.value.detection == "" then
      Run(None, None, Some(Error(false, "compliance shell action requires a detection script")), [])
    else if p.value.detection == "" then Remediation(p.value, None, [], world)
    else
      match world(0)
      case Broke(partial, deadline, message) =>
        Run(None, WithError(partial, message), Some(Error(deadline, message)), [Detect])
      case Ran(out) =>
        if out.exitCode == 0 || p.value.isCompliance then Run(None, Some(out), None, [Detect])
        else Remediation(p.value, Some(out), [Detect], world)
  }

  /** The part of the shell action after detection asked for remediation. */
  function Remediation(p: ShellParams, detection: Option<Output>, ran: seq<Kind>, world: int -> Outcome): Run {
    if p.script == "" then Run(None, detection, Some(Error(false, "shell action requires a script")), ran)
    else
      match world(|ran|)
      case Broke(partial, deadline, message) =>
        Run(WithError(partial, message), detection, Some(Error(deadline, message)), ran + [Remediate])
      case Ran(out) =>
        if out.exitCode != 0 then
          Run(WithError(Some(out), "shell exited with status"), detection,
              Some(Error(false, "shell exited with status")), ran + [Remediate])
        else if p.detection == "" then Run(Some(out), None, None, ran + [Remediate])
        else
          match world(|ran| + 1)
          case Broke(partial, deadline, message) =>
            Run(Some(out), WithError(partial, message), Some(Error(deadline, message)), ran + [Remediate, Detect])
          case Ran(verified) =>
            if verified.exitCode != 0 then
              Run(Some(out), WithError(Some(verified), "shell remediation verification failed"),
                  Some(Error(false, "shell remediation verification failed")), ran + [Remediate, Detect])
            else Run(Some(out), Some(verified), None, ran + [Remediate, Detect])
  }

  function Perform(a: Action, world: int -> Outcome): Run {
    match a.params
    case Unset => Run(None, None, Some(Error(false, "unsupported action parameters")), [])
    case Shell(p) => ExecuteShell(p, world)
    case _ =>
      match world(0)
      case Ran(out) => Run(Some(out), None, None, [Manage])
      case Broke(partial, deadline, message) => Run(partial, None, Some(Error(deadline, message)), [Manage])
  }

  predicate HasErrorText(r: ActionResult) {
    (r.output.Some? && r.output.value.stderr != "") || (r.detection.Some? && r.detection.value.stderr != "")
  }

  /** Puts the error message into the first available output unless one already explains the failure. */
  function EnsureError(r: ActionResult, message: string): (e: ActionResult)
    ensures message != "" ==> HasErrorText(e)
    ensures e.status == r.status && e.actionId == r.actionId
    ensures e.detection.Some? == r.detection.Some?
  {
    if HasErrorText(r) then r
    else if r.output.Some? then r.(output := Some(r.output.value.(stderr := message)))
    else if r.detection.Some? then r.(detection := Some(r.detection.value.(stderr := message)))
    else r.(output := Some(Output(0, "", message)))
  }

  /** `expired` tells whether the action's own deadline had passed when the command returned. */
  function ExecuteAction(a: Action, world: int -> Outcome, expired: bool, at: Time): ActionResult {
    var blank := ActionResult("", "", Failed, None, None, Some(at), Raw([]));
    if a.id == "" then blank.(output := Some(Output(0, "", "action is required")))
    else
      var run := Perform(a, world);
      var r := blank.(actionId := a.id, output := run.output, detection := run.detection);
      if run.err.None? then r.(status := Success)
      else if run.err.value.deadline || expired then EnsureError(r.(status := Timeout), "action timed out")
      else EnsureError(r, run.err.value.message)
  }

  predicate CleanDetection(r: ActionResult) {
    r.status == Success && r.detection.Some? && r.detection.value.exitCode == 0
  }

  /** A compliance action only ever runs its detection script, at most once. */
  lemma ComplianceNeverRemediates(a: Action, world: int -> Outcome)
    requires IsComplianceAction(a)
    ensures Perform(a, world).ran <= [Detect]
  {
    var p := a.params.shell.value;
    if p.detection != "" {
      assert Perform(a, world).ran == [Detect];
    }
  }

  /** The result a compliance check may count as passing: exactly when detection ran and exited 0. */
  lemma CleanDetectionIff(a: Action, world: int -> Outcome, expired: bool, at: Time)
    requires IsComplianceAction(a) && a.id != ""
    ensures CleanDetection(ExecuteAction(a, world, expired, at)) <==>
            (a.params.shell.value.detection != "" && world(0).Ran? && world(0).out.exitCode == 0)
    ensures CleanDetection(ExecuteAction(a, world, expired, at)) ==> Perform(a, world).ran == [Detect]
  {
    var p := a.params.shell.value;
    var run := Perform(a, world);
    if p.detection != "" && world(0).Ran? {
      assert run == Run(None, Some(world(0).out), None, [Detect]);
    } else {
      assert run.err.Some?;
    }
  }

  /** Remediation runs only without a detection script or after detection reported a deviation, and
      an action with a detection script succeeds only when the last command was a clean detection. */
  lemma RemediationDiscipline(p: ShellParams, world: int -> Outcome)
    ensures var r := ExecuteShell(Some(p), world);
      && (Remediate in r.ran && p.detection != "" ==>
           world(0).Ran? && world(0).out.exitCode != 0 && r.ran[0] == Detect)
      && (r.err.None? && p.detection != "" && !p.isCompliance ==>
           && r.ran[|r.ran| - 1] == Detect
           && world(|r.ran| - 1).Ran?
           && r.detection == Some(world(|r.ran| - 1).out) && r.detection.value.exitCode == 0)
  {
    var r := ExecuteShell(Some(p), world);
    if p.isCompliance {
      assert r.ran <= [Detect];
    } else if p.detection == "" {
      assert r == Remediation(p, None, [], world);
    } else if world(0).Ran? && world(0).out.exitCode != 0 {
      assert r == Remediation(p, Some(world(0).out), [Detect], world);
      assert [Detect] + [Remediate] == [Detect, Remediate];
      assert [Detect] + [Remediate, Detect] == [Detect, Remediate, Detect];
    } else {
      assert r.ran == [Detect];
    }
  }

  /** Every result that is not a success explains itself, provided the runner's errors have text. */
  lemma FailureIsExplained(a: Action, world: int -> Outcome, expired: bool, at: Time)
    requires forall n: int {:trigger world(n)} :: world(n).Broke? ==> world(n).message != ""
    ensures var r := ExecuteAction(a, world, expired, at);
      && r.completedAt == Some(at) && r.status != Indeterminate
      && (r.status != Success ==> HasErrorText(r))
  {
    if a.id != "" {
      var run := Perform(a, world);
      if run.err.Some? {
        assert run.err.value.message != "" by {
          if a.params.Shell? && a.params.shell.Some? {
            ShellErrorHasText(a.params.shell.value, world);
          }
        }
      }
    }
  }

  lemma ShellErrorHasText(p: ShellParams, world: int -> Outcome)
    requires forall n: int {:trigger world(n)} :: world(n).Broke? ==> world(n).message != ""
    ensures var r := ExecuteShell(Some(p), world); r.err.Some? ==> r.err.value.message != ""
  {
    var o := (world(0), world(1), world(2));
  }

  // ---------------------------------------------------------------- what an execution must look like

  predicate Clean(c: Outcome) {
    c.Ran? && c.out.exitCode == 0
  }

  predicate Cut(c: Outcome) {
    c.Broke? && c.deadline
  }

  /** When an action succeeds, by kind and by what its commands did. */
  predicate Succeeds(params: Params, world: int -> Outcome) {
    match params
    case Unset => false
    case Package(_) => world(0).Ran?
    case Update(_) => world(0).Ran?
    case Shell(None) => false
    case Shell(Some(p)) =>
      if p.isCompliance then p.detection != "" && world(0).Ran?
      else if p.detection == "" then p.script != "" && Clean(world(0))
      else Clean(world(0)) || (world(0).Ran? && p.script != "" && Clean(world(1)) && Clean(world(2)))
  }

  /** Which commands an action runs: detection first, the script only when detection deviates or there is
      none, detection again only after a clean script, and nothing after a failure. */
  function Commands(params: Params, world: int -> Outcome): seq<Kind> {
    match params
    case Unset => []
    case Package(_) => [Manage]
    case Update(_) => [Manage]
    case Shell(None) => []
    case Shell(Some(p)) =>
      if p.detection == "" then (if p.isCompliance || p.script == "" then [] else [Remediate])
      else if p.isCompliance || world(0).Broke? || Clean(world(0)) || p.script == "" then [Detect]
      else if Clean(world(1)) then [Detect, Remediate, Detect]
      else [Detect, Remediate]
  }

  /** The last command run was cut off by the deadline. */
  predicate CutOff(params: Params, world: int -> Outcome) {
    var n := |Commands(params, world)|;
    n > 0 && Cut(world(n - 1))
  }

  lemma PerformRuns(a: Action, world: int -> Outcome)
    ensures var run := Perform(a, world);
      && run.ran == Commands(a.params, world)
      && (run.err.None? <==> Succeeds(a.params, world))
      && (run.err.Some? ==> (run.err.value.deadline <==> CutOff(a.params, world)))
  {
    if a.params.Shell? && a.params.shell.Some? {
      var p := a.params.shell.value;
      hide Remediation;
      if p.detection == "" {
        ScriptRuns(p, world);
      } else if world(0).Ran? {
        VerifiedScriptRuns(p, world);
      }
    }
  }

  lemma ScriptRuns(p: ShellParams, world: int -> Outcome)
    requires p.detection == ""
    ensures var run := Remediation(p, None, [], world);
      && (run.ran == if p.script == "" then [] else [Remediate])
      && (run.err.None? <==> p.script != "" && Clean(world(0)))
      && (run.err.Some? ==> (run.err.value.deadline <==> p.script != "" && world(0).Broke? && world(0).deadline))
  {
    assert [] + [Remediate] == [Remediate];
  }

  lemma VerifiedScriptRuns(p: ShellParams, world: int -> Outcome)
    requires p.detection != "" && world(0).Ran?
    ensures var run := Remediation(p, Some(world(0).out), [Detect], world);
      && (run.ran == if p.script == "" then [Detect]
                     else if Clean(world(1)) then [Detect, Remediate, Detect] else [Detect, Remediate])
      && (run.err.None? <==> p.script != "" && Clean(world(1)) && Clean(world(2)))
      && (run.err.Some? ==>
            (run.err.value.deadline <==> p.script != "" && Cut(if Clean(world(1)) then world(2) else world(1))))
  {
    assert [Detect] + [Remediate] == [Detect, Remediate];
    assert [Detect] + [Remediate, Detect] == [Detect, Remediate, Detect];
  }

  /** The status is decided by the commands alone: success exactly when all that the kind of action needs
      went well, otherwise a timeout exactly when the action's time was over or its last command was cut off
      by the deadline, otherwise a failure. */
  lemma StatusIff(a: Action, world: int -> Outcome, expired: bool, at: Time)
    ensures var r := ExecuteAction(a, world, expired, at);
      && r.actionId == a.id && r.completedAt == Some(at) && (a.id == "" ==> r.status == Failed)
    ensures var r := ExecuteAction(a, world, expired, at); a.id != "" ==>
      && (r.status == Success <==> Succeeds(a.params, world))
      && (r.status == Timeout <==> !Succeeds(a.params, world) && (expired || CutOff(a.params, world)))
      && (r.status == Failed <==> !Succeeds(a.params, world) && !expired && !CutOff(a.params, world))
  {
    PerformRuns(a, world);
    hide Perform, Succeeds, CutOff;
  }

  /** What a command left behind, if anything. */
  function Left(c: Outcome): Output {
    if c.Ran? then c.out else if c.partial.Some? then c.partial.value else Output(0, "", "")
  }

  /** The output is the command's, except that empty error text may have been filled in. */
  predicate Carries(o: Option<Output>, c: Outcome) {
    && o.Some? && o.value.exitCode == Left(c).exitCode && o.value.stdout == Left(c).stdout
    && (Left(c).stderr != "" ==> o.value.stderr == Left(c).stderr)
  }

  /** Where the script is in the order of commands. */
  function ScriptIndex(p: ShellParams): nat {
    if p.detection == "" then 0 else 1
  }

  /** A shell result carries the output of the script if it was run, and of the last detection if there was
      one; a result of an action that ran nothing carries an error text only. */
  lemma ShellOutputs(a: Action, p: ShellParams, world: int -> Outcome, expired: bool, at: Time)
    requires a.id != "" && a.params == Shell(Some(p))
    ensures var r := ExecuteAction(a, world, expired, at); var n := |Commands(a.params, world)|;
      && (n == 0 ==> r.detection.None? && r.output.Some? && r.output.value.exitCode == 0 && r.output.value.stdout == "")
      && (n > ScriptIndex(p) ==> Carries(r.output, world(ScriptIndex(p))))
      && (0 < n <= ScriptIndex(p) ==> r.output.None?)
      && (p.detection == "" ==> r.detection.None?)
      && (p.detection != "" && n > 0 ==> Carries(r.detection, world(if n == 3 then 2 else 0)))
  {
    var run := Perform(a, world);
    ShellRunOutputs(a, p, world);
    hide Perform, Commands;
    var r := ExecuteAction(a, world, expired, at);
  }

  lemma ShellRunOutputs(a: Action, p: ShellParams, world: int -> Outcome)
    requires a.params == Shell(Some(p))
    ensures var run := Perform(a, world); var n := |Commands(a.params, world)|;
      && (n == 0 ==> run.output.None? && run.err.Some?)
      && (n > ScriptIndex(p) ==> Carries(run.output, world(ScriptIndex(p))))
      && (n <= ScriptIndex(p) ==> run.output.None?)
      && (p.detection == "" ==> run.detection.None?)
      && (n == 0 ==> run.detection.None?)
      && (p.detection != "" && n > 0 ==> Carries(run.detection, world(if n == 3 then 2 else 0)))
  {
  }

  /** A successful result carries the outputs untouched. */
  lemma SuccessOutputs(a: Action, world: int -> Outcome, expired: bool, at: Time)
    requires a.id != "" && Succeeds(a.params, world)
    ensures var r := ExecuteAction(a, world, expired, at); var ran := Commands(a.params, world);
      && (ran == [Manage] || ran == [Remediate] ==> r.output == Some(world(0).out) && r.detection.None?)
      && (ran == [Detect] ==> r.output.None? && r.detection == Some(world(0).out))
      && (ran == [Detect, Remediate, Detect] ==> r.output == Some(world(1).out) && r.detection == Some(world(2).out))
  {
    PerformRuns(a, world);
  }

  /** A package or update result carries what its command left, and no detection. */
  lemma ManagedOutputs(a: Action, world: int -> Outcome, expired: bool, at: Time)
    requires a.id != "" && (a.params.Package? || a.params.Update?)
    ensures var r := ExecuteAction(a, world, expired, at); r.detection.None? && Carries(r.output, world(0))
  {
  }
}
