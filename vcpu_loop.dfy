/**
 * The per-vCPU run loop `while (1) { ret = KVM_RUN; check ret; switch }`
 * shared by the four hosts. Each KVM_RUN is an oracle reply (RunStep); the
 * loop consumes replies until the first one that does not resume. `Run` is
 * the specification, `RunVcpu` the loop itself, and the lemmas state where
 * the loop stops, what it emits, and which ways out each host has.
 */
module VcpuLoop {
  import opened KvmAbi
  import opened ExitDispatch

  /** The four host programs. */
  datatype Host = Arm64Host | MultiHost | BinHost | StructHost

  /** The reply of one KVM_RUN: the ioctl result and the exit the run block then holds. */
  datatype RunStep = RunStep(ret: int, exit: Exit)

  /**
   * The run-result test: kvm_code_struct compares with -1 (`ret == -1`), the
   * three other hosts treat every negative result as a failure (`ret < 0`).
   */
  predicate RunFails(host: Host, ret: int) {
    if host == StructHost then ret == -1 else ret < 0
  }

  /** The exit switch of the given host. */
  function Dispatch(host: Host, vcpuId: int, e: Exit): Action {
    match host
    case Arm64Host => HandleExitArm64(vcpuId, e)
    case MultiHost => HandleExitMulti(vcpuId, e)
    case BinHost => HandleExitBin(e)
    case StructHost => HandleExitStruct(e)
  }

  /** One loop iteration: a failed run ends the process with status 1 before the exit reason is looked at. */
  function StepAction(host: Host, vcpuId: int, s: RunStep): Action {
    if RunFails(host, s.ret) then Die(1, RunFailed) else Dispatch(host, vcpuId, s.exit)
  }

  /** Console bytes of one action (only Resume carries any). */
  function Output(a: Action): seq<byte> {
    if a.Resume? then a.console else []
  }

  /** How the loop ended: the thread returned, the process exited, or the replies ran out with the vCPU still running. */
  datatype LoopEnd = Returned | Died(status: int, cause: Cause) | Running

  /** Console bytes emitted, how the loop ended, and how many KVM_RUN calls it made. */
  datatype LoopResult = LoopResult(console: seq<byte>, end: LoopEnd, runs: nat)

  function EndOf(a: Action): LoopEnd {
    match a
    case Resume(_, _) => Running
    case Leave => Returned
    case Die(s, c) => Died(s, c)
  }

  /** The loop, as a function of the KVM_RUN replies. */
  function Run(host: Host, vcpuId: int, steps: seq<RunStep>): (r: LoopResult)
    ensures r.runs <= |steps|
    ensures r.end.Running? ==> r.runs == |steps|
    ensures !r.end.Running? ==> r.runs > 0
    decreases |steps|
  {
    if |steps| == 0 then LoopResult([], Running, 0)
    else
      var a := StepAction(host, vcpuId, steps[0]);
      if a.Resume? then
        var rest := Run(host, vcpuId, steps[1..]);
        LoopResult(a.console + rest.console, rest.end, rest.runs + 1)
      else LoopResult([], EndOf(a), 1)
  }

  /** The console bytes of every action in `steps`, in order. */
  function Emitted(host: Host, vcpuId: int, steps: seq<RunStep>): seq<byte>
    decreases |steps|
  {
    if |steps| == 0 then [] else Output(StepAction(host, vcpuId, steps[0])) + Emitted(host, vcpuId, steps[1..])
  }

  /** The result of the whole loop seen from position i: what was emitted and run before, then the rest. */
  function Resumed(console: seq<byte>, i: nat, rest: LoopResult): LoopResult {
    LoopResult(console + rest.console, rest.end, i + rest.runs)
  }

  /** Run unfolded once, at position i of the replies, when reply i resumes. */
  lemma ResumeAt(host: Host, vcpuId: int, steps: seq<RunStep>, i: nat, console: seq<byte>)
    requires i < |steps|
    requires StepAction(host, vcpuId, steps[i]).Resume?
    ensures Resumed(console, i, Run(host, vcpuId, steps[i..]))
            == Resumed(console + StepAction(host, vcpuId, steps[i]).console, i + 1, Run(host, vcpuId, steps[i + 1..]))
  {
    assert steps[i..][1..] == steps[i + 1..];
    var a := StepAction(host, vcpuId, steps[i]);
    var rest := Run(host, vcpuId, steps[i + 1..]);
    assert console + (a.console + rest.console) == (console + a.console) + rest.console;
  }

  /** Run unfolded once, at position i of the replies, when reply i ends the loop. */
  lemma StopAt(host: Host, vcpuId: int, steps: seq<RunStep>, i: nat, console: seq<byte>)
    requires i < |steps|
    requires !StepAction(host, vcpuId, steps[i]).Resume?
    ensures Resumed(console, i, Run(host, vcpuId, steps[i..]))
            == LoopResult(console, EndOf(StepAction(host, vcpuId, steps[i])), i + 1)
  {
  }

  /** The while(1) loop of kvm_cpu_thread (and of kvm_code_struct's main). */
  method RunVcpu(host: Host, vcpuId: int, steps: seq<RunStep>) returns (r: LoopResult)
    ensures r == Run(host, vcpuId, steps)
  {
    var console: seq<byte> := [];
    var i := 0;
    assert steps[0..] == steps;
    while i < |steps|
      invariant 0 <= i <= |steps|
      invariant Run(host, vcpuId, steps) == Resumed(console, i, Run(host, vcpuId, steps[i..]))
    {
      // StepAction tests the KVM_RUN result before it consults the switch
      var a := StepAction(host, vcpuId, steps[i]);
      if !a.Resume? {
        StopAt(host, vcpuId, steps, i, console);
        return LoopResult(console, EndOf(a), i + 1);
      }
      ResumeAt(host, vcpuId, steps, i, console);
      console := console + a.console;
      i := i + 1;
    }
    r := LoopResult(console, Running, i);
  }

  /**
   * The loop makes exactly k + 1 runs when the first k replies resume and reply
   * k does not; it emits what those k replies emit and ends as reply k says.
   */
  lemma {:induction false} RunStopsAtFirstNonResume(host: Host, vcpuId: int, steps: seq<RunStep>, k: nat)
    requires k < |steps|
    requires forall j :: 0 <= j < k ==> StepAction(host, vcpuId, steps[j]).Resume?
    requires !StepAction(host, vcpuId, steps[k]).Resume?
    ensures Run(host, vcpuId, steps)
            == LoopResult(Emitted(host, vcpuId, steps[..k]), EndOf(StepAction(host, vcpuId, steps[k])), k + 1)
  {
    if k > 0 {
      assert steps[1..][..k - 1] == steps[..k][1..];
      RunStopsAtFirstNonResume(host, vcpuId, steps[1..], k - 1);
    }
  }

  /** When every reply resumes, the loop is still running and has emitted everything. */
  lemma {:induction false} RunAllResume(host: Host, vcpuId: int, steps: seq<RunStep>)
    requires forall j :: 0 <= j < |steps| ==> StepAction(host, vcpuId, steps[j]).Resume?
    ensures Run(host, vcpuId, steps) == LoopResult(Emitted(host, vcpuId, steps), Running, |steps|)
  {
    if |steps| > 0 {
      RunAllResume(host, vcpuId, steps[1..]);
    }
  }

  /** A failed KVM_RUN reached after resumable exits is fatal with status 1, whatever the run block holds. */
  lemma RunFailureIsFatal(host: Host, vcpuId: int, steps: seq<RunStep>, k: nat)
    requires k < |steps| && RunFails(host, steps[k].ret)
    requires forall j :: 0 <= j < k ==> StepAction(host, vcpuId, steps[j]).Resume?
    ensures Run(host, vcpuId, steps).end == Died(1, RunFailed)
    ensures Run(host, vcpuId, steps).runs == k + 1
  {
    RunStopsAtFirstNonResume(host, vcpuId, steps, k);
  }

  /** The multi-core host has no clean way out of the loop: it only ever stops on a fatal path. */
  lemma {:induction false} MultiNeverReturns(vcpuId: int, steps: seq<RunStep>)
    ensures Run(MultiHost, vcpuId, steps).end != Returned
    decreases |steps|
  {
    if |steps| > 0 && StepAction(MultiHost, vcpuId, steps[0]).Resume? {
      MultiNeverReturns(vcpuId, steps[1..]);
    }
  }

  /** In the single-vCPU x86 host a failed KVM_RUN is the only fatal path. */
  lemma {:induction false} BinDiesOnlyOnRunFailure(vcpuId: int, steps: seq<RunStep>)
    ensures Run(BinHost, vcpuId, steps).end.Died? ==> Run(BinHost, vcpuId, steps).end == Died(1, RunFailed)
    decreases |steps|
  {
    if |steps| > 0 && StepAction(BinHost, vcpuId, steps[0]).Resume? {
      BinDiesOnlyOnRunFailure(vcpuId, steps[1..]);
    }
  }

  /** Neither x86 thread host writes console bytes: their port exits only produce diagnostic notes. */
  lemma {:induction false} X86ThreadsEmitNothing(host: Host, vcpuId: int, steps: seq<RunStep>)
    requires host == MultiHost || host == BinHost
    ensures Run(host, vcpuId, steps).console == []
    decreases |steps|
  {
    if |steps| > 0 && StepAction(host, vcpuId, steps[0]).Resume? {
      X86ThreadsEmitNothing(host, vcpuId, steps[1..]);
    }
  }

  /** In every host, each fatal way out of the loop exits with status 1. */
  lemma {:induction false} FatalStatusIsOne(host: Host, vcpuId: int, steps: seq<RunStep>)
    ensures Run(host, vcpuId, steps).end.Died? ==> Run(host, vcpuId, steps).end.status == 1
    decreases |steps|
  {
    if |steps| > 0 && StepAction(host, vcpuId, steps[0]).Resume? {
      FatalStatusIsOne(host, vcpuId, steps[1..]);
    }
  }
}
