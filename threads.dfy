/**
 * The vCPU side of the three threaded hosts (arm64, four-vCPU x86 and
 * single-vCPU x86): the struct vcpu record held in the vcpus array, what
 * kvm_init_vcpu and kvm_reset_vcpu write into it, what one vCPU thread does
 * (reset, then the run loop), and how the ends of the threads decide the end
 * of the process. The threads are taken one after another in index order:
 * a thread that calls exit() ends the process, a thread whose loop has not
 * ended keeps its join waiting.
 */
module VcpuThreads {
  import opened KvmAbi
  import opened VcpuLoop
  import opened VcpuRegisters
  import opened GuestLayout

  /**
   * struct vcpu. `runMapped` says whether the run block mapping succeeded,
   * `hasThreadFunc` whether the thread function was stored, `thread` the
   * pthread handle stored in the record (a handle is the index of the
   * thread's creation).
   */
  datatype VcpuSlot = VcpuSlot(id: int, fd: int, runMmapSize: int, runMapped: bool, hasThreadFunc: bool,
                               thread: Option<nat>, regs: Regs, sregs: SRegs)

  /** The replies kvm_init_vcpu receives: KVM_CREATE_VCPU, KVM_GET_VCPU_MMAP_SIZE and the run-block mmap. */
  datatype VcpuReply = VcpuReply(createRet: int, mmapSizeRet: int, runMap: MapReply)

  predicate VcpuInitOk(r: VcpuReply) {
    r.createRet >= 0 && r.mmapSizeRet >= 0 && r.runMap.Mapped?
  }

  /** The record after kvm_init_vcpu, from its previous contents: the fields are written one by one until a check fails. */
  function InitSlot(s: VcpuSlot, id: int, r: VcpuReply): VcpuSlot {
    var s1 := s.(id := id, fd := r.createRet);
    if r.createRet < 0 then s1
    else
      var s2 := s1.(runMmapSize := r.mmapSizeRet);
      if r.mmapSizeRet < 0 then s2
      else if r.runMap.MapFailed? then s2.(runMapped := false)
      else s2.(runMapped := true, hasThreadFunc := true)
  }

  /**
   * kvm_init_vcpu always records the id; the record is ready to run (fd,
   * run block and thread function in place) exactly when all three replies
   * succeed; regs, sregs and the thread handle are never touched.
   */
  lemma InitSlotReady(s: VcpuSlot, id: int, r: VcpuReply)
    ensures InitSlot(s, id, r).id == id && InitSlot(s, id, r).fd == r.createRet
    ensures VcpuInitOk(r) <==> InitSlot(s, id, r).fd >= 0 && InitSlot(s, id, r).runMmapSize >= 0 && InitSlot(s, id, r).runMapped
    ensures VcpuInitOk(r) ==> InitSlot(s, id, r).hasThreadFunc && InitSlot(s, id, r).runMmapSize == r.mmapSizeRet
    ensures InitSlot(s, id, r).regs == s.regs && InitSlot(s, id, r).sregs == s.sregs && InitSlot(s, id, r).thread == s.thread
  {
  }

  /** struct kvm_one_reg as the arm64 kvm_reset_vcpu fills it: the register id, and the value its .addr points at. */
  datatype OneReg = OneReg(id: bv64, value: nat)

  /** What the arm64 kvm_reset_vcpu hands to KVM_SET_ONE_REG: PC_ENTRY_ADDR for the program counter. */
  function Arm64PcWrite(): OneReg {
    OneReg(CoreRegId(PC_OFFSET), ARM64_PC_ENTRY_ADDR)
  }

  /** The replies of kvm_reset_vcpu: KVM_SET_ONE_REG on arm64; KVM_GET_SREGS, KVM_SET_SREGS and KVM_SET_REGS on x86. */
  datatype ResetReplies = ResetReplies(setOneReg: int, getSRegs: int, kernelSRegs: SRegs, setSRegs: int, setRegs: int)

  /** Everything one vCPU thread receives: the pthread_create result, the reset replies and the KVM_RUN replies. */
  datatype ThreadOracle = ThreadOracle(createRet: int, reset: ResetReplies, steps: seq<RunStep>)

  predicate ResetFails(host: Host, r: ResetReplies) {
    if host == Arm64Host then r.setOneReg < 0 else r.getSRegs < 0 || r.setSRegs < 0 || r.setRegs < 0
  }

  /** The exit status of a failed reset: the arm64 host calls exit(0), the x86 hosts exit(1). */
  function ResetStatus(host: Host): int {
    if host == Arm64Host then 0 else 1
  }

  /**
   * The record after kvm_reset_vcpu. The arm64 reset writes the PC into the
   * kernel only. The x86 reset reads sregs from KVM into the record and
   * changes the segments, then writes four fields of the record's regs.
   */
  function ResetSlot(host: Host, s: VcpuSlot, r: ResetReplies): VcpuSlot {
    if host == Arm64Host || r.getSRegs < 0 then s
    else
      var s1 := s.(sregs := X86ResetSRegs(r.kernelSRegs));
      if r.setSRegs < 0 then s1 else s1.(regs := X86ResetRegs(s.regs))
  }

  /** A record after its thread was created (the handle stored) and its reset ran. */
  function Ran(host: Host, s: VcpuSlot, handle: nat, t: ThreadOracle): VcpuSlot {
    ResetSlot(host, s.(thread := Some(handle)), t.reset)
  }

  /** kvm_cpu_thread: reset, then the run loop of the host. */
  function ThreadRun(host: Host, vcpuId: int, t: ThreadOracle): LoopResult {
    if ResetFails(host, t.reset) then LoopResult([], Died(ResetStatus(host), RegisterSetupFailed), 0)
    else Run(host, vcpuId, t.steps)
  }

  /**
   * An arm64 thread ends the process with status 0 exactly when setting its
   * program counter fails: a failure reported as success.
   */
  lemma Arm64ExitZeroIsResetFailure(vcpuId: int, t: ThreadOracle)
    ensures (ThreadRun(Arm64Host, vcpuId, t).end.Died? && ThreadRun(Arm64Host, vcpuId, t).end.status == 0)
            <==> t.reset.setOneReg < 0
  {
    FatalStatusIsOne(Arm64Host, vcpuId, t.steps);
  }

  /** A thread of the four-vCPU host never returns: its reset either kills the process or it enters a loop with no clean exit. */
  lemma MultiThreadNeverReturns(vcpuId: int, t: ThreadOracle)
    ensures ThreadRun(MultiHost, vcpuId, t).end != Returned
  {
    MultiNeverReturns(vcpuId, t.steps);
  }

  /** How the process ends, given the threads' ends: None when every thread returned and main goes on. */
  datatype ProcessEnd =
    | MainReturned(value: int)           // main returned this value
    | Exited(status: int, cause: Cause)  // exit(), err() or errx() ended the process
    | Blocked                            // main waits in pthread_join for a vCPU that is still running
    | Undefined(hazard: Hazard)          // the program reaches undefined behaviour

  /** The undefined behaviours of the threaded hosts. */
  datatype Hazard =
    | ImageOverrun    // load_binary writes beyond the RAM mapping
    | NullVcpuArray   // main ignores a NULL vCPU array and kvm_run_vm dereferences it
    | ReadPastVcpu    // kvm_code_bin's kvm_run_vm indexes past its single vCPU record
    | JoinNoThread    // kvm_code_bin joins a handle no pthread_create stored

  /** One more thread's end in front of the ends of the threads after it: an exit wins, else a running thread blocks. */
  function Merge(running: bool, later: Option<ProcessEnd>): Option<ProcessEnd> {
    if later.Some? && later.value.Exited? then later
    else if running then Some(Blocked)
    else later
  }

  /** The process end decided by the threads' ends, in index order. */
  function Combine(ends: seq<LoopEnd>): (c: Option<ProcessEnd>)
    ensures c.Some? ==> c.value.Exited? || c.value.Blocked?
    decreases |ends|
  {
    if |ends| == 0 then None
    else if ends[0].Died? then Some(Exited(ends[0].status, ends[0].cause))
    else Merge(ends[0].Running?, Combine(ends[1..]))
  }

  /** The threads' ends decide nothing (main joins them all and goes on) exactly when every thread returned. */
  lemma {:induction false} CombineNoneIffAllReturned(ends: seq<LoopEnd>)
    ensures Combine(ends) == None <==> forall k :: 0 <= k < |ends| ==> ends[k] == Returned
    decreases |ends|
  {
    if |ends| > 0 {
      CombineNoneIffAllReturned(ends[1..]);
      assert forall k :: 1 <= k < |ends| ==> ends[k] == ends[1..][k - 1];
    }
  }

  /**
   * When some thread died, the process exit is the one of the first thread,
   * in index order, that died, whatever the threads before it were doing.
   */
  lemma {:induction false} CombineFirstDied(ends: seq<LoopEnd>, i: nat)
    requires i < |ends| && ends[i].Died?
    requires forall k :: 0 <= k < i ==> !ends[k].Died?
    ensures Combine(ends) == Some(Exited(ends[i].status, ends[i].cause))
    decreases i
  {
    if i > 0 {
      assert forall k :: 0 <= k < i - 1 ==> ends[1..][k] == ends[k + 1];
      CombineFirstDied(ends[1..], i - 1);
    }
  }

  /** When no thread died, main blocks exactly when some thread is still running. */
  lemma {:induction false} CombineNoDeath(ends: seq<LoopEnd>)
    requires forall k :: 0 <= k < |ends| ==> !ends[k].Died?
    ensures Combine(ends) == (if exists k :: 0 <= k < |ends| && ends[k].Running? then Some(Blocked) else None)
    decreases |ends|
  {
    if |ends| > 0 {
      assert forall k :: 0 <= k < |ends| - 1 ==> ends[1..][k] == ends[k + 1];
      CombineNoDeath(ends[1..]);
      if exists k :: 0 <= k < |ends| && ends[k].Running? {
        var k :| 0 <= k < |ends| && ends[k].Running?;
        if k > 0 {
          assert ends[1..][k - 1].Running?;
        }
      }
    }
  }

  /** The ends of the first n threads, thread k running on the record whose id is k. */
  function ThreadEnds(host: Host, n: nat, threads: seq<ThreadOracle>): (ends: seq<LoopEnd>)
    requires n <= |threads|
    ensures |ends| == n && forall k :: 0 <= k < n ==> ends[k] == ThreadRun(host, k, threads[k]).end
  {
    seq(n, k requires 0 <= k < n => ThreadRun(host, k, threads[k]).end)
  }

  /** Every created pthread started. */
  predicate CreatesOk(n: nat, threads: seq<ThreadOracle>)
    requires n <= |threads|
  {
    forall k :: 0 <= k < n ==> threads[k].createRet == 0
  }

  /**
   * kvm_run_vm with n records numbered 0..n-1: a failed pthread_create ends
   * the process with status 1; otherwise the threads' ends decide.
   */
  function RunVmSpec(host: Host, n: nat, threads: seq<ThreadOracle>): (c: Option<ProcessEnd>)
    requires n <= |threads|
    ensures c.Some? ==> c.value.Exited? || c.value.Blocked?
  {
    if !CreatesOk(n, threads) then Some(Exited(1, ThreadCreateFailed))
    else Combine(ThreadEnds(host, n, threads))
  }

  /** With at least one vCPU the four-vCPU host's threads never let main go on. */
  lemma MultiRunVmNeverFinishes(n: nat, threads: seq<ThreadOracle>)
    requires 0 < n <= |threads|
    ensures RunVmSpec(MultiHost, n, threads).Some?
  {
    if CreatesOk(n, threads) {
      MultiThreadNeverReturns(0, threads[0]);
      CombineNoneIffAllReturned(ThreadEnds(MultiHost, n, threads));
    }
  }
}
