/**
 * The threaded hosts as the programs they are: struct kvm as a class whose
 * fields kvm_init, kvm_create_vm, main and the clean-up functions assign,
 * the vCPU records as an array the init, reset and run functions update in
 * place, and the three mains. Each method is proved against the functions
 * of HostSpec and VcpuThreads.
 */
module HostLifecycle {
  import opened KvmAbi
  import opened VcpuLoop
  import opened GuestLayout
  import opened ImageLoader
  import opened VcpuThreads
  import opened HostSpec

  /** What a clean-up function gave back, in the order main calls them. */
  datatype Release =
    | VcpuReleased(index: int)  // the run block of record `index` unmapped and its vCPU fd closed
    | VcpuArrayFreed            // the vCPU array freed
    | VmReleased                // the VM fd closed and the guest memory unmapped
    | DeviceReleased            // /dev/kvm closed and struct kvm freed

  /** struct kvm. */
  class Kvm {
    var devFd: int
    var kvmVersion: int
    var vmFd: int
    /** The RAM mapping, once kvm_create_vm made it. */
    var ram: array?<byte>
    /** The memory regions KVM accepted, in order. */
    var regions: seq<Region>
    /** The vCPU records (NULL as long as main has not stored any). */
    var vcpus: array?<VcpuSlot>
    var vcpuNumber: nat
    var released: seq<Release>

    /**
     * The struct after kvm_init's successful open: the fd and the API version
     * stored, nothing else set up (vm_fd stands at -1, no VM).
     */
    constructor (devFd: int, version: int)
      ensures this.devFd == devFd && kvmVersion == version && vmFd == -1
      ensures ram == null && regions == [] && vcpus == null && vcpuNumber == 0 && released == []
    {
      this.devFd := devFd;
      kvmVersion := version;
      vmFd := -1;
      ram := null;
      regions := [];
      vcpus := null;
      vcpuNumber := 0;
      released := [];
    }

    /**
     * kvm_create_vm: create the VM, map zero-filled RAM and register it as
     * slot 0 at guest address 0; the arm64 host then maps and registers the
     * read-only MMIO window as slot 1. Returns at the first failure.
     */
    method CreateVm(host: Host, r: VmReplies) returns (ret: int)
      requires host != StructHost
      modifies this`vmFd, this`ram, this`regions
      ensures ret == CreateVmRet(host, r)
      ensures vmFd == r.vmFd && regions == old(regions) + VmRegions(host, r)
      ensures r.vmFd >= 0 && r.ramMap.Mapped? ==>
                ram != null && fresh(ram) && ram.Length == RamSize(host) && forall k :: 0 <= k < ram.Length ==> ram[k] == 0
      ensures !(r.vmFd >= 0 && r.ramMap.Mapped?) ==> ram == old(ram)
    {
      vmFd := r.vmFd;
      if vmFd < 0 {
        return -1;
      }
      if r.ramMap.MapFailed? {
        return -1;
      }
      ram := new byte[RamSize(host)](_ => 0);
      var ramRegion := Region(0, 0, RamSize(host), r.ramMap.addr, r.staleFlags);
      if r.setRam < 0 {
        return r.setRam;
      }
      regions := regions + [ramRegion];
      if host != Arm64Host {
        return r.setRam;
      }
      if r.mmioMap.MapFailed? {
        return -1;
      }
      var mmioRegion := Region(1, ARM64_MMIO_START, ARM64_MMIO_SIZE, r.mmioMap.addr, KVM_MEM_READONLY);
      if r.setMmio < 0 {
        return r.setMmio;
      }
      regions := regions + [mmioRegion];
      ret := r.setMmio;
    }

    /**
     * kvm_run_vm of the arm64 and four-vCPU hosts: one pthread_create per
     * record, the handle stored in the record, then one join per record in
     * index order. A failed create ends the process; the threads are run one
     * after another, and the first that calls exit() ends it; a join on a
     * thread still running blocks main for good.
     */
    method RunVm(host: Host, threads: seq<ThreadOracle>) returns (end: Option<ProcessEnd>, joined: seq<nat>)
      requires vcpuNumber <= |threads|
      requires vcpus != null ==> vcpuNumber <= vcpus.Length && forall k :: 0 <= k < vcpuNumber ==> vcpus[k].id == k
      modifies vcpus
      ensures end == if vcpus == null && vcpuNumber > 0 then Some(Undefined(NullVcpuArray)) else RunVmSpec(host, vcpuNumber, threads)
      ensures end.None? ==> joined == seq(vcpuNumber, k => k)
      ensures vcpus != null ==> forall k :: 0 <= k < vcpus.Length ==> Keeps(old(vcpus[k]), vcpus[k])
      ensures vcpus != null && end.None? ==> forall k :: 0 <= k < vcpuNumber ==> vcpus[k] == Ran(host, old(vcpus[k]), k, threads[k])
    {
      joined := [];
      if vcpuNumber == 0 {
        return None, joined;
      }
      if vcpus == null {
        return Some(Undefined(NullVcpuArray)), joined;
      }
      end, joined := RunRecords(host, vcpus, vcpuNumber, threads);
    }

    /**
     * kvm_run_vm of kvm_code_bin: every pthread_create stores its handle in
     * the first record and passes struct kvm, the thread function is read
     * from vcpus[i], and the first record's handle is joined once.
     */
    method RunVmBin(threads: seq<ThreadOracle>) returns (end: Option<ProcessEnd>, joined: seq<nat>)
      requires vcpuNumber <= |threads|
      requires vcpus != null ==> vcpus.Length == 1
      modifies vcpus
      ensures end == BinRunVmSpec(vcpuNumber, if vcpus == null then None else Some(old(vcpus[0])), threads)
      ensures end.None? ==> joined == [0]
      ensures vcpus != null ==> Keeps(old(vcpus[0]), vcpus[0])
      ensures vcpus != null && end.None? ==> vcpus[0] == Ran(BinHost, old(vcpus[0]), 0, threads[0])
    {
      joined := [];
      var n := vcpuNumber;
      var i := 0;
      while i < n
        invariant 0 <= i <= n && i <= 1
        invariant i == 1 ==> vcpus != null && threads[0].createRet == 0 && vcpus[0] == old(vcpus[0]).(thread := Some(0))
        invariant i == 0 && vcpus != null ==> vcpus[0] == old(vcpus[0])
      {
        if vcpus == null {
          return Some(Undefined(NullVcpuArray)), joined;
        }
        if i >= vcpus.Length {
          return Some(Undefined(ReadPastVcpu)), joined;
        }
        if threads[i].createRet != 0 {
          return Some(Exited(1, ThreadCreateFailed)), joined;
        }
        vcpus[0] := vcpus[0].(thread := Some(i));
        i := i + 1;
      }
      if vcpus == null {
        return Some(Undefined(JoinNoThread)), joined;
      }
      if n == 0 {
        return Some(Undefined(JoinNoThread)), joined;
      }
      assert n == 1 && threads[0].createRet == 0;
      assert vcpus[0].id == old(vcpus[0]).id;
      var r := CpuThread(BinHost, vcpus, 0, threads[0]);
      assert r == ThreadRun(BinHost, old(vcpus[0]).id, threads[0]);
      assert BinRunVmSpec(vcpuNumber, Some(old(vcpus[0])), threads) == Combine([r.end]);
      if r.end.Died? {
        CombineFirstDied([r.end], 0);
        return Some(Exited(r.end.status, r.end.cause)), joined;
      }
      CombineNoDeath([r.end]);
      if r.end.Running? {
        return Some(Blocked), joined;
      }
      joined := [0];
      end := None;
    }

    /** kvm_clean_vcpus: release every record in index order, then free the array. */
    method CleanVcpus()
      requires vcpus != null && vcpuNumber <= vcpus.Length
      modifies this`released
      ensures released == old(released) + seq(vcpuNumber, k => VcpuReleased(k)) + [VcpuArrayFreed]
    {
      for id := 0 to vcpuNumber
        invariant released == old(released) + seq(id, k => VcpuReleased(k))
      {
        released := released + [VcpuReleased(id)];
      }
      released := released + [VcpuArrayFreed];
    }

    /** kvm_code_bin's kvm_clean_vcpu: release the single record (it is not freed). */
    method CleanVcpu()
      modifies this`released
      ensures released == old(released) + [VcpuReleased(0)]
    {
      released := released + [VcpuReleased(0)];
    }

    /** kvm_clean_vm: close the VM fd and unmap guest memory. */
    method CleanVm()
      modifies this`released
      ensures released == old(released) + [VmReleased]
    {
      released := released + [VmReleased];
    }

    /** kvm_clean: close /dev/kvm and free the struct. */
    method Clean()
      modifies this`released
      ensures released == old(released) + [DeviceReleased]
    {
      released := released + [DeviceReleased];
    }
  }

  /** Running a thread changes only the handle and the register blocks of a record. */
  predicate Keeps(before: VcpuSlot, after: VcpuSlot) {
    && after.id == before.id && after.fd == before.fd && after.runMmapSize == before.runMmapSize
    && after.runMapped == before.runMapped && after.hasThreadFunc == before.hasThreadFunc
  }

  /** A reset changes only the register blocks of a record. */
  lemma ResetKeeps(host: Host, s: VcpuSlot, r: ResetReplies)
    ensures Keeps(s, ResetSlot(host, s, r)) && ResetSlot(host, s, r).thread == s.thread
  {
  }

  /**
   * kvm_run_vm on the records of array a, n > 0 of them: start every
   * thread, run the threads, then join them in index order.
   */
  method RunRecords(host: Host, a: array<VcpuSlot>, n: nat, threads: seq<ThreadOracle>) returns (end: Option<ProcessEnd>, joined: seq<nat>)
    requires 0 < n <= a.Length && n <= |threads|
    requires forall k :: 0 <= k < n ==> a[k].id == k
    modifies a
    ensures end == RunVmSpec(host, n, threads)
    ensures end.None? ==> joined == seq(n, k => k)
    ensures forall k :: 0 <= k < a.Length ==> Keeps(old(a[k]), a[k])
    ensures end.None? ==> forall k :: 0 <= k < n ==> a[k] == Ran(host, old(a[k]), k, threads[k])
  {
    joined := [];
    ghost var before := a[..];
    var ok := StartThreads(a, n, threads);
    if !ok {
      return Some(Exited(1, ThreadCreateFailed)), joined;
    }
    ghost var started := a[..];
    var died, ends := RunThreads(host, a, n, threads);
    if died.Some? {
      return died, joined;
    }
    assert forall k :: 0 <= k < n ==> a[k] == ResetSlot(host, started[k], threads[k].reset) && started[k] == before[k].(thread := Some(k));
    CombineNoDeath(ends);
    var blocked;
    blocked, joined := JoinThreads(ends);
    end := if blocked then Some(Blocked) else None;
  }

  /**
   * The join loop of kvm_run_vm over threads none of which died: main
   * blocks at the first thread still running, otherwise every thread is
   * joined in index order.
   */
  method JoinThreads(ends: seq<LoopEnd>) returns (blocked: bool, joined: seq<nat>)
    ensures blocked <==> exists k :: 0 <= k < |ends| && ends[k].Running?
    ensures !blocked ==> joined == seq(|ends|, k => k)
  {
    joined := [];
    for i := 0 to |ends|
      invariant joined == seq(i, k => k)
      invariant forall k :: 0 <= k < i ==> !ends[k].Running?
    {
      if ends[i].Running? {
        return true, joined;
      }
      joined := joined + [i];
    }
    blocked := false;
  }

  /**
   * The create loop of kvm_run_vm: pthread_create for records 0..n-1 in
   * order, each handle stored in its record, until a create fails.
   */
  method StartThreads(a: array<VcpuSlot>, n: nat, threads: seq<ThreadOracle>) returns (ok: bool)
    requires n <= a.Length && n <= |threads|
    modifies a
    ensures ok == CreatesOk(n, threads)
    ensures forall k :: 0 <= k < a.Length ==> Keeps(old(a[k]), a[k]) && a[k].regs == old(a[k]).regs && a[k].sregs == old(a[k]).sregs
    ensures ok ==> forall k :: 0 <= k < a.Length ==> a[k] == if k < n then old(a[k]).(thread := Some(k)) else old(a[k])
  {
    for i := 0 to n
      invariant forall k :: 0 <= k < i ==> threads[k].createRet == 0
      invariant forall k :: 0 <= k < a.Length ==> a[k] == if k < i then old(a[k]).(thread := Some(k)) else old(a[k])
    {
      if threads[i].createRet != 0 {
        return false;
      }
      a[i] := a[i].(thread := Some(i));
    }
    return true;
  }

  /**
   * The started threads of records 0..n-1, taken one after another: the first
   * that dies ends the process (`died`); otherwise `ends` holds how each
   * thread's loop ended and every record has been reset by its thread.
   */
  method RunThreads(host: Host, a: array<VcpuSlot>, n: nat, threads: seq<ThreadOracle>)
    returns (died: Option<ProcessEnd>, ends: seq<LoopEnd>)
    requires n <= a.Length && n <= |threads|
    requires forall k :: 0 <= k < n ==> a[k].id == k
    modifies a
    ensures died.Some? ==> died == Combine(ThreadEnds(host, n, threads))
    ensures died.None? ==> ends == ThreadEnds(host, n, threads) && forall k :: 0 <= k < n ==> !ends[k].Died?
    ensures forall k :: 0 <= k < a.Length ==> Keeps(old(a[k]), a[k])
    ensures died.None? ==> forall k :: 0 <= k < a.Length ==> a[k] == if k < n then ResetSlot(host, old(a[k]), threads[k].reset) else old(a[k])
  {
    ghost var all := ThreadEnds(host, n, threads);
    ends := [];
    for i := 0 to n
      invariant ends == all[..i]
      invariant forall k :: 0 <= k < i ==> !ends[k].Died?
      invariant forall k :: 0 <= k < a.Length ==> a[k] == if k < i then ResetSlot(host, old(a[k]), threads[k].reset) else old(a[k])
      invariant forall k :: 0 <= k < a.Length ==> Keeps(old(a[k]), a[k])
    {
      var r := CpuThread(host, a, i, threads[i]);
      ResetKeeps(host, old(a[i]), threads[i].reset);
      if r.end.Died? {
        CombineFirstDied(all, i);
        return Some(Exited(r.end.status, r.end.cause)), ends;
      }
      ends := ends + [r.end];
    }
    died := None;
  }

  /** kvm_init: NULL when /dev/kvm does not open; the API version is stored without a check. */
  method KvmInit(devFd: int, version: int) returns (kvm: Kvm?)
    ensures (kvm == null) == (devFd < 0)
    ensures kvm != null ==> fresh(kvm) && kvm.devFd == devFd && kvm.kvmVersion == version
                            && kvm.ram == null && kvm.regions == [] && kvm.vcpus == null && kvm.released == []
  {
    if devFd < 0 {
      return null;
    }
    kvm := new Kvm(devFd, version);
  }

  /**
   * kvm_init_vcpu on record i for vCPU id: 0 when the vCPU fd, the run-block
   * size and the run-block mapping were all obtained, -1 at the first that
   * was not; the record keeps what was written up to then. On arm64 the
   * KVM_ARM_PREFERRED_TARGET and KVM_ARM_VCPU_INIT calls between the first
   * two are issued without looking at their results.
   */
  method InitVcpu(a: array<VcpuSlot>, i: nat, id: int, r: VcpuReply) returns (ret: int)
    requires i < a.Length
    modifies a
    ensures a[..] == old(a[..])[i := InitSlot(old(a[i]), id, r)]
    ensures ret == (if VcpuInitOk(r) then 0 else -1)
  {
    a[i] := a[i].(id := id);
    a[i] := a[i].(fd := r.createRet);
    if r.createRet < 0 {
      return -1;
    }
    a[i] := a[i].(runMmapSize := r.mmapSizeRet);
    if r.mmapSizeRet < 0 {
      return -1;
    }
    if r.runMap.MapFailed? {
      a[i] := a[i].(runMapped := false);
      return -1;
    }
    a[i] := a[i].(runMapped := true);
    a[i] := a[i].(hasThreadFunc := true);
    ret := 0;
  }

  /**
   * kvm_create_vpcus: malloc n records (each holding `stale`), then
   * kvm_init_vcpu on record k for vCPU k in order; NULL when malloc or any
   * init fails.
   */
  method CreateVcpus(n: nat, mallocOk: bool, replies: seq<VcpuReply>, stale: VcpuSlot) returns (vcpus: array?<VcpuSlot>)
    requires n <= |replies|
    ensures (vcpus == null) == VcpuArraySpec(n, mallocOk, replies, stale).None?
    ensures vcpus != null ==> fresh(vcpus) && vcpus[..] == VcpuArraySpec(n, mallocOk, replies, stale).value
  {
    if !mallocOk {
      return null;
    }
    var a := new VcpuSlot[n](_ => stale);
    for id := 0 to n
      invariant forall k :: 0 <= k < id ==> VcpuInitOk(replies[k])
      invariant forall k :: 0 <= k < n ==> a[k] == if k < id then InitSlot(stale, k, replies[k]) else stale
    {
      var ret := InitVcpu(a, id, id, replies[id]);
      if ret < 0 {
        return null;
      }
    }
    return a;
  }

  /** kvm_code_bin's kvm_init_vcpu: one record of its own (malloc is not checked), NULL when an init call fails. */
  method InitVcpuBin(id: int, r: VcpuReply, stale: VcpuSlot) returns (vcpu: array?<VcpuSlot>)
    ensures (vcpu == null) == BinVcpuSpec(id, r, stale).None?
    ensures vcpu != null ==> fresh(vcpu) && vcpu.Length == 1 && vcpu[0] == BinVcpuSpec(id, r, stale).value
  {
    var v := new VcpuSlot[1](_ => stale);
    var ret := InitVcpu(v, 0, id, r);
    if ret < 0 {
      return null;
    }
    return v;
  }

  /**
   * kvm_cpu_thread on record i: kvm_reset_vcpu writes the record's register
   * blocks step by step and ends the process at the first failing call; then
   * the run loop runs.
   */
  method CpuThread(host: Host, a: array<VcpuSlot>, i: nat, t: ThreadOracle) returns (r: LoopResult)
    requires i < a.Length
    modifies a
    ensures r == ThreadRun(host, old(a[i]).id, t)
    ensures a[..] == old(a[..])[i := ResetSlot(host, old(a[i]), t.reset)]
  {
    var failed := LoopResult([], Died(ResetStatus(host), RegisterSetupFailed), 0);
    if host == Arm64Host {
      // KVM_SET_ONE_REG writes Arm64PcWrite() into the kernel; the record is not touched
      if t.reset.setOneReg < 0 {
        return failed;
      }
    } else {
      if t.reset.getSRegs < 0 {
        return failed;
      }
      a[i] := a[i].(sregs := VcpuRegisters.X86ResetSRegs(t.reset.kernelSRegs));
      if t.reset.setSRegs < 0 {
        return failed;
      }
      a[i] := a[i].(regs := VcpuRegisters.X86ResetRegs(a[i].regs));
      if t.reset.setRegs < 0 {
        return failed;
      }
    }
    r := RunVcpu(host, a[i].id, t.steps);
  }

  /**
   * main of the arm64 host (one vCPU) and of the four-vCPU host. When it
   * returns 0 the clean-up ran in this order: every vCPU record, the array,
   * the VM, the device.
   */
  method ThreadedMain(host: Host, o: HostOracle) returns (end: ProcessEnd, kvm: Kvm?)
    requires (host == Arm64Host || host == MultiHost) && Covers(host, o)
    ensures end == MainSpec(host, o)
    ensures end == MainReturned(0) ==>
              kvm != null && kvm.released == seq(VcpuCount(host), k => VcpuReleased(k)) + [VcpuArrayFreed, VmReleased, DeviceReleased]
  {
    kvm := KvmInit(o.devFd, o.version);
    if kvm == null {
      return MainReturned(-1), kvm;
    }
    var ret := kvm.CreateVm(host, o.vm);
    if ret < 0 {
      return MainReturned(-1), kvm;
    }
    CreateVmSucceedsWithLayout(host, o.vm);
    var loaded := LoadBinary(kvm.ram, o.imageOpen, o.image);
    if loaded.OpenFailed? {
      return Exited(1, ImageOpenFailed), kvm;
    }
    if loaded.Overrun? {
      return Undefined(ImageOverrun), kvm;
    }
    end := MainVcpus(host, kvm, o);
  }

  /**
   * The rest of main of the arm64 and four-vCPU hosts, once the image is
   * loaded: kvm_create_vpcus, kvm_run_vm and, when the threads let main go
   * on, the clean-up.
   */
  method MainVcpus(host: Host, kvm: Kvm, o: HostOracle) returns (end: ProcessEnd)
    requires (host == Arm64Host || host == MultiHost) && Covers(host, o)
    requires kvm.released == []
    modifies kvm`vcpuNumber, kvm`vcpus, kvm`released
    ensures end == (var run := if VcpusOf(host, o).None? then Some(Undefined(NullVcpuArray))
                               else RunVmSpec(host, VcpuCount(host), o.threads);
                    if run.Some? then run.value else MainReturned(0))
    ensures end == MainReturned(0) ==>
              kvm.released == seq(VcpuCount(host), k => VcpuReleased(k)) + [VcpuArrayFreed, VmReleased, DeviceReleased]
  {
    kvm.vcpuNumber := VcpuCount(host);
    kvm.vcpus := CreateVcpus(kvm.vcpuNumber, o.vcpusMalloc, o.vcpuReplies, o.stale);
    VcpuArrayReady(kvm.vcpuNumber, o.vcpusMalloc, o.vcpuReplies, o.stale);
    var run, joined := kvm.RunVm(host, o.threads);
    if run.Some? {
      return run.value;
    }
    kvm.CleanVcpus();
    kvm.CleanVm();
    kvm.Clean();
    end := MainReturned(0);
  }

  /**
   * main of kvm_code_bin. When it returns 0 the clean-up ran in this order:
   * the VM, then the single vCPU record, then the device.
   */
  method BinMain(o: HostOracle) returns (end: ProcessEnd, kvm: Kvm?)
    requires Covers(BinHost, o)
    ensures end == MainSpec(BinHost, o)
    ensures end == MainReturned(0) ==> kvm != null && kvm.released == [VmReleased, VcpuReleased(0), DeviceReleased]
  {
    kvm := KvmInit(o.devFd, o.version);
    if kvm == null {
      return MainReturned(-1), kvm;
    }
    var ret := kvm.CreateVm(BinHost, o.vm);
    if ret < 0 {
      return MainReturned(-1), kvm;
    }
    CreateVmSucceedsWithLayout(BinHost, o.vm);
    var loaded := LoadBinary(kvm.ram, o.imageOpen, o.image);
    if loaded.OpenFailed? {
      return Exited(1, ImageOpenFailed), kvm;
    }
    if loaded.Overrun? {
      return Undefined(ImageOverrun), kvm;
    }
    kvm.vcpuNumber := 1;
    kvm.vcpus := InitVcpuBin(0, o.vcpuReplies[0], o.stale);
    var run, joined := kvm.RunVmBin(o.threads);
    if run.Some? {
      return run.value, kvm;
    }
    kvm.CleanVm();
    kvm.CleanVcpu();
    kvm.Clean();
    end := MainReturned(0);
  }
}
