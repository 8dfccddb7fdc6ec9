/**
 * What the three threaded hosts do from start to end, as functions of the
 * replies they receive: kvm_create_vm, the creation of the vCPU records,
 * kvm_run_vm and main. The methods of HostLifecycle are proved against
 * these functions, and the lemmas here state what main can end with.
 */
module HostSpec {
  import opened KvmAbi
  import opened VcpuLoop
  import opened GuestLayout
  import opened ImageLoader
  import opened VcpuThreads
  import VcpuRegisters

  /** The replies kvm_create_vm receives; the MMIO pair is asked for by the arm64 host only. */
  datatype VmReplies = VmReplies(vmFd: int, ramMap: MapReply, setRam: int, mmioMap: MapReply, setMmio: int, staleFlags: nat)

  /** The RAM size main passes to kvm_create_vm. */
  function RamSize(host: Host): nat {
    match host
    case Arm64Host => ARM64_RAM_SIZE
    case MultiHost => MULTI_RAM_SIZE
    case BinHost => BIN_RAM_SIZE
    case StructHost => STRUCT_MEM_SIZE
  }

  /** NUM_VPCUS of the arm64 and four-vCPU hosts; kvm_code_bin sets vcpu_number to 1. */
  function VcpuCount(host: Host): nat {
    if host == MultiHost then 4 else 1
  }

  /**
   * kvm_create_vm's result: -1 when KVM_CREATE_VM or an mmap fails, the
   * ioctl's own result when a KVM_SET_USER_MEMORY_REGION fails, otherwise the
   * result of the last KVM_SET_USER_MEMORY_REGION.
   */
  function CreateVmRet(host: Host, r: VmReplies): int {
    if r.vmFd < 0 || r.ramMap.MapFailed? then -1
    else if r.setRam < 0 || host != Arm64Host then r.setRam
    else if r.mmioMap.MapFailed? then -1
    else r.setMmio
  }

  /** The regions KVM accepted, in order, by the time kvm_create_vm returns. */
  function VmRegions(host: Host, r: VmReplies): seq<Region> {
    if r.vmFd < 0 || r.ramMap.MapFailed? || r.setRam < 0 then []
    else if host != Arm64Host then X86Layout(RamSize(host), r.ramMap.addr, r.staleFlags)
    else
      var ram := Arm64Layout(r.ramMap.addr, 0, r.staleFlags)[..1];
      if r.mmioMap.MapFailed? || r.setMmio < 0 then ram
      else Arm64Layout(r.ramMap.addr, r.mmioMap.addr, r.staleFlags)
  }

  /**
   * kvm_create_vm fails (a negative result) exactly when one of its calls
   * fails, and when it succeeds the host's whole, well-formed layout is in
   * place: RAM from guest address 0, plus the read-only MMIO window on arm64.
   */
  lemma CreateVmSucceedsWithLayout(host: Host, r: VmReplies)
    requires host != StructHost
    ensures CreateVmRet(host, r) >= 0 <==>
              r.vmFd >= 0 && r.ramMap.Mapped? && r.setRam >= 0
              && (host == Arm64Host ==> r.mmioMap.Mapped? && r.setMmio >= 0)
    ensures CreateVmRet(host, r) >= 0 ==>
              && VmRegions(host, r) == (if host == Arm64Host then Arm64Layout(r.ramMap.addr, r.mmioMap.addr, r.staleFlags)
                                        else X86Layout(RamSize(host), r.ramMap.addr, r.staleFlags))
              && WellFormed(VmRegions(host, r))
              && VmRegions(host, r)[0].guestPhysAddr == 0 && VmRegions(host, r)[0].memorySize == RamSize(host)
    ensures CreateVmRet(host, r) < 0 ==> VmRegions(host, r) == [] || (host == Arm64Host && |VmRegions(host, r)| == 1)
  {
    if CreateVmRet(host, r) >= 0 {
      if host == Arm64Host {
        Arm64LayoutWellFormed(r.ramMap.addr, r.mmioMap.addr, r.staleFlags);
      } else {
        X86LayoutsWellFormed(r.ramMap.addr, r.staleFlags);
      }
    }
  }

  /**
   * The arm64 vCPU starts where load_binary put the image: the program
   * counter KVM_SET_ONE_REG writes is the guest address backed by slot 0 at
   * offset 0 of the RAM mapping, which holds the first byte of the image.
   */
  lemma Arm64StartsAtImage(r: VmReplies, ram: seq<byte>, image: seq<ReadReply>)
    requires CreateVmRet(Arm64Host, r) >= 0
    requires 0 < |Image(image)| <= |ram| && ram[..|Image(image)|] == Image(image)
    ensures Arm64PcWrite().id == 0x6030_0000_0010_0040
    ensures var l := VmRegions(Arm64Host, r);
            var pc := Arm64PcWrite().value;
            RegionOf(l, pc) == Some(0) && l[0].slot == 0 && pc == l[0].guestPhysAddr
            && ram[pc - l[0].guestPhysAddr] == Image(image)[0]
  {
    VcpuRegisters.PcRegId();
    CreateVmSucceedsWithLayout(Arm64Host, r);
    Arm64LayoutWellFormed(r.ramMap.addr, r.mmioMap.addr, r.staleFlags);
    RegionIsUnique(VmRegions(Arm64Host, r), Arm64PcWrite().value, 0);
    assert ram[0] == ram[..|Image(image)|][0];
  }

  /**
   * The records kvm_create_vpcus returns (arm64 and four-vCPU hosts): none
   * when malloc fails or any kvm_init_vcpu fails, otherwise n records
   * initialised in order over the malloc'd contents `stale`.
   */
  function VcpuArraySpec(n: nat, mallocOk: bool, replies: seq<VcpuReply>, stale: VcpuSlot): Option<seq<VcpuSlot>>
    requires n <= |replies|
  {
    if !mallocOk || exists k :: 0 <= k < n && !VcpuInitOk(replies[k]) then None
    else Some(seq(n, k requires 0 <= k < n => InitSlot(stale, k, replies[k])))
  }

  /** The record kvm_code_bin's kvm_init_vcpu returns for vCPU id: none (NULL) when one of its calls fails. */
  function BinVcpuSpec(id: int, r: VcpuReply, stale: VcpuSlot): Option<VcpuSlot> {
    if VcpuInitOk(r) then Some(InitSlot(stale, id, r)) else None
  }

  /** The records of a successful creation are ready to run, and record k is vCPU k. */
  lemma VcpuArrayReady(n: nat, mallocOk: bool, replies: seq<VcpuReply>, stale: VcpuSlot)
    requires n <= |replies|
    ensures VcpuArraySpec(n, mallocOk, replies, stale).Some? <==> mallocOk && forall k :: 0 <= k < n ==> VcpuInitOk(replies[k])
    ensures VcpuArraySpec(n, mallocOk, replies, stale).Some? ==>
              var a := VcpuArraySpec(n, mallocOk, replies, stale).value;
              |a| == n && forall k :: 0 <= k < n ==>
                a[k].id == k && a[k].fd == replies[k].createRet && a[k].runMapped && a[k].hasThreadFunc
                && a[k].runMmapSize == replies[k].mmapSizeRet
  {
    if VcpuArraySpec(n, mallocOk, replies, stale).Some? {
      forall k | 0 <= k < n
        ensures InitSlot(stale, k, replies[k]).runMapped && InitSlot(stale, k, replies[k]).hasThreadFunc
      {
        InitSlotReady(stale, k, replies[k]);
      }
    }
  }

  /**
   * kvm_code_bin's kvm_run_vm on its single record (None: the NULL main
   * does not check), with vcpu_number n: every handle is stored in the first
   * record, vcpus[i] is read for every i, and only the first record's handle
   * is joined.
   */
  function BinRunVmSpec(n: nat, vcpu: Option<VcpuSlot>, threads: seq<ThreadOracle>): Option<ProcessEnd>
    requires n <= |threads|
  {
    if vcpu.None? then (if n == 0 then Some(Undefined(JoinNoThread)) else Some(Undefined(NullVcpuArray)))
    else if n == 0 then Some(Undefined(JoinNoThread))
    else if threads[0].createRet != 0 then Some(Exited(1, ThreadCreateFailed))
    else if n > 1 then Some(Undefined(ReadPastVcpu))
    else Combine([ThreadRun(BinHost, vcpu.value.id, threads[0]).end])
  }

  /**
   * With its single record, vCPU 0, kvm_code_bin's kvm_run_vm does what the
   * per-record kvm_run_vm of the other hosts does with one record; with any
   * other count it reaches undefined behaviour or a create failure.
   */
  lemma BinRunVmIsSingleVcpuRunVm(n: nat, slot: VcpuSlot, threads: seq<ThreadOracle>)
    requires n <= |threads|
    ensures slot.id == 0 && n == 1 ==> BinRunVmSpec(n, Some(slot), threads) == RunVmSpec(BinHost, 1, threads)
    ensures n != 1 ==> BinRunVmSpec(n, Some(slot), threads).Some?
                       && !BinRunVmSpec(n, Some(slot), threads).value.MainReturned?
                       && !BinRunVmSpec(n, Some(slot), threads).value.Blocked?
  {
    if slot.id == 0 && n == 1 {
      assert ThreadEnds(BinHost, 1, threads) == [ThreadRun(BinHost, 0, threads[0]).end];
    }
  }

  /** Everything main of a threaded host receives. */
  datatype HostOracle = HostOracle(
    devFd: int, version: int,                        // open("/dev/kvm") and KVM_GET_API_VERSION
    vm: VmReplies,                                   // kvm_create_vm
    imageOpen: int, image: seq<ReadReply>,           // load_binary
    vcpusMalloc: bool, vcpuReplies: seq<VcpuReply>,  // the vCPU records
    stale: VcpuSlot,                                 // what malloc leaves in a record
    threads: seq<ThreadOracle>)                      // one per vCPU thread

  /** The oracle has a reply for every vCPU the host creates. */
  predicate Covers(host: Host, o: HostOracle) {
    VcpuCount(host) <= |o.vcpuReplies| && VcpuCount(host) <= |o.threads|
  }

  /** The vCPU records main hands to kvm_run_vm: kvm_create_vpcus's array, or kvm_code_bin's single record. */
  function VcpusOf(host: Host, o: HostOracle): Option<seq<VcpuSlot>>
    requires Covers(host, o)
  {
    if host == BinHost then
      (var v := BinVcpuSpec(0, o.vcpuReplies[0], o.stale); if v.Some? then Some([v.value]) else None)
    else VcpuArraySpec(VcpuCount(host), o.vcpusMalloc, o.vcpuReplies, o.stale)
  }

  /** How main ends, for the arm64, four-vCPU and single-vCPU hosts. */
  function MainSpec(host: Host, o: HostOracle): ProcessEnd
    requires host != StructHost && Covers(host, o)
  {
    if o.devFd < 0 || CreateVmRet(host, o.vm) < 0 then MainReturned(-1)
    else
      match Load(o.imageOpen, RamSize(host), o.image)
      case OpenFailed => Exited(1, ImageOpenFailed)
      case Overrun(_) => Undefined(ImageOverrun)
      case Loaded(_) =>
        var vcpus := VcpusOf(host, o);
        var run :=
          if host == BinHost then BinRunVmSpec(1, BinVcpuSpec(0, o.vcpuReplies[0], o.stale), o.threads)
          else if vcpus.None? then Some(Undefined(NullVcpuArray))
          else RunVmSpec(host, VcpuCount(host), o.threads);
        if run.Some? then run.value else MainReturned(0)
  }

  /** main returns -1 exactly when /dev/kvm does not open or kvm_create_vm fails, and it returns no value but -1 and 0. */
  lemma MainReturnsMinusOneIff(host: Host, o: HostOracle)
    requires host != StructHost && Covers(host, o)
    ensures MainSpec(host, o) == MainReturned(-1) <==> o.devFd < 0 || CreateVmRet(host, o.vm) < 0
    ensures MainSpec(host, o).MainReturned? ==> MainSpec(host, o).value in {-1, 0}
  {
    if o.devFd >= 0 && CreateVmRet(host, o.vm) >= 0 && Load(o.imageOpen, RamSize(host), o.image).Loaded? {
      var vcpus := VcpusOf(host, o);
      if host == BinHost && vcpus.Some? {
        BinRunVmIsSingleVcpuRunVm(1, vcpus.value[0], o.threads);
      }
    }
  }

  /**
   * The arm64 and single-vCPU hosts return 0 exactly when every step
   * succeeds: the device opens, the VM and its memory are set up, the image
   * opens and fits in RAM, the vCPU is created, its thread starts and the
   * thread returns from its loop.
   */
  lemma MainReturnsZeroIff(host: Host, o: HostOracle)
    requires (host == Arm64Host || host == BinHost) && Covers(host, o)
    ensures MainSpec(host, o) == MainReturned(0) <==>
              && o.devFd >= 0 && CreateVmRet(host, o.vm) >= 0
              && o.imageOpen >= 0 && |Image(o.image)| <= RamSize(host)
              && (host == Arm64Host ==> o.vcpusMalloc) && VcpuInitOk(o.vcpuReplies[0])
              && o.threads[0].createRet == 0
              && ThreadRun(host, 0, o.threads[0]).end == Returned
  {
    LoadedIffFits(o.imageOpen, RamSize(host), o.image);
    var vcpus := VcpusOf(host, o);
    if host == BinHost && vcpus.Some? {
      BinRunVmIsSingleVcpuRunVm(1, vcpus.value[0], o.threads);
      InitSlotReady(o.stale, 0, o.vcpuReplies[0]);
    }
    var ends := ThreadEnds(host, 1, o.threads);
    assert ends == [ThreadRun(host, 0, o.threads[0]).end];
    CombineNoneIffAllReturned(ends);
    if host == Arm64Host {
      VcpuArrayReady(1, o.vcpusMalloc, o.vcpuReplies, o.stale);
    }
  }

  /** The four-vCPU host never gets to its clean-up: its main never returns 0. */
  lemma MultiMainNeverReturnsZero(o: HostOracle)
    requires Covers(MultiHost, o)
    ensures MainSpec(MultiHost, o) != MainReturned(0)
  {
    if VcpusOf(MultiHost, o).Some? {
      MultiRunVmNeverFinishes(4, o.threads);
    }
  }

  /**
   * The arm64 host ends with exit status 0 only when setting the program
   * counter failed: the one failure it reports as success.
   */
  lemma Arm64ExitZeroIsResetFailure(o: HostOracle)
    requires Covers(Arm64Host, o)
    ensures MainSpec(Arm64Host, o).Exited? && MainSpec(Arm64Host, o).status == 0 ==> o.threads[0].reset.setOneReg < 0
  {
    var vcpus := VcpusOf(Arm64Host, o);
    if o.devFd >= 0 && CreateVmRet(Arm64Host, o.vm) >= 0 && Load(o.imageOpen, RamSize(Arm64Host), o.image).Loaded? && vcpus.Some? {
      var ends := ThreadEnds(Arm64Host, 1, o.threads);
      assert ends == [ThreadRun(Arm64Host, 0, o.threads[0]).end];
      if ends[0].Died? {
        CombineFirstDied(ends, 0);
        VcpuThreads.Arm64ExitZeroIsResetFailure(0, o.threads[0]);
      } else {
        CombineNoDeath(ends);
      }
    }
  }

  /** The API version KVM reports is fetched and never looked at: main ends the same whatever it is. */
  lemma VersionIgnored(host: Host, o: HostOracle, version: int)
    requires host != StructHost && Covers(host, o)
    ensures MainSpec(host, o.(version := version)) == MainSpec(host, o)
  {
  }
}
