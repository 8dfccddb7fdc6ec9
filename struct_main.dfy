/**
 * kvm_code_struct: one straight-line main that opens /dev/kvm, insists on
 * API version 12, creates a VM with one page of guest memory holding a
 * twelve-byte real-mode program, creates one vCPU, checks the size of its
 * run block, points cs:rip at the program and runs it, echoing single-byte
 * writes to port 0x3f8 until the guest halts. Every ioctl and mmap result is
 * a field of the Oracle; the guest program itself is given a small
 * interpreter so that the output it should produce can be derived.
 */
module StructHost {
  import opened KvmAbi
  import opened ExitDispatch
  import opened VcpuLoop
  import opened GuestLayout
  import opened VcpuRegisters

  /** sizeof(struct kvm_run) on x86-64: 32 bytes of header, the 256-byte exit union, two 8-byte words, 2048 bytes of synced registers. */
  const SIZEOF_KVM_RUN: nat := 32 + 256 + 16 + 2048

  /**
   * The guest program: mov $0x3f8,%dx; add %bl,%al; add $'0',%al;
   * out %al,(%dx); mov $'\n',%al; out %al,(%dx); hlt.
   */
  const CODE: seq<byte> := [0xba, 0xf8, 0x03, 0x00, 0xd8, 0x04, 0x30, 0xee, 0xb0, 0x0a, 0xee, 0xf4]

  /** Every host reply main consumes, in the order it asks for them. */
  datatype Oracle = Oracle(
    devFd: int, apiVersion: int, vmFd: int, memMap: MapReply, setRegion: int, vcpuFd: int,
    mmapSize: int, runMap: MapReply, getSRegs: int, kernelSRegs: SRegs, setSRegs: int, setRegs: int,
    steps: seq<RunStep>)

  /**
   * The set-up call whose failure main reports with err or errx (exit status 1).
   * AllocGuestMemory and MmapRun are the two `if (!p)` tests after mmap: they
   * fire when mmap hands back address 0.
   */
  datatype SetupStep =
    | OpenDevice | GetApiVersion | ApiVersionMismatch | CreateVm | AllocGuestMemory | SetMemoryRegion
    | CreateVcpu | GetMmapSize | MmapSizeTooSmall | MmapRun | GetSRegs | SetSRegs | SetRegs

  /** An mmap result that an `if (!p)` test rejects: the null address. */
  predicate IsNullMap(m: MapReply) {
    m == Mapped(0)
  }

  /**
   * A failed mmap that main does not catch: it tests the result against NULL,
   * but mmap reports failure with MAP_FAILED, so the program goes on to use
   * the address; the behaviour from there on is undefined.
   */
  datatype Hazard = GuestMemoryUnmapped | RunBlockUnmapped

  /** What main handed KVM before the first KVM_RUN, and the length of the run-block mapping it asked for. */
  datatype VmSetup = VmSetup(region: Region, runBlockSize: nat, sregs: SRegs, regs: Regs)

  datatype Outcome =
    | SetupFailed(step: SetupStep)
    | Undefined(hazard: Hazard)
    | Looped(setup: VmSetup, result: LoopResult)

  /** The int returned by KVM_GET_VCPU_MMAP_SIZE stored in a size_t: negative values wrap around. */
  function SizeT(ret: int): nat
    requires -U32_LIMIT / 2 <= ret < U32_LIMIT / 2
  {
    if ret < 0 then ret + U64_LIMIT else ret
  }

  /** An int result of ioctl: the C type of ret is a 32-bit int. */
  predicate IsInt(ret: int) {
    -U32_LIMIT / 2 <= ret < U32_LIMIT / 2
  }

  /** The process outcome of main, call by call. */
  function StructMainSpec(o: Oracle): Outcome
    requires IsInt(o.mmapSize)
  {
    if o.devFd == -1 then SetupFailed(OpenDevice)
    else if o.apiVersion == -1 then SetupFailed(GetApiVersion)
    else if o.apiVersion != KVM_API_VERSION then SetupFailed(ApiVersionMismatch)
    else if o.vmFd == -1 then SetupFailed(CreateVm)
    else if IsNullMap(o.memMap) then SetupFailed(AllocGuestMemory)
    else if o.memMap.MapFailed? then Undefined(GuestMemoryUnmapped)
    else if o.setRegion == -1 then SetupFailed(SetMemoryRegion)
    else if o.vcpuFd == -1 then SetupFailed(CreateVcpu)
    else if o.mmapSize == -1 then SetupFailed(GetMmapSize)
    else if SizeT(o.mmapSize) < SIZEOF_KVM_RUN then SetupFailed(MmapSizeTooSmall)
    else if IsNullMap(o.runMap) then SetupFailed(MmapRun)
    else if o.getSRegs == -1 then SetupFailed(GetSRegs)
    else if o.setSRegs == -1 then SetupFailed(SetSRegs)
    else if o.setRegs == -1 then SetupFailed(SetRegs)
    // the run block is first read after the first KVM_RUN that succeeds
    else if o.runMap.MapFailed? && |o.steps| > 0 && !RunFails(StructHost, o.steps[0].ret) then Undefined(RunBlockUnmapped)
    else Looped(VmSetup(StructLayout(o.memMap.addr)[0], SizeT(o.mmapSize), StructSRegs(o.kernelSRegs), StructRegs()),
                Run(StructHost, 0, o.steps))
  }

  /**
   * main reaches KVM_RUN only when every set-up call passed its check: the
   * device, VM and vCPU fds are not -1, the API version is 12, guest memory
   * is mapped at a non-null address, KVM accepted the region, the run block
   * is at least as large as struct kvm_run (or a negative size other than
   * -1, which wraps to a huge size_t) and mapped with exactly the size KVM
   * reported at an address other than NULL, and the three register ioctls
   * succeeded. The VM then has one writable page at 0x1000 and cs:rip points
   * at its start.
   */
  lemma ReachesRunOnlyWhenChecked(o: Oracle)
    requires IsInt(o.mmapSize)
    requires StructMainSpec(o).Looped?
    ensures o.devFd != -1 && o.apiVersion == 12 && o.vmFd != -1 && o.memMap.Mapped? && o.memMap.addr != 0
    ensures o.setRegion != -1 && o.vcpuFd != -1 && !IsNullMap(o.runMap)
    ensures o.getSRegs != -1 && o.setSRegs != -1 && o.setRegs != -1
    ensures o.mmapSize >= SIZEOF_KVM_RUN || o.mmapSize < -1
    ensures var s := StructMainSpec(o).setup;
            WellFormed([s.region]) && s.region.guestPhysAddr == 0x1000 && s.region.memorySize == 0x1000
            && !ReadOnly(s.region) && s.sregs.cs.base + s.regs.rip == s.region.guestPhysAddr
            && s.runBlockSize >= SIZEOF_KVM_RUN && (o.mmapSize >= 0 ==> s.runBlockSize == o.mmapSize)
  {
  }

  /** main: the set-up calls, the copy of CODE into the guest page and the run loop. */
  method StructMain(o: Oracle) returns (out: Outcome, mem: array?<byte>)
    requires IsInt(o.mmapSize)
    ensures out == StructMainSpec(o)
    ensures mem != null <==> o.devFd != -1 && o.apiVersion == 12 && o.vmFd != -1 && o.memMap.Mapped? && o.memMap.addr != 0
    ensures mem != null ==> fresh(mem) && mem.Length == STRUCT_MEM_SIZE && mem[..|CODE|] == CODE
                            && forall k :: |CODE| <= k < mem.Length ==> mem[k] == 0
  {
    mem := null;
    if o.devFd == -1 { return SetupFailed(OpenDevice), mem; }
    var ret := o.apiVersion;
    if ret == -1 { return SetupFailed(GetApiVersion), mem; }
    if ret != 12 { return SetupFailed(ApiVersionMismatch), mem; }
    if o.vmFd == -1 { return SetupFailed(CreateVm), mem; }
    if IsNullMap(o.memMap) { return SetupFailed(AllocGuestMemory), mem; }
    if o.memMap.MapFailed? { return Undefined(GuestMemoryUnmapped), mem; }
    // an anonymous mapping starts zero-filled; memcpy then stores the program at its start
    mem := new byte[STRUCT_MEM_SIZE](_ => 0);
    for k := 0 to |CODE|
      invariant mem[..k] == CODE[..k]
      invariant forall j :: k <= j < mem.Length ==> mem[j] == 0
    {
      mem[k] := CODE[k];
    }
    var region := Region(0, 0x1000, 0x1000, o.memMap.addr, 0);
    if o.setRegion == -1 { return SetupFailed(SetMemoryRegion), mem; }
    if o.vcpuFd == -1 { return SetupFailed(CreateVcpu), mem; }
    ret := o.mmapSize;
    if ret == -1 { return SetupFailed(GetMmapSize), mem; }
    var mmapSize := SizeT(ret);
    if mmapSize < SIZEOF_KVM_RUN { return SetupFailed(MmapSizeTooSmall), mem; }
    if IsNullMap(o.runMap) { return SetupFailed(MmapRun), mem; }
    if o.getSRegs == -1 { return SetupFailed(GetSRegs), mem; }
    var sregs := o.kernelSRegs;
    sregs := sregs.(cs := sregs.cs.(base := 0));
    sregs := sregs.(cs := sregs.cs.(selector := 0));
    if o.setSRegs == -1 { return SetupFailed(SetSRegs), mem; }
    var regs := ZERO_REGS.(rip := 0x1000, rax := 2, rbx := 7, rflags := 2);
    if o.setRegs == -1 { return SetupFailed(SetRegs), mem; }
    if o.runMap.MapFailed? && |o.steps| > 0 && !RunFails(StructHost, o.steps[0].ret) {
      return Undefined(RunBlockUnmapped), mem;
    }
    var r := RunVcpu(StructHost, 0, o.steps);
    out := Looped(VmSetup(region, mmapSize, sregs, regs), r);
  }

  // A decoder for the six real-mode instructions of CODE, enough to derive the exits it causes.

  /** The guest registers the program uses, and the offset of the next instruction in the page. */
  datatype Cpu = Cpu(al: byte, bl: byte, dx: nat, ip: nat)

  /** The exits the guest causes from cpu on, ending with HLT; None if it meets an instruction outside the six. */
  function Execute(code: seq<byte>, cpu: Cpu): Option<seq<Exit>>
    decreases |code| - cpu.ip
  {
    if cpu.ip >= |code| then None
    else
      var op := code[cpu.ip];
      if op == 0xf4 then var halt: Exit := Hlt; Some([halt])
      else if op == 0xee then
        var e: Exit := Io(KVM_EXIT_IO_OUT, 1, cpu.dx, 1, [cpu.al, 0, 0, 0]);
        match Execute(code, cpu.(ip := cpu.ip + 1))
        case None => None
        case Some(rest) => Some([e] + rest)
      else if cpu.ip + 1 >= |code| then None
      else
        var imm := code[cpu.ip + 1];
        if op == 0xb0 then Execute(code, cpu.(al := imm, ip := cpu.ip + 2))
        else if op == 0x04 then Execute(code, cpu.(al := ((cpu.al as int + imm as int) % 0x100) as byte, ip := cpu.ip + 2))
        else if op == 0x00 && imm == 0xd8 then Execute(code, cpu.(al := ((cpu.al as int + cpu.bl as int) % 0x100) as byte, ip := cpu.ip + 2))
        else if op == 0xba && cpu.ip + 2 < |code| then
          Execute(code, cpu.(dx := imm as nat + 0x100 * code[cpu.ip + 2] as nat, ip := cpu.ip + 3))
        else None
  }

  /** The guest's first state: al and bl are the low bytes of rax and rbx, ip the offset of cs:rip in the page. */
  function StartCpu(r: Regs, csBase: nat): Cpu
    requires STRUCT_GUEST_BASE <= csBase + r.rip
  {
    Cpu((r.rax % 0x100) as byte, (r.rbx % 0x100) as byte, r.rdx % 0x1_0000, csBase + r.rip - STRUCT_GUEST_BASE)
  }

  /** The console write of one character to COM1. */
  function PortWrite(c: byte): Exit {
    Io(KVM_EXIT_IO_OUT, 1, COM1_PORT, 1, [c, 0, 0, 0])
  }

  /**
   * From the registers main sets, the program writes '9' (2 + 7 + '0') and
   * '\n' to port 0x3f8 and halts.
   */
  lemma FixtureExits(s: SRegs)
    ensures Execute(CODE, StartCpu(StructRegs(), StructSRegs(s).cs.base))
            == Some([PortWrite(57), PortWrite(10), Hlt])
  {
    var tail: seq<Exit> := [Hlt];
    assert Execute(CODE, Cpu(10, 7, 0x3f8, 11)) == Some(tail);
    assert Execute(CODE, Cpu(10, 7, 0x3f8, 10)) == Some([PortWrite(10)] + tail);
    assert Execute(CODE, Cpu(57, 7, 0x3f8, 8)) == Some([PortWrite(10)] + tail);
    assert Execute(CODE, Cpu(57, 7, 0x3f8, 7)) == Some([PortWrite(57)] + ([PortWrite(10)] + tail));
    assert Execute(CODE, Cpu(9, 7, 0x3f8, 5)) == Execute(CODE, Cpu(57, 7, 0x3f8, 7));
    assert Execute(CODE, Cpu(2, 7, 0x3f8, 3)) == Execute(CODE, Cpu(9, 7, 0x3f8, 5));
    assert Execute(CODE, Cpu(2, 7, 0, 0)) == Execute(CODE, Cpu(2, 7, 0x3f8, 3));
    assert StartCpu(StructRegs(), StructSRegs(s).cs.base) == Cpu(2, 7, 0, 0);
    assert [PortWrite(57)] + ([PortWrite(10)] + tail) == [PortWrite(57), PortWrite(10), Hlt];
  }

  /**
   * A reported exit agrees with the exit the program causes as far as the
   * host looks at it: for a port access the direction, size, port, count and
   * the byte at data_offset; any other exit in full.
   */
  predicate Reports(actual: Exit, expected: Exit) {
    if expected.Io? then
      && actual.Io? && actual.direction == expected.direction && actual.size == expected.size
      && actual.port == expected.port && actual.count == expected.count && actual.data[0] == expected.data[0]
    else actual == expected
  }

  /**
   * When every KVM_RUN succeeds and reports the next exit the program causes
   * from the registers main set, main prints "9\n" and returns 0 after three
   * runs.
   */
  lemma {:induction false} FixturePrintsNine(o: Oracle)
    requires IsInt(o.mmapSize)
    requires StructMainSpec(o).Looped?
    requires var exits := Execute(CODE, StartCpu(StructRegs(), StructSRegs(o.kernelSRegs).cs.base));
             exits.Some? && |o.steps| == |exits.value|
             && forall k :: 0 <= k < |o.steps| ==> o.steps[k].ret != -1 && Reports(o.steps[k].exit, exits.value[k])
    ensures StructMainSpec(o).result == LoopResult([57, 10], Returned, 3)
  {
    FixtureExits(o.kernelSRegs);
    var s := o.steps;
    assert s[1..][1..] == s[2..];
    assert Run(StructHost, 0, s[2..]) == LoopResult([], Returned, 1);
    assert StepAction(StructHost, 0, s[1]) == Resume([10], Silent);
    assert Run(StructHost, 0, s[1..]) == LoopResult([10], Returned, 2);
    assert StepAction(StructHost, 0, s[0]) == Resume([57], Silent);
  }
}
