/**
 * The slice of the Linux KVM user-space interface (linux/kvm.h) that the four
 * host programs use: exit-reason numbers, the exit payloads they read out of
 * the shared run block, and the actions a host takes in answer to one exit.
 */
module KvmAbi {

  newtype byte = x: int | 0 <= x < 0x100

  datatype Option<T> = None | Some(value: T)

  /** The result of an mmap call: a mapping at some address, or MAP_FAILED. */
  datatype MapReply = Mapped(addr: nat) | MapFailed

  const U16_LIMIT: int := 0x1_0000
  const U32_LIMIT: int := 0x1_0000_0000
  const U64_LIMIT: int := 0x1_0000_0000_0000_0000

  /** The stable API version every host expects from KVM_GET_API_VERSION. */
  const KVM_API_VERSION: int := 12

  // Exit reasons (kvm_run.exit_reason).
  const KVM_EXIT_UNKNOWN: nat := 0
  const KVM_EXIT_IO: nat := 2
  const KVM_EXIT_DEBUG: nat := 4
  const KVM_EXIT_HLT: nat := 5
  const KVM_EXIT_MMIO: nat := 6
  const KVM_EXIT_SHUTDOWN: nat := 8
  const KVM_EXIT_FAIL_ENTRY: nat := 9
  const KVM_EXIT_INTR: nat := 10
  const KVM_EXIT_INTERNAL_ERROR: nat := 17
  const KVM_EXIT_SYSTEM_EVENT: nat := 24

  // kvm_run.system_event.type
  const KVM_SYSTEM_EVENT_SHUTDOWN: nat := 1
  const KVM_SYSTEM_EVENT_RESET: nat := 2
  const KVM_SYSTEM_EVENT_CRASH: nat := 3

  // kvm_run.io.direction
  const KVM_EXIT_IO_IN: nat := 0
  const KVM_EXIT_IO_OUT: nat := 1

  /** kvm_userspace_memory_region.flags bit that makes guest writes trap. */
  const KVM_MEM_READONLY: nat := 2

  /** True of the exit-reason numbers that have their own constructor in Exit. */
  predicate IsNamedReason(reason: nat) {
    reason in {KVM_EXIT_UNKNOWN, KVM_EXIT_IO, KVM_EXIT_DEBUG, KVM_EXIT_HLT, KVM_EXIT_MMIO,
               KVM_EXIT_SHUTDOWN, KVM_EXIT_FAIL_ENTRY, KVM_EXIT_INTR, KVM_EXIT_INTERNAL_ERROR,
               KVM_EXIT_SYSTEM_EVENT}
  }

  /**
   * The bytes of the run block from io.data_offset on. The kernel places the
   * transferred data inside the mapping, so at least the four bytes that the
   * x86 hosts read as an int are always there.
   */
  type PortData = s: seq<byte> | |s| >= 4 witness [0, 0, 0, 0]

  /** kvm_run.mmio.data: a fixed array of eight bytes. */
  type MmioData = s: seq<byte> | |s| == 8 witness [0, 0, 0, 0, 0, 0, 0, 0]

  /**
   * One exit as recorded in the run block after a successful KVM_RUN: the
   * exit reason together with the branch of the payload union it selects.
   */
  datatype ExitEvent =
    | Unknown
    | Io(direction: nat, size: nat, port: nat, count: nat, data: PortData)
    | Debug
    | Hlt
    | Mmio(physAddr: nat, mmioData: MmioData, len: nat, isWrite: bool)
    | Shutdown
    | FailEntry(hardwareEntryFailureReason: nat)
    | Intr
    | InternalError(suberror: nat)
    | SystemEvent(eventType: nat)
    | Other(reason: nat)

  /** Every exit the kernel can report; a named reason always comes with its own constructor. */
  type Exit = e: ExitEvent | e.Other? ==> !IsNamedReason(e.reason) witness Unknown

  /** The number the kernel writes into kvm_run.exit_reason for this exit. */
  function ReasonCode(e: Exit): (code: nat)
    ensures e.Other? ==> code == e.reason
    ensures !e.Other? ==> IsNamedReason(code)
  {
    match e
    case Unknown => KVM_EXIT_UNKNOWN
    case Io(_, _, _, _, _) => KVM_EXIT_IO
    case Debug => KVM_EXIT_DEBUG
    case Hlt => KVM_EXIT_HLT
    case Mmio(_, _, _, _) => KVM_EXIT_MMIO
    case Shutdown => KVM_EXIT_SHUTDOWN
    case FailEntry(_) => KVM_EXIT_FAIL_ENTRY
    case Intr => KVM_EXIT_INTR
    case InternalError(_) => KVM_EXIT_INTERNAL_ERROR
    case SystemEvent(_) => KVM_EXIT_SYSTEM_EVENT
    case Other(r) => r
  }

  /** Two exits with the same reason number are exits of the same kind. */
  lemma ReasonCodeDeterminesKind(e1: Exit, e2: Exit)
    requires ReasonCode(e1) == ReasonCode(e2)
    ensures e1.Unknown? == e2.Unknown? && e1.Io? == e2.Io? && e1.Debug? == e2.Debug?
    ensures e1.Hlt? == e2.Hlt? && e1.Mmio? == e2.Mmio? && e1.Shutdown? == e2.Shutdown?
    ensures e1.FailEntry? == e2.FailEntry? && e1.Intr? == e2.Intr?
    ensures e1.InternalError? == e2.InternalError? && e1.SystemEvent? == e2.SystemEvent?
    ensures e1.Other? == e2.Other?
  {
  }

  /** Why a host ended the whole process through exit() or errx(). */
  datatype Cause =
    | RunFailed                    // KVM_RUN returned an error
    | EntryFailure(code: nat)      // KVM_EXIT_FAIL_ENTRY, carrying hardware_entry_failure_reason
    | KvmInternal(suberror: nat)   // KVM_EXIT_INTERNAL_ERROR, carrying internal.suberror
    | BadReason(reason: nat)       // an exit reason the switch does not list
    | UnhandledIo                  // kvm_code_struct: a port access other than the console write
    | RegisterSetupFailed          // a register get/set ioctl of the thread's reset failed
    | ImageOpenFailed              // load_binary could not open the guest image
    | ThreadCreateFailed           // pthread_create failed in kvm_run_vm

  /** A diagnostic line a host prints for a port access (not console output). */
  datatype Note =
    | Silent
    | PortNote(port: nat, value: int)                    // "out port: %d, data: %d"
    | PortNoteOnCpu(port: nat, value: int, vcpuId: int)  // "... cpuid: %d"

  /** What a host does with one exit. */
  datatype Action =
    | Resume(console: seq<byte>, note: Note)  // emit console bytes, run the vCPU again
    | Leave                                   // the vCPU thread (or main) returns 0
    | Die(status: int, cause: Cause)          // the process ends with this exit status

  /**
   * The C expression `*(int *)p` on a little-endian host: the first four
   * bytes read as a two's-complement 32-bit integer.
   */
  function Int32At(d: PortData): (v: int)
    ensures -0x8000_0000 <= v < 0x8000_0000
    ensures (v + U32_LIMIT) % U32_LIMIT
            == d[0] as int + 0x100 * d[1] as int + 0x1_0000 * d[2] as int + 0x100_0000 * d[3] as int
  {
    var u := d[0] as int + 0x100 * d[1] as int + 0x1_0000 * d[2] as int + 0x100_0000 * d[3] as int;
    if u < 0x8000_0000 then u else u - U32_LIMIT
  }

  /** The four little-endian bytes of a 32-bit store value. */
  function LeBytes32(v: nat): (b: seq<byte>)
    requires v < U32_LIMIT
    ensures |b| == 4 && b[0] as int == v % 0x100
    ensures b[0] as int + 0x100 * b[1] as int + 0x1_0000 * b[2] as int + 0x100_0000 * b[3] as int == v
  {
    var q1 := v / 0x100;
    var q2 := q1 / 0x100;
    var q3 := q2 / 0x100;
    assert v == v % 0x100 + 0x100 * q1;
    assert q1 == q1 % 0x100 + 0x100 * q2;
    assert q2 == q2 % 0x100 + 0x100 * q3;
    assert q3 < 0x100 by {
      assert q1 < 0x100_0000;
      assert q2 < 0x1_0000;
    }
    [(v % 0x100) as byte, (q1 % 0x100) as byte, (q2 % 0x100) as byte, q3 as byte]
  }
}
