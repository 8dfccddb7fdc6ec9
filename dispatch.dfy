/**
 * The vmexit dispatchers: the `switch (exit_reason)` of each host program,
 * one pure function per program, from the exit recorded in the run block to
 * the action the host takes. Beside them, a common yardstick to compare the
 * four switches with (ReferenceCategory: halt and shutdown are clean stops,
 * entry failures, internal errors and unlisted reasons are fatal, everything
 * else resumes) and, per program, the exact set of exits on which the
 * program's switch departs from it.
 */
module ExitDispatch {
  import opened KvmAbi

  /** The x86 serial port COM1 that kvm_code_struct treats as its console. */
  const COM1_PORT: nat := 0x3f8

  /**
   * The status and message of the three fatal branches the arm64, multi-core
   * and struct hosts share: FAIL_ENTRY, INTERNAL_ERROR and `default`.
   */
  function FatalCause(e: Exit): (c: Cause)
    ensures e.FailEntry? ==> c == EntryFailure(e.hardwareEntryFailureReason)
    ensures e.InternalError? ==> c == KvmInternal(e.suberror)
    ensures !e.FailEntry? && !e.InternalError? ==> c == BadReason(ReasonCode(e))
  {
    match e
    case FailEntry(code) => EntryFailure(code)
    case InternalError(sub) => KvmInternal(sub)
    case _ => BadReason(ReasonCode(e))
  }

  /** The exit switch of the arm64 host (kvm_cpu_thread in arm64/kvm_code_bin). */
  function HandleExitArm64(vcpuId: int, e: Exit): (a: Action)
    ensures a.Resume? <==> e.Unknown? || e.Debug? || e.Io? || e.Mmio? || e.Intr?
                           || (e.SystemEvent? && e.eventType != KVM_SYSTEM_EVENT_SHUTDOWN)
    ensures a.Leave? <==> e.Shutdown? || (e.SystemEvent? && e.eventType == KVM_SYSTEM_EVENT_SHUTDOWN)
    ensures a.Die? ==> a == Die(1, FatalCause(e))
    // only an MMIO write produces console output, and only its first data byte
    ensures a.Resume? ==> a.console == if e.Mmio? && e.isWrite && e.len > 0 then [e.mmioData[0]] else []
    ensures a.Resume? && e.Io? ==> a.note == PortNoteOnCpu(e.port, Int32At(e.data), vcpuId)
    ensures a.Resume? && !e.Io? ==> a.note == Silent
  {
    match e
    case Unknown => Resume([], Silent)
    case Debug => Resume([], Silent)
    case Io(_, _, port, _, data) => Resume([], PortNoteOnCpu(port, Int32At(data), vcpuId))
    case Mmio(_, data, len, isWrite) =>
      // the print loop breaks after its first iteration
      if isWrite && len > 0 then Resume([data[0]], Silent) else Resume([], Silent)
    case Intr => Resume([], Silent)
    case Shutdown => Leave
    case SystemEvent(t) =>
      // RESET, CRASH and any other type leave the inner switch and resume
      if t == KVM_SYSTEM_EVENT_SHUTDOWN then Leave else Resume([], Silent)
    case _ => Die(1, FatalCause(e))
  }

  /** The exit switch of the four-vCPU x86 host (kvm_code_bin_multi). */
  function HandleExitMulti(vcpuId: int, e: Exit): (a: Action)
    ensures !a.Leave?
    ensures a.Resume? <==> e.Unknown? || e.Debug? || e.Io? || e.Mmio? || e.Intr? || e.Shutdown?
    ensures a.Die? ==> a == Die(1, FatalCause(e))
    ensures a.Resume? ==> a.console == []
    ensures a.Resume? && e.Io? ==> a.note == PortNoteOnCpu(e.port, Int32At(e.data), vcpuId)
    ensures a.Resume? && !e.Io? ==> a.note == Silent
  {
    match e
    case Unknown => Resume([], Silent)
    case Debug => Resume([], Silent)
    case Io(_, _, port, _, data) => Resume([], PortNoteOnCpu(port, Int32At(data), vcpuId))
    case Mmio(_, _, _, _) => Resume([], Silent)
    case Intr => Resume([], Silent)
    case Shutdown => Resume([], Silent)
    case _ => Die(1, FatalCause(e))
  }

  /** The exit switch of the single-vCPU x86 host (kvm_code_bin); `default` jumps to the clean return. */
  function HandleExitBin(e: Exit): (a: Action)
    ensures !a.Die?
    ensures a.Resume? <==> e.Unknown? || e.Debug? || e.Io? || e.Mmio? || e.Intr?
    ensures a.Resume? ==> a.console == []
    ensures a.Resume? && e.Io? ==> a.note == PortNote(e.port, Int32At(e.data))
    ensures a.Resume? && !e.Io? ==> a.note == Silent
  {
    match e
    case Unknown => Resume([], Silent)
    case Debug => Resume([], Silent)
    case Io(_, _, port, _, data) => Resume([], PortNote(port, Int32At(data)))
    case Mmio(_, _, _, _) => Resume([], Silent)
    case Intr => Resume([], Silent)
    case _ => Leave
  }

  /** The one port access kvm_code_struct accepts: a single one-byte OUT to COM1. */
  predicate IsConsoleWrite(e: Exit) {
    e.Io? && e.direction == KVM_EXIT_IO_OUT && e.size == 1 && e.port == COM1_PORT && e.count == 1
  }

  /** The exit switch of the loop at the end of kvm_code_struct's main. */
  function HandleExitStruct(e: Exit): (a: Action)
    ensures a.Resume? <==> IsConsoleWrite(e)
    ensures a.Leave? <==> e.Hlt?
    ensures a.Resume? ==> a == Resume([e.data[0]], Silent)
    ensures a.Die? ==> a == Die(1, if e.Io? then UnhandledIo else FatalCause(e))
  {
    match e
    case Hlt => Leave
    case Io(direction, size, port, count, data) =>
      if direction == KVM_EXIT_IO_OUT && size == 1 && port == COM1_PORT && count == 1
      then Resume([data[0]], Silent)
      else Die(1, UnhandledIo)
    case _ => Die(1, FatalCause(e))
  }

  /** The three ways a host can answer one exit: run the vCPU again, stop it cleanly, or end the process. */
  datatype Category = Continue | Stop | Abort

  function CategoryOf(a: Action): Category {
    match a
    case Resume(_, _) => Continue
    case Leave => Stop
    case Die(_, _) => Abort
  }

  /**
   * The yardstick: halt and shutdown end the vCPU cleanly, reset and crash
   * events, port and MMIO accesses, debug, unknown and interrupt exits
   * resume, and entry failures, internal errors and any reason or event type
   * not listed here are fatal. No host follows it exactly; the lemmas below
   * say where each one departs from it.
   */
  function ReferenceCategory(e: Exit): (c: Category)
    ensures c == Stop <==> e.Hlt? || e.Shutdown? || (e.SystemEvent? && e.eventType == KVM_SYSTEM_EVENT_SHUTDOWN)
    ensures c == Abort <==> (e.FailEntry? || e.InternalError? || e.Other? ||
      (e.SystemEvent? && e.eventType !in {KVM_SYSTEM_EVENT_SHUTDOWN, KVM_SYSTEM_EVENT_RESET, KVM_SYSTEM_EVENT_CRASH}))
  {
    match e
    case Hlt => Stop
    case Shutdown => Stop
    case SystemEvent(t) =>
      if t == KVM_SYSTEM_EVENT_SHUTDOWN then Stop
      else if t == KVM_SYSTEM_EVENT_RESET || t == KVM_SYSTEM_EVENT_CRASH then Continue
      else Abort
    case FailEntry(_) => Abort
    case InternalError(_) => Abort
    case Other(_) => Abort
    case _ => Continue
  }

  /** The arm64 host departs from the yardstick only on HLT (fatal) and on unlisted system-event types (resumed). */
  lemma Arm64Deviations(vcpuId: int, e: Exit)
    ensures CategoryOf(HandleExitArm64(vcpuId, e)) != ReferenceCategory(e)
            <==> e.Hlt? || (e.SystemEvent? && e.eventType !in {KVM_SYSTEM_EVENT_SHUTDOWN, KVM_SYSTEM_EVENT_RESET, KVM_SYSTEM_EVENT_CRASH})
  {
  }

  /** The multi-core host resumes on SHUTDOWN and treats HLT and every system event as fatal. */
  lemma MultiDeviations(vcpuId: int, e: Exit)
    ensures CategoryOf(HandleExitMulti(vcpuId, e)) != ReferenceCategory(e)
            <==> e.Shutdown? || e.Hlt? || (e.SystemEvent? && e.eventType in {KVM_SYSTEM_EVENT_SHUTDOWN, KVM_SYSTEM_EVENT_RESET, KVM_SYSTEM_EVENT_CRASH})
  {
  }

  /** The single-vCPU x86 host returns cleanly where the yardstick is fatal, and on reset/crash events. */
  lemma BinDeviations(e: Exit)
    ensures CategoryOf(HandleExitBin(e)) != ReferenceCategory(e)
            <==> e.FailEntry? || e.InternalError? || e.Other? || (e.SystemEvent? && e.eventType != KVM_SYSTEM_EVENT_SHUTDOWN)
  {
  }

  /** The struct host is strict: everything but HLT and the COM1 byte write is fatal. */
  lemma StructDeviations(e: Exit)
    ensures CategoryOf(HandleExitStruct(e)) != ReferenceCategory(e)
            <==> e.Unknown? || e.Debug? || e.Mmio? || e.Intr? || e.Shutdown? || (e.Io? && !IsConsoleWrite(e))
                 || (e.SystemEvent? && e.eventType in {KVM_SYSTEM_EVENT_SHUTDOWN, KVM_SYSTEM_EVENT_RESET, KVM_SYSTEM_EVENT_CRASH})
  {
  }

  /** KVM_EXIT_SHUTDOWN gets three different treatments across the four hosts. */
  lemma ShutdownTreatments(vcpuId: int)
    ensures HandleExitArm64(vcpuId, Shutdown) == Leave && HandleExitBin(Shutdown) == Leave
    ensures HandleExitMulti(vcpuId, Shutdown) == Resume([], Silent)
    ensures HandleExitStruct(Shutdown) == Die(1, BadReason(KVM_EXIT_SHUTDOWN))
  {
  }
}
