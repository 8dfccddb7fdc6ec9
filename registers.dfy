/**
 * vCPU register state and the reset values the hosts give it: the x86
 * segment and general-purpose registers (struct kvm_sregs, struct kvm_regs)
 * written by kvm_reset_vcpu and by kvm_code_struct's main, and the arm64
 * core-register id through which the arm64 host sets the program counter.
 */
module VcpuRegisters {
  import opened KvmAbi

  /** The segment selector the x86 thread hosts load into every data and code segment. */
  const CODE_START: nat := 0x1000

  /** One x86 segment register as kvm_sregs holds it; `attributes` stands for type, present, dpl, db, s, l, g and avl. */
  datatype Segment = Segment(base: nat, limit: nat, selector: nat, attributes: nat)

  /**
   * struct kvm_sregs: the six segment registers the hosts touch, the task and
   * LDT registers, and every remaining field (descriptor tables, control
   * registers, EFER, APIC base, interrupt bitmap) gathered in `system`.
   */
  datatype SRegs = SRegs(cs: Segment, ds: Segment, es: Segment, fs: Segment, gs: Segment, ss: Segment,
                         tr: Segment, ldt: Segment, system: seq<nat>)

  /** struct kvm_regs on x86-64. */
  datatype Regs = Regs(rax: nat, rbx: nat, rcx: nat, rdx: nat, rsi: nat, rdi: nat, rsp: nat, rbp: nat,
                       r8: nat, r9: nat, r10: nat, r11: nat, r12: nat, r13: nat, r14: nat, r15: nat,
                       rip: nat, rflags: nat)

  /** A register block with every field zero, as a C designated initializer leaves the fields it does not name. */
  const ZERO_REGS: Regs := Regs(0, 0, 0, 0, 0, 0, 0, 0, 0, 0, 0, 0, 0, 0, 0, 0, 0, 0)

  /** A segment whose base is the real-mode base of its selector (selector * 16). */
  predicate RealModeBase(s: Segment) {
    s.base == s.selector * 16
  }

  /** Load a selector and its real-mode base into a segment. */
  function Load(s: Segment, selector: nat): Segment {
    s.(selector := selector, base := selector * 16)
  }

  /**
   * The special registers after kvm_reset_vcpu of the two x86 thread hosts,
   * from the block KVM_GET_SREGS returned: cs, ss, ds, es and fs get selector
   * CODE_START and base CODE_START * 16; gs gets only the selector.
   */
  function X86ResetSRegs(s: SRegs): SRegs {
    s.(cs := Load(s.cs, CODE_START), ss := Load(s.ss, CODE_START), ds := Load(s.ds, CODE_START),
       es := Load(s.es, CODE_START), fs := Load(s.fs, CODE_START), gs := s.gs.(selector := CODE_START))
  }

  /**
   * The general registers after kvm_reset_vcpu of the x86 thread hosts. The
   * block is never read back from KVM, so every field but the four written
   * keeps whatever the vcpu structure held before.
   */
  function X86ResetRegs(r: Regs): Regs {
    r.(rflags := 2, rip := 0, rsp := 0xffff_ffff, rbp := 0)
  }

  /**
   * The five fully loaded segments are consistent real-mode segments at
   * 0x10000; gs is consistent only when the base KVM reported already was
   * 0x10000. Limits, attributes and all other fields are KVM's own.
   */
  lemma X86ResetSegments(s: SRegs)
    ensures var r := X86ResetSRegs(s);
            && (forall seg :: seg in [r.cs, r.ss, r.ds, r.es, r.fs] ==> RealModeBase(seg) && seg.base == 0x10000)
            && r.gs.selector == CODE_START && r.gs.base == s.gs.base
            && (RealModeBase(r.gs) <==> s.gs.base == 0x10000)
            && r.cs.limit == s.cs.limit && r.cs.attributes == s.cs.attributes
            && r.gs.limit == s.gs.limit && r.gs.attributes == s.gs.attributes
            && r.tr == s.tr && r.ldt == s.ldt && r.system == s.system
  {
  }

  /**
   * The reset general registers: rflags has only the reserved bit 1 set, the
   * instruction and base pointers are 0 and the stack pointer is 0xffffffff;
   * the twelve registers the reset does not name are left as they were.
   */
  lemma X86ResetRegisters(r: Regs)
    ensures var n := X86ResetRegs(r);
            && n.rflags == 2 && n.rip == 0 && n.rsp == U32_LIMIT - 1 && n.rbp == 0
            && n.(rflags := r.rflags, rip := r.rip, rsp := r.rsp, rbp := r.rbp) == r
  {
  }

  /** The first instruction of the x86 thread hosts is fetched at linear address cs.base + rip = 0x10000. */
  lemma X86ResetEntryAddress(s: SRegs, r: Regs)
    ensures X86ResetSRegs(s).cs.base + X86ResetRegs(r).rip == 0x10000
  {
  }

  /** kvm_code_struct zeroes cs only, on the block KVM_GET_SREGS returned. */
  function StructSRegs(s: SRegs): SRegs {
    s.(cs := s.cs.(base := 0, selector := 0))
  }

  /** kvm_code_struct's register block: a designated initializer naming rip, rax, rbx and rflags. */
  function StructRegs(): Regs {
    ZERO_REGS.(rip := 0x1000, rax := 2, rbx := 7, rflags := 2)
  }

  /**
   * kvm_code_struct starts at linear address 0x1000 with the two addends 2 and
   * 7 in al and bl, rflags bit 1 set, every other general register zero and
   * every special register but cs as KVM reported it.
   */
  lemma StructRegisterSetup(s: SRegs)
    ensures var sr := StructSRegs(s);
            var r := StructRegs();
            && sr.cs.base + r.rip == 0x1000 && sr.cs.selector == 0 && RealModeBase(sr.cs)
            && sr.(cs := s.cs) == s
            && r.rax == 2 && r.rbx == 7 && r.rflags == 2
            && r.(rip := 0, rax := 0, rbx := 0, rflags := 0) == ZERO_REGS
  {
  }

  // linux/kvm.h and asm/kvm.h register-id fields (arm64)
  const KVM_REG_ARM64: bv64 := 0x6000_0000_0000_0000
  const KVM_REG_SIZE_U64: bv64 := 0x0030_0000_0000_0000
  const KVM_REG_ARM_CORE: bv64 := 0x0010_0000   // 0x0010 << KVM_REG_ARM_COPROC_SHIFT
  const KVM_REG_ARCH_MASK: bv64 := 0xff00_0000_0000_0000
  const KVM_REG_SIZE_MASK: bv64 := 0x00f0_0000_0000_0000
  const KVM_REG_ARM_COPROC_MASK: bv64 := 0x0fff_0000

  /** offsetof(struct kvm_regs, regs.pc): user_pt_regs holds x0..x30 and sp, eight bytes each, before pc. */
  const PC_OFFSET: bv64 := 32 * 8

  /**
   * The id of the arm64 core register at byte offset `offset` of struct
   * kvm_regs, counted in 32-bit words, as kvm_reset_vcpu builds it.
   */
  function CoreRegId(offset: bv64): bv64
    requires offset & 3 == 0 && offset < 0x4_0000
  {
    KVM_REG_ARM64 | KVM_REG_SIZE_U64 | KVM_REG_ARM_CORE | (offset >> 2)
  }

  /** The index field of a core-register id read back as a byte offset. */
  function CoreRegOffset(id: bv64): bv64 {
    (id & 0xffff) << 2
  }

  /**
   * Every core-register id names an arm64 register of eight bytes in the
   * CORE group, and its index field gives back the byte offset it was built from.
   */
  lemma CoreRegIdRoundTrip(offset: bv64)
    requires offset & 3 == 0 && offset < 0x4_0000
    ensures CoreRegId(offset) & KVM_REG_ARCH_MASK == KVM_REG_ARM64
    ensures CoreRegId(offset) & KVM_REG_SIZE_MASK == KVM_REG_SIZE_U64
    ensures CoreRegId(offset) & KVM_REG_ARM_COPROC_MASK == KVM_REG_ARM_CORE
    ensures CoreRegOffset(CoreRegId(offset)) == offset
  {
  }

  /** The program-counter id kvm_reset_vcpu passes to KVM_SET_ONE_REG. */
  lemma PcRegId()
    ensures CoreRegId(PC_OFFSET) == 0x6030_0000_0010_0040
    ensures CoreRegOffset(CoreRegId(PC_OFFSET)) == PC_OFFSET
  {
    CoreRegIdRoundTrip(PC_OFFSET);
  }
}
