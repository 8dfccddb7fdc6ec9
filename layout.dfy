/**
 * Guest memory layout: the kvm_userspace_memory_region descriptors each host
 * registers with KVM_SET_USER_MEMORY_REGION, and what a guest access to a
 * guest-physical address meets there.
 */
module GuestLayout {
  import opened KvmAbi

  const PAGE_SIZE: nat := 0x1000

  // arm64/kvm_code_bin
  const ARM64_RAM_SIZE: nat := 0x100000
  const ARM64_MMIO_SIZE: nat := 0x1000
  const ARM64_MMIO_START: nat := 0x0900_0000
  const ARM64_PC_ENTRY_ADDR: nat := 0

  // kvm_code_bin_multi and kvm_code_bin
  const MULTI_RAM_SIZE: nat := 0x100000
  const BIN_RAM_SIZE: nat := 512000000

  // kvm_code_struct: one page at the second page frame
  const STRUCT_MEM_SIZE: nat := 0x1000
  const STRUCT_GUEST_BASE: nat := 0x1000

  /** kvm_userspace_memory_region. */
  datatype Region = Region(slot: nat, guestPhysAddr: nat, memorySize: nat, userspaceAddr: nat, flags: nat)

  predicate Contains(r: Region, gpa: nat) {
    r.guestPhysAddr <= gpa < r.guestPhysAddr + r.memorySize
  }

  predicate ReadOnly(r: Region) {
    (r.flags / KVM_MEM_READONLY) % 2 == 1
  }

  predicate PageGranular(r: Region) {
    r.guestPhysAddr % PAGE_SIZE == 0 && r.memorySize % PAGE_SIZE == 0
  }

  predicate Disjoint(r1: Region, r2: Region) {
    r1.guestPhysAddr + r1.memorySize <= r2.guestPhysAddr || r2.guestPhysAddr + r2.memorySize <= r1.guestPhysAddr
  }

  /** What a usable set of memory slots satisfies: unique slot numbers, no overlap, page-granular, non-empty. */
  predicate WellFormed(layout: seq<Region>) {
    && (forall i :: 0 <= i < |layout| ==> PageGranular(layout[i]) && layout[i].memorySize > 0)
    && (forall i, j :: 0 <= i < j < |layout| ==> layout[i].slot != layout[j].slot && Disjoint(layout[i], layout[j]))
  }

  /**
   * The two regions of the arm64 host: RAM in slot 0 at guest address 0, and
   * the read-only MMIO window in slot 1. mem[0].flags is never assigned on
   * the malloc'd struct, so slot 0 keeps whatever flags value was there.
   */
  function Arm64Layout(ramStart: nat, mmioStart: nat, staleFlags: nat): seq<Region> {
    [Region(0, ARM64_PC_ENTRY_ADDR, ARM64_RAM_SIZE, ramStart, staleFlags),
     Region(1, ARM64_MMIO_START, ARM64_MMIO_SIZE, mmioStart, KVM_MEM_READONLY)]
  }

  /** The single RAM region of the x86 thread hosts; its flags are never assigned either. */
  function X86Layout(ramSize: nat, ramStart: nat, staleFlags: nat): seq<Region> {
    [Region(0, 0, ramSize, ramStart, staleFlags)]
  }

  /** The region of kvm_code_struct (a designated initializer, so flags are zero). */
  function StructLayout(memAddr: nat): seq<Region> {
    [Region(0, STRUCT_GUEST_BASE, STRUCT_MEM_SIZE, memAddr, 0)]
  }

  /** The index of the region that backs a guest-physical address, if any. */
  function RegionOf(layout: seq<Region>, gpa: nat): (k: Option<nat>)
    ensures k.Some? ==> k.value < |layout| && Contains(layout[k.value], gpa)
    ensures k.None? ==> forall i :: 0 <= i < |layout| ==> !Contains(layout[i], gpa)
    decreases |layout|
  {
    if |layout| == 0 then None
    else if Contains(layout[0], gpa) then Some(0)
    else match RegionOf(layout[1..], gpa)
      case None => None
      case Some(k) => Some(k + 1)
  }

  /**
   * A guest write to gpa leaves the guest and reaches the host as an MMIO exit
   * when no region backs gpa or the region that backs it is read-only.
   */
  predicate WriteTraps(layout: seq<Region>, gpa: nat) {
    match RegionOf(layout, gpa)
    case None => true
    case Some(k) => ReadOnly(layout[k])
  }

  /** In a well-formed layout at most one region backs any address. */
  lemma {:induction false} RegionIsUnique(layout: seq<Region>, gpa: nat, i: nat)
    requires WellFormed(layout)
    requires i < |layout| && Contains(layout[i], gpa)
    ensures RegionOf(layout, gpa) == Some(i)
  {
    if i > 0 {
      assert Disjoint(layout[0], layout[i]);
      assert WellFormed(layout[1..]) by {
        forall p, q | 0 <= p < q < |layout[1..]|
          ensures layout[1..][p].slot != layout[1..][q].slot && Disjoint(layout[1..][p], layout[1..][q])
        {
          assert layout[1..][p] == layout[p + 1] && layout[1..][q] == layout[q + 1];
        }
      }
      RegionIsUnique(layout[1..], gpa, i - 1);
    }
  }

  /** Slot 0 is RAM at 0 of size 0x100000, slot 1 the read-only page at 0x09000000; the layout is well formed. */
  lemma Arm64LayoutWellFormed(ramStart: nat, mmioStart: nat, staleFlags: nat)
    ensures var l := Arm64Layout(ramStart, mmioStart, staleFlags);
            WellFormed(l) && |l| == 2
            && l[0].slot == 0 && l[0].guestPhysAddr == 0 && l[0].memorySize == 0x100000 && l[0].userspaceAddr == ramStart
            && l[1].slot == 1 && l[1].guestPhysAddr == 0x0900_0000 && l[1].memorySize == 0x1000
            && l[1].userspaceAddr == mmioStart && ReadOnly(l[1])
  {
  }

  /**
   * Whatever stale flags slot 0 carries, every guest write to the MMIO window
   * traps, so the guest's UART stores reach the host.
   */
  lemma Arm64MmioWritesTrap(ramStart: nat, mmioStart: nat, staleFlags: nat, gpa: nat)
    requires ARM64_MMIO_START <= gpa < ARM64_MMIO_START + ARM64_MMIO_SIZE
    ensures WriteTraps(Arm64Layout(ramStart, mmioStart, staleFlags), gpa)
  {
    Arm64LayoutWellFormed(ramStart, mmioStart, staleFlags);
    RegionIsUnique(Arm64Layout(ramStart, mmioStart, staleFlags), gpa, 1);
  }

  /** Writes to arm64 RAM trap exactly when the never-assigned slot-0 flags happen to carry the read-only bit. */
  lemma Arm64RamWritesDependOnStaleFlags(ramStart: nat, mmioStart: nat, staleFlags: nat, gpa: nat)
    requires gpa < ARM64_RAM_SIZE
    ensures WriteTraps(Arm64Layout(ramStart, mmioStart, staleFlags), gpa) <==> (staleFlags / KVM_MEM_READONLY) % 2 == 1
  {
    Arm64LayoutWellFormed(ramStart, mmioStart, staleFlags);
    RegionIsUnique(Arm64Layout(ramStart, mmioStart, staleFlags), gpa, 0);
  }

  /** The x86 hosts register one page-granular region, slot 0 at guest address 0, for both of their RAM sizes. */
  lemma X86LayoutsWellFormed(ramStart: nat, staleFlags: nat)
    ensures WellFormed(X86Layout(MULTI_RAM_SIZE, ramStart, staleFlags))
    ensures WellFormed(X86Layout(BIN_RAM_SIZE, ramStart, staleFlags))
    ensures BIN_RAM_SIZE == 125000 * PAGE_SIZE
  {
  }

  /** kvm_code_struct maps one writable page at guest address 0x1000, so guest address a is byte a - 0x1000 of it. */
  lemma StructLayoutWellFormed(memAddr: nat, gpa: nat)
    requires STRUCT_GUEST_BASE <= gpa < STRUCT_GUEST_BASE + STRUCT_MEM_SIZE
    ensures WellFormed(StructLayout(memAddr))
    ensures RegionOf(StructLayout(memAddr), gpa) == Some(0) && !WriteTraps(StructLayout(memAddr), gpa)
  {
  }
}
