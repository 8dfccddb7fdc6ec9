/**
 * The arm64 guest (qemu_arm64.c): print_uart0 walks a NUL-terminated string
 * and stores each character, widened to 32 bits, into the PL011 data
 * register at 0x09000000. Each store lands in the host's read-only MMIO slot
 * and comes back to the host as an MMIO write exit; composed with the arm64
 * exit switch, the string the guest prints is the console output.
 */
module UartGuest {
  import opened KvmAbi
  import opened ExitDispatch
  import opened VcpuLoop
  import opened GuestLayout

  /** UART0DR, the data register of the first PL011 on QEMU's virt board. */
  const UART0DR: nat := 0x0900_0000

  /** One 32-bit store of the guest: the address and the value written. */
  datatype Store = Store(addr: nat, value: nat)

  /** A C string: the bytes before the first NUL; the NUL itself must be there. */
  predicate NulTerminated(s: seq<byte>) {
    0 in s
  }

  /** The characters of the C string s, up to (not including) its first NUL. */
  function CString(s: seq<byte>): (c: seq<byte>)
    requires NulTerminated(s)
    ensures |c| < |s| && c == s[..|c|] && s[|c|] == 0 && 0 !in c
    decreases |s|
  {
    if s[0] == 0 then [] else [s[0]] + CString(s[1..])
  }

  /** A string whose first NUL is at n has the first n bytes as its C string. */
  lemma CStringAt(s: seq<byte>, n: nat)
    requires n < |s| && s[n] == 0
    requires forall k :: 0 <= k < n ==> s[k] != 0
    ensures CString(s) == s[..n]
  {
  }

  /**
   * print_uart0: one store to UART0DR per character before the first NUL, in
   * string order, each of the character's value (char is unsigned on AArch64,
   * so the widening cast keeps it as is); the NUL is not stored.
   */
  method PrintUart0(s: seq<byte>) returns (stores: seq<Store>)
    requires NulTerminated(s)
    ensures |stores| == |CString(s)|
    ensures forall k :: 0 <= k < |stores| ==> stores[k] == Store(UART0DR, s[k] as nat)
  {
    stores := [];
    var i := 0;
    while s[i] != 0
      invariant 0 <= i <= |CString(s)|
      invariant |stores| == i
      invariant forall k :: 0 <= k < i ==> stores[k] == Store(UART0DR, s[k] as nat)
      decreases |CString(s)| - i
    {
      stores := stores + [Store(UART0DR, s[i] as nat)];
      i := i + 1;
    }
  }

  /** The string main passes: "Hello what's up!\n" and its terminating NUL. */
  const HELLO: seq<byte> := [72, 101, 108, 108, 111, 32, 119, 104, 97, 116, 39, 115, 32, 117, 112, 33, 10, 0]

  /** main: the guest prints HELLO, which takes seventeen stores, all to UART0DR. */
  method GuestMain() returns (stores: seq<Store>)
    ensures |stores| == 17
    ensures forall k :: 0 <= k < 17 ==> stores[k] == Store(UART0DR, HELLO[k] as nat)
  {
    CStringAt(HELLO, 17);
    stores := PrintUart0(HELLO);
  }

  /**
   * The exit KVM reports for a guest store that traps: an MMIO write of four
   * bytes at the store's address whose data holds the value little-endian
   * (the remaining four bytes of the data array are whatever KVM left there).
   */
  predicate ReportsStore(e: Exit, st: Store) {
    && st.value < U32_LIMIT
    && e.Mmio? && e.physAddr == st.addr && e.isWrite && e.len == 4
    && e.mmioData[..4] == LeBytes32(st.value)
  }

  /**
   * Every store of print_uart0 hits the arm64 host's read-only MMIO slot, so
   * it leaves the guest as an exit, whatever flags slot 0 was left with.
   */
  lemma UartStoresTrap(ramStart: nat, mmioStart: nat, staleFlags: nat)
    ensures UART0DR == ARM64_MMIO_START
    ensures WriteTraps(Arm64Layout(ramStart, mmioStart, staleFlags), UART0DR)
  {
    Arm64MmioWritesTrap(ramStart, mmioStart, staleFlags, UART0DR);
  }

  /** The arm64 switch emits exactly the character of each reported store and resumes. */
  lemma StoreEchoes(vcpuId: int, e: Exit, c: byte)
    requires ReportsStore(e, Store(UART0DR, c as nat))
    ensures HandleExitArm64(vcpuId, e) == Resume([c], Silent)
  {
    assert e.mmioData[0] == e.mmioData[..4][0];
  }

  /**
   * String in, bytes out: when every KVM_RUN of the arm64 vCPU succeeds and
   * reports the next store of print_uart0(s), the host's console output is
   * the C string s, and the vCPU is still running when the stores are done.
   */
  lemma {:induction false} EchoesCString(vcpuId: int, s: seq<byte>, steps: seq<RunStep>)
    requires NulTerminated(s)
    requires |steps| == |CString(s)|
    requires forall k :: 0 <= k < |steps| ==>
               steps[k].ret >= 0 && ReportsStore(steps[k].exit, Store(UART0DR, s[k] as nat))
    ensures Run(Arm64Host, vcpuId, steps) == LoopResult(CString(s), Running, |steps|)
    decreases |steps|
  {
    if |steps| > 0 {
      StoreEchoes(vcpuId, steps[0].exit, s[0]);
      assert CString(s) == [s[0]] + CString(s[1..]);
      EchoesCString(vcpuId, s[1..], steps[1..]);
    }
  }

  /** For the guest's own string the host prints "Hello what's up!\n" after seventeen MMIO exits. */
  lemma HelloEchoes(vcpuId: int, steps: seq<RunStep>)
    requires |steps| == 17
    requires forall k :: 0 <= k < 17 ==>
               steps[k].ret >= 0 && ReportsStore(steps[k].exit, Store(UART0DR, HELLO[k] as nat))
    ensures Run(Arm64Host, vcpuId, steps) == LoopResult(HELLO[..17], Running, 17)
  {
    CStringAt(HELLO, 17);
    EchoesCString(vcpuId, HELLO, steps);
  }
}
