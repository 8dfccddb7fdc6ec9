# kvm_learn host programs, modelled in Dafny

The repository holds four small KVM hosts and one guest:

- the arm64 host `arm64/kvm_code_bin` runs one vCPU thread. Its guest is `qemu_arm64.c`, which prints a string through the PL011 data register at 0x09000000.
- the four-vCPU x86 host `kvm_code_bin_multi`.
- the single-vCPU x86 host `kvm_code_bin`.
- `kvm_code_struct` is a straight-line host that runs a twelve-byte real-mode program. The program writes `2 + 7 + '0'` and a newline to port 0x3f8.

Every call a host makes into the kernel or the C library is modelled as a reply taken from an oracle value. This covers open, ioctl, mmap, read, malloc and pthread_create. The model then states what each program does with every possible reply: which branch it takes, what it stores, what it prints and how the process ends.

The modules follow the programs:

- `KvmAbi` holds the constants and exit payloads of the KVM interface.
- `ExitDispatch` holds the four exit switches. It also holds `ReferenceCategory`, a yardstick the switches are compared with: HLT, SHUTDOWN and the shutdown system event stop the vCPU cleanly; entry failures, internal errors, unlisted reasons and unknown event types are fatal; everything else resumes. No host follows it exactly. One Deviations lemma per host gives the exact set of exits on which that host's switch departs from it.
- `VcpuLoop` holds the KVM_RUN loop.
- `GuestLayout` holds the memory regions.
- `VcpuRegisters` holds the register resets and the arm64 core-register id.
- `ImageLoader` holds `load_binary`.
- `UartGuest` holds the guest.
- `StructHost` holds `kvm_code_struct`, together with a decoder for its guest program.
- `VcpuThreads` holds the vCPU records and threads.
- `HostSpec` holds the whole-program functions of the threaded hosts.
- `HostLifecycle` holds `struct kvm` as a class, the vCPU array as a Dafny array, and the three `main`s. These are proved against `HostSpec`.

Undefined behaviour the C code can reach is a distinct outcome (`Undefined`), not a guess at what the machine would do. This covers:

- an image larger than RAM;
- a NULL vCPU array that is dereferenced;
- `kvm_code_bin` indexing past its single record, or joining a handle it never stored;
- `kvm_code_struct` testing `mmap` against NULL instead of MAP_FAILED. A failed mmap passes the test, and the program goes on to use the address. A NULL result fails the test and ends the process with err(1).

## Model

| member | source | states |
|---|---|---|
| KvmAbi.ReasonCode | arm64/kvm_code_bin/kvm_code_bin.c:84-151 | the exit-reason number of an exit: its own number for an unlisted reason, a listed number otherwise |
| KvmAbi.ReasonCodeDeterminesKind | arm64/kvm_code_bin/kvm_code_bin.c:84-151 | two exits with the same reason number select the same branch of the payload union |
| KvmAbi.Int32At | kvm_code_bin_multi/kvm_code_bin_multi.c:103-108 | reading `*(int *)` at io.data_offset gives a value in the int range that is congruent mod 2^32 to the four little-endian data bytes |
| KvmAbi.LeBytes32 | arm64/kvm_code_bin/qemu_arm64.c:7 | the four little-endian bytes of a 32-bit store sum back to the stored value, with the character in the first byte |
| ExitDispatch.FatalCause | arm64/kvm_code_bin/kvm_code_bin.c:134-150 | the errx message of each fatal branch: the entry-failure code, the internal suberror, or the unlisted reason |
| ExitDispatch.HandleExitArm64 | arm64/kvm_code_bin/kvm_code_bin.c:84-151 | which exits resume and which leave: SHUTDOWN and the shutdown system event leave, RESET, CRASH and other event types resume, and all else exits with status 1. An MMIO write echoes only its first data byte, and a port exit prints port, data and cpuid |
| ExitDispatch.HandleExitMulti | kvm_code_bin_multi/kvm_code_bin_multi.c:96-137 | the four-vCPU switch never leaves: SHUTDOWN resumes, HLT and every system event exit with status 1, and no console bytes are emitted |
| ExitDispatch.HandleExitBin | kvm_code_bin/kvm_code_bin.c:94-122 | the single-vCPU switch never dies: the five listed exits resume, and SHUTDOWN and every other reason take the clean return |
| ExitDispatch.HandleExitStruct | kvm_code_struct/kvm_code_struct.c:157-184 | resumes exactly on a one-byte OUT of one item to 0x3f8, echoing that byte; leaves exactly on HLT; every other port access is "unhandled KVM_EXIT_IO", and everything else is a fatal errx |
| ExitDispatch.Arm64Deviations | arm64/kvm_code_bin/kvm_code_bin.c:84-151 | the arm64 switch differs from the table exactly on HLT and on unknown system-event types |
| ExitDispatch.MultiDeviations | kvm_code_bin_multi/kvm_code_bin_multi.c:96-137 | the four-vCPU switch differs exactly on SHUTDOWN, HLT and the three known system events |
| ExitDispatch.BinDeviations | kvm_code_bin/kvm_code_bin.c:94-122 | the single-vCPU switch differs exactly on the fatal reasons, which it treats as a clean return, and on non-shutdown system events |
| ExitDispatch.StructDeviations | kvm_code_struct/kvm_code_struct.c:157-184 | the struct switch differs exactly on UNKNOWN, DEBUG, MMIO, INTR, SHUTDOWN, other port accesses and the known system events |
| ExitDispatch.ShutdownTreatments | kvm_code_bin_multi/kvm_code_bin_multi.c:117-119 | KVM_EXIT_SHUTDOWN returns in arm64 and bin, resumes in multi, and is fatal in struct |
| VcpuLoop.Run | arm64/kvm_code_bin/kvm_code_bin.c:74-152 | the loop makes at most one KVM_RUN per reply, consumes every reply while still running, and makes at least one run when it stops |
| VcpuLoop.ResumeAt | arm64/kvm_code_bin/kvm_code_bin.c:74-152 | one resuming iteration at position i appends its console bytes and moves on to reply i+1 |
| VcpuLoop.StopAt | arm64/kvm_code_bin/kvm_code_bin.c:74-152 | a non-resuming iteration at position i ends the loop after i+1 runs with that action's end |
| VcpuLoop.RunVcpu | arm64/kvm_code_bin/kvm_code_bin.c:74-152 | the while(1) loop computes exactly the result of Run |
| VcpuLoop.RunStopsAtFirstNonResume | arm64/kvm_code_bin/kvm_code_bin.c:74-152 | the loop stops at the first reply that does not resume, after k+1 runs, with the output of the replies before it |
| VcpuLoop.RunAllResume | arm64/kvm_code_bin/kvm_code_bin.c:74-152 | when every reply resumes, the vCPU is still running and everything was emitted |
| VcpuLoop.RunFailureIsFatal | kvm_code_bin/kvm_code_bin.c:87-92 | a failed KVM_RUN ends the process with status 1, whatever the run block holds |
| VcpuLoop.MultiNeverReturns | kvm_code_bin_multi/kvm_code_bin_multi.c:86-139 | the four-vCPU loop never returns cleanly |
| VcpuLoop.BinDiesOnlyOnRunFailure | kvm_code_bin/kvm_code_bin.c:84-126 | in the single-vCPU host, a failed KVM_RUN is the only fatal path |
| VcpuLoop.X86ThreadsEmitNothing | kvm_code_bin_multi/kvm_code_bin_multi.c:96-137 | the x86 thread hosts write no console bytes |
| VcpuLoop.FatalStatusIsOne | arm64/kvm_code_bin/kvm_code_bin.c:77-151 | every fatal way out of the loop uses exit status 1 |
| GuestLayout.RegionOf | arm64/kvm_code_bin/kvm_code_bin.c:222-255 | the found region contains the address, and None means that no region does |
| GuestLayout.RegionIsUnique | arm64/kvm_code_bin/kvm_code_bin.c:222-255 | in a well-formed layout, the region containing an address is the one found |
| GuestLayout.Arm64LayoutWellFormed | arm64/kvm_code_bin/kvm_code_bin.c:222-255 | RAM is slot 0 at 0, of size 0x100000; the read-only MMIO page at 0x09000000 is slot 1; the slots are disjoint and page-granular |
| GuestLayout.Arm64MmioWritesTrap | arm64/kvm_code_bin/kvm_code_bin.c:234-255 | every write into the MMIO window traps, whatever flags slot 0 has |
| GuestLayout.Arm64RamWritesDependOnStaleFlags | arm64/kvm_code_bin/kvm_code_bin.c:222-232 | RAM writes trap exactly when the unassigned mem[0].flags holds the read-only bit |
| GuestLayout.X86LayoutsWellFormed | kvm_code_bin/kvm_code_bin.c:188-205 | the single RAM region of both x86 hosts is well formed; 512000000 bytes is a whole number of pages |
| GuestLayout.StructLayoutWellFormed | kvm_code_struct/kvm_code_struct.c:79-93 | one writable page at 0x1000, and guest addresses there are not trapped |
| VcpuRegisters.X86ResetSegments | kvm_code_bin_multi/kvm_code_bin_multi.c:46-70 | cs, ss, ds, es and fs get selector 0x1000 and base 0x10000. gs gets only the selector, so it is consistent only if KVM's gs base already was 0x10000. Limits, attributes and other fields stay KVM's |
| VcpuRegisters.X86ResetRegisters | kvm_code_bin_multi/kvm_code_bin_multi.c:71-79 | rflags is 2, rip 0, rsp 0xffffffff and rbp 0; the other twelve registers keep what the record held |
| VcpuRegisters.X86ResetEntryAddress | kvm_code_bin/kvm_code_bin.c:44-78 | the first x86 instruction is fetched at cs.base + rip = 0x10000 |
| VcpuRegisters.StructRegisterSetup | kvm_code_struct/kvm_code_struct.c:126-147 | execution starts at linear 0x1000 with al = 2, bl = 7 and rflags = 2; every other register is zero, and only cs differs from KVM's sregs |
| VcpuRegisters.CoreRegIdRoundTrip | arm64/kvm_code_bin/kvm_code_bin.c:55-67 | a core-register id is an arm64, 64-bit, CORE-group id whose index gives back the offset |
| VcpuRegisters.PcRegId | arm64/kvm_code_bin/kvm_code_bin.c:55-67 | the PC id passed to KVM_SET_ONE_REG is 0x6030000000100040 |
| ImageLoader.LoadFromFits | arm64/kvm_code_bin/kvm_code_bin.c:158-177 | from offset p the image is stored in full exactly when it fits; otherwise the loop stops at a chunk boundary inside RAM, before the image's end |
| ImageLoader.LoadedIffFits | kvm_code_bin/kvm_code_bin.c:130-149 | only a failed open stops the loader; the image loads exactly when it fits, and otherwise it is written past RAM |
| ImageLoader.ImageChunkBound | kvm_code_bin_multi/kvm_code_bin_multi.c:144-163 | the image is at most 4096 bytes per read |
| ImageLoader.StoreChunk | arm64/kvm_code_bin/kvm_code_bin.c:167-176 | one read stores its chunk at the write pointer and leaves the rest of RAM alone |
| ImageLoader.LoadBinary | arm64/kvm_code_bin/kvm_code_bin.c:158-177 | the result is Load. When the image loads, RAM holds it from 0 with the rest unchanged; on an overrun, the chunks before the overrunning one are in place |
| UartGuest.CString | arm64/kvm_code_bin/qemu_arm64.c:5-10 | the C string is a prefix of the bytes, followed by a NUL and containing none |
| UartGuest.CStringAt | arm64/kvm_code_bin/qemu_arm64.c:5-10 | a first NUL at n makes the first n bytes the C string |
| UartGuest.PrintUart0 | arm64/kvm_code_bin/qemu_arm64.c:5-10 | one store to UART0DR per character before the NUL, in order, holding that character |
| UartGuest.GuestMain | arm64/kvm_code_bin/qemu_arm64.c:12-14 | main makes 17 stores to UART0DR, one for each character of "Hello what's up!\n" |
| UartGuest.UartStoresTrap | arm64/kvm_code_bin/qemu_arm64.c:3 | UART0DR is the host's MMIO_START, and stores there trap |
| UartGuest.StoreEchoes | arm64/kvm_code_bin/kvm_code_bin.c:99-112 | the arm64 switch echoes exactly the stored character and resumes |
| UartGuest.EchoesCString | arm64/kvm_code_bin/kvm_code_bin.c:74-152 | when each KVM_RUN reports the next store, the host console prints the guest's C string, and the vCPU is still running |
| UartGuest.HelloEchoes | arm64/kvm_code_bin/qemu_arm64.c:12-14 | the host prints "Hello what's up!\n" after 17 MMIO exits |
| StructHost.ReachesRunOnlyWhenChecked | kvm_code_struct/kvm_code_struct.c:63-148 | KVM_RUN is reached only after every set-up check passed: the open, the API version (12), the VM, a non-NULL guest page, the region, the vCPU, the run-block size (at least sizeof(kvm_run)), a non-NULL run block, and the three register ioctls. The run block is mapped with the size KVM reported, one writable page is at 0x1000, and cs:rip points at it |
| StructHost.StructMain | kvm_code_struct/kvm_code_struct.c:42-186 | main's outcome is StructMainSpec. That is the first check that fails (NULL mmap results included), undefined behaviour after a MAP_FAILED that the NULL tests miss, or the loop. The guest page holds the program followed by zeros |
| StructHost.FixtureExits | kvm_code_struct/kvm_code_struct.c:49-57 | from the registers main sets, the program writes '9' and '\n' to 0x3f8 and halts |
| StructHost.FixturePrintsNine | kvm_code_struct/kvm_code_struct.c:150-185 | when each KVM_RUN reports the program's next exit (for a port write, only the byte at data_offset counts), main prints "9\n" and returns after three runs |
| VcpuThreads.InitSlotReady | arm64/kvm_code_bin/kvm_code_bin.c:268-308 | kvm_init_vcpu records the id and fd. The record is ready exactly when all three calls succeed; registers and the handle are untouched |
| VcpuThreads.Arm64ExitZeroIsResetFailure | arm64/kvm_code_bin/kvm_code_bin.c:55-67 | an arm64 thread exits with status 0 exactly when setting the PC failed |
| VcpuThreads.MultiThreadNeverReturns | kvm_code_bin_multi/kvm_code_bin_multi.c:82-140 | a four-vCPU thread never returns |
| VcpuThreads.Combine | arm64/kvm_code_bin/kvm_code_bin.c:339-353 | the threads' ends decide either an exit or a blocked main |
| VcpuThreads.CombineNoneIffAllReturned | arm64/kvm_code_bin/kvm_code_bin.c:348-352 | main goes on past the joins exactly when every thread returned |
| VcpuThreads.CombineFirstDied | arm64/kvm_code_bin/kvm_code_bin.c:339-353 | the first thread in index order that exits decides the exit status |
| VcpuThreads.CombineNoDeath | arm64/kvm_code_bin/kvm_code_bin.c:348-352 | with no exit, main blocks exactly when some thread is still running |
| VcpuThreads.RunVmSpec | kvm_code_bin_multi/kvm_code_bin_multi.c:288-302 | kvm_run_vm ends the process, blocks, or lets main go on; a failed create exits with status 1 |
| VcpuThreads.MultiRunVmNeverFinishes | kvm_code_bin_multi/kvm_code_bin_multi.c:288-302 | the four-vCPU kvm_run_vm never lets main reach its clean-up |
| HostSpec.CreateVmSucceedsWithLayout | arm64/kvm_code_bin/kvm_code_bin.c:202-258 | kvm_create_vm succeeds exactly when each of its calls does, and then the host's whole well-formed layout is registered. On failure, at most the RAM slot is registered |
| HostSpec.Arm64StartsAtImage | arm64/kvm_code_bin/kvm_code_bin.c:55-67 | the program counter that KVM_SET_ONE_REG writes (id 0x6030000000100040, value PC_ENTRY_ADDR) is the guest address that slot 0 maps to RAM offset 0, where load_binary put the first byte of the image |
| HostSpec.VcpuArrayReady | kvm_code_bin_multi/kvm_code_bin_multi.c:260-275 | kvm_create_vpcus returns records exactly when malloc and every init succeed. Record k is then vCPU k, with its fd, run block and thread function |
| HostSpec.BinRunVmIsSingleVcpuRunVm | kvm_code_bin/kvm_code_bin.c:253-264 | with one record for vCPU 0, the bin kvm_run_vm equals the per-record one; any other count is undefined behaviour or a create failure |
| HostSpec.MainReturnsMinusOneIff | kvm_code_bin_multi/kvm_code_bin_multi.c:304-330 | main returns -1 exactly when /dev/kvm or kvm_create_vm fails, and it returns only -1 or 0 |
| HostSpec.MainReturnsZeroIff | arm64/kvm_code_bin/kvm_code_bin.c:355-381 | the arm64 and bin mains return 0 exactly when every step succeeds and the thread returns |
| HostSpec.MultiMainNeverReturnsZero | kvm_code_bin_multi/kvm_code_bin_multi.c:304-330 | the four-vCPU main never returns 0 |
| HostSpec.Arm64ExitZeroIsResetFailure | arm64/kvm_code_bin/kvm_code_bin.c:55-67 | an arm64 process exit with status 0 means setting the PC failed |
| HostSpec.VersionIgnored | arm64/kvm_code_bin/kvm_code_bin.c:180-192 | the reported API version never changes how main ends |
| HostLifecycle.Kvm.constructor | arm64/kvm_code_bin/kvm_code_bin.c:180-192 | the struct after kvm_init holds the fd and the version, and no VM |
| HostLifecycle.Kvm.CreateVm | arm64/kvm_code_bin/kvm_code_bin.c:202-258 | returns CreateVmRet, appends the accepted regions and allocates zeroed RAM of the host's size |
| HostLifecycle.Kvm.RunVm | arm64/kvm_code_bin/kvm_code_bin.c:339-353 | the result is RunVmSpec, or undefined behaviour for a NULL array; records keep their identity; when main goes on, every thread was joined in order and record k holds handle k and its reset registers |
| HostLifecycle.Kvm.RunVmBin | kvm_code_bin/kvm_code_bin.c:253-264 | the result is BinRunVmSpec; when main goes on, the single record was joined and holds its handle and reset registers |
| HostLifecycle.Kvm.CleanVcpus | arm64/kvm_code_bin/kvm_code_bin.c:329-336 | releases records 0..n-1 in order, then frees the array |
| HostLifecycle.Kvm.CleanVcpu | kvm_code_bin/kvm_code_bin.c:247-250 | releases the single record |
| HostLifecycle.Kvm.CleanVm | arm64/kvm_code_bin/kvm_code_bin.c:261-265 | releases the VM fd and the memory |
| HostLifecycle.Kvm.Clean | arm64/kvm_code_bin/kvm_code_bin.c:195-199 | releases /dev/kvm and the struct |
| HostLifecycle.RunRecords | kvm_code_bin_multi/kvm_code_bin_multi.c:288-302 | kvm_run_vm over a non-NULL array computes RunVmSpec; when main goes on, every thread was joined in order and record k holds handle k and its reset registers |
| HostLifecycle.JoinThreads | kvm_code_bin_multi/kvm_code_bin_multi.c:298-301 | the join loop blocks exactly when some thread is still running, and otherwise joins every thread in index order |
| HostLifecycle.ResetKeeps | kvm_code_bin_multi/kvm_code_bin_multi.c:46-80 | kvm_reset_vcpu changes only the register blocks of a record, never its id, fd, run block, thread function or handle |
| HostLifecycle.StartThreads | arm64/kvm_code_bin/kvm_code_bin.c:341-347 | succeeds exactly when every create succeeds, storing handle k in record k |
| HostLifecycle.RunThreads | arm64/kvm_code_bin/kvm_code_bin.c:70-154 | the first dying thread decides Combine; otherwise all ends are ThreadEnds and every record is reset |
| HostLifecycle.KvmInit | arm64/kvm_code_bin/kvm_code_bin.c:180-192 | returns NULL exactly when /dev/kvm does not open; the version is stored unchecked |
| HostLifecycle.InitVcpu | arm64/kvm_code_bin/kvm_code_bin.c:268-308 | record i becomes InitSlot and nothing else changes; returns 0 exactly when all three calls succeed, else -1 |
| HostLifecycle.CreateVcpus | arm64/kvm_code_bin/kvm_code_bin.c:311-326 | the array is VcpuArraySpec: NULL when malloc or any init fails |
| HostLifecycle.InitVcpuBin | kvm_code_bin/kvm_code_bin.c:216-244 | the record is BinVcpuSpec: NULL when an init call fails |
| HostLifecycle.CpuThread | kvm_code_bin_multi/kvm_code_bin_multi.c:46-140 | the thread's result is ThreadRun, and only record i changes, to its reset registers |
| HostLifecycle.ThreadedMain | arm64/kvm_code_bin/kvm_code_bin.c:355-381 | the end is MainSpec; on return 0 the records, the array, the VM and the device were released, in that order |
| HostLifecycle.MainVcpus | kvm_code_bin_multi/kvm_code_bin_multi.c:319-329 | the part of main after the image loads ends as MainSpec does from there: NULL records are undefined behaviour, otherwise RunVmSpec decides. On return 0 the records, the array, the VM and the device were released, in that order |
| HostLifecycle.BinMain | kvm_code_bin/kvm_code_bin.c:266-292 | the end is MainSpec; on return 0 the VM, then the record, then the device were released |

## Left out

- Every system call and C-library call is a reply from an oracle. This covers open, ioctl, mmap, read, malloc and pthread_create. The kernel's own behaviour is not modelled.
- printf, fprintf, perror and sleep are left out. Only console bytes and the `Note` of a port exit are kept, with their values.
- Threads run one after another in index order, not concurrently. All creates happen before any thread runs, and interleaved console output is not modelled.
- A guest CPU is modelled only as a list of exits. The exception is the decoder for `kvm_code_struct`'s own twelve-byte program.
- The MMIO data of reads, and the results of KVM_ARM_PREFERRED_TARGET and KVM_ARM_VCPU_INIT, are left out: the program never looks at them.
- Memory leaks, munmap and close are recorded only as the order of the `Release` log.
- malloc in kvm_init and in kvm_code_bin's kvm_init_vcpu is taken to succeed, because the program does not check it.
- HostSpec.BinRunVmSpec: with a vcpu_number of 2 or more, it stops at the out-of-bounds read of `vcpus[1]` and does not model what follows.
- HostLifecycle.Kvm.constructor: vm_fd starts at -1 where the C struct leaves it uninitialised. It is assigned before any read.
- Integer widths: ioctl results are unbounded integers. The model writes out the `int` to `size_t` conversion of the mmap size in `kvm_code_struct`, and the 32-bit `*(int *)` read of port data.
