# Host-side WASI shim and call bridge of the astv web front end

The web front end runs the astv parser and lexer as a WebAssembly guest.
All of the host logic is in `web/main.js`. This project models the host
side of that file that actually decides something, over one guest linear
memory seen as bytes:

- **The WASI preview1 emulator** (`createWasi`). It has fourteen entries. Each
  answers with an errno (0, 8, 44 or 58). Several of them write fixed
  little-endian records into the guest memory: a u32, a "u64" whose high
  word is forced to zero, and the `fdstat`, `prestat` and `filestat`
  layouts. Until a memory has been resolved, every write is skipped.
  `fd_write` does not write anything out. It only adds up the length words
  of the ciovec array and reports the sum modulo 2^32.
- **Import synthesis** (`buildImports`). Every import the compiled module
  declares is bound, so instantiation never fails on an unresolved import:
  - a WASI function gets the emulator's entry, or a stub answering ENOTSUP
    when the name is unknown;
  - a function from any other namespace gets a stub answering 0;
  - a memory import gets a new 256-page memory, and the last one becomes
    the memory the emulator sees;
  - a table gets an empty funcref table;
  - anything else gets the number 0.
- **Instance checks and startup** (`initAstvWasm`, `initializeRuntime`).
  The guest's own memory is preferred to the imported one. The allocator,
  both processing exports and `astv_last_len` must be present. Then
  `__main_argc_argv(0, 0)` runs, or `_start()` when only that exists.
- **The call bridge** (`call`). It passes a byte string into the guest:
  1. allocate, unless the input is empty;
  2. copy the input in;
  3. invoke `astv_parse` or `astv_lex`;
  4. read `astv_last_len`;
  5. read the output bytes;
  6. release the input when `astv_free` exists.

  A typed-array view over a region outside the memory throws a RangeError.
  The bridge has two such regions, the allocated input region and the
  reported output region, and the model turns each into an error result.

## How the model is organised

**`linear_memory.dfy`: bytes and the little-endian codec.**
- Memory is a sequence of `Byte`, with `Store` and `Load` on it, plus
  `LeBytes` and `LeValue` with their round-trip lemmas.
- `SetBytes` is the one in-place write. Every DataView setter,
  `Uint8Array.set`, `fill` and index assignment in the host amounts to it.
- JavaScript's `>>> 0` is written out as `ToUint32`.

**`wasi.dfy`: the emulator.**
- Its state is the memory it has resolved so far, an `array?<Byte>` field
  of class `Wasi.Emulator`. Null means not yet resolved.
- Each entry that touches memory is a method. Its contract gives the new
  memory contents as a pure record function of the old contents.
- The properties are proved about those record functions: what each byte
  reads back as, and that every byte outside the record is unchanged.
- The three constant entries and the descriptor check of
  `fd_fdstat_set_flags` are pure functions.
- `fd_write`'s loop is proved against `IovecTotal`.

**`imports.dfy`: import synthesis.**
- `Synthesize` is the reference fold over the import descriptors. The
  loop of `BuildImports` is proved to compute it.
- Lemmas about `Synthesize` show that:
  - every declared import is bound;
  - nothing else is bound;
  - the last descriptor with a given key wins;
  - the resolved memory is the memory of the last memory import.
- The emulator's memory is the same variable `buildImports` returns.
  `BuildImports` states this as `wasi.memory == memory`.

**`runtime.dfy`: instance checks, startup and the bridge.**
- The guest is a class whose export bodies are opaque stand-ins. Their
  contracts let every export leave any memory contents and return any
  value.
- Every call into the guest, and every host read or write of the memory,
  is appended to a log.
- The allocator, the processing exports and `astv_last_len` each record
  the memory as they leave it. The processing call also records the
  memory it started from.
- `Call` is proved to append exactly the log of the reference function
  `CallTrace`, and to return `CallResult`. Its ghost `Replies` gather what
  the guest answered, including those memory snapshots, and are the ones
  the log records.
- `Coherent` relates the snapshots to each other:
  - the processing export starts from the input stored over the memory
    the allocator left;
  - the output is the bytes of the memory `astv_last_len` left.
- Lemmas about `CallTrace` state the allocation and release discipline
  and the order of the steps. Lemmas under `Coherent` state what memory the
  processing export starts from and what memory the output is read from.
- Positions in the log are counted with `CallIndices`.

Where the description of the system and the code differ, the model follows
the code:

- **The emulator only sees an imported memory.** The emulator's
  `getMemory` reads the `memory` variable of `buildImports`
  (`web/main.js:77-78`), which only a memory import sets. The bridge
  instead uses `exports.memory || importedMemory` (`web/main.js:15`). A
  guest that exports its own memory and imports none therefore gets an
  emulator with no memory at all. Its writes are skipped, and `fd_write`
  never stores its count. `BuildImports`, `FdWrite` and the writers model
  exactly that.
- **`fd_seek` takes five parameters, not the four of preview1.** The
  handler of `web/main.js:196` takes `(fd, offsetLow, offsetHigh, whence,
  newOffsetPtr)`. The preview1 signature is `(fd, offset: i64, whence,
  newoffset_ptr)`. A guest built against preview1 passes its result
  pointer as the fourth argument. The handler reads the pointer from the
  fifth, which a JavaScript call with four arguments leaves undefined. A
  DataView converts an undefined offset to 0. `writeU64`
  (`web/main.js:123-129`) then computes the offset of the high word as
  `undefined + 4`, which is NaN, and a DataView converts NaN to 0 as well.
  So for such a guest both 32-bit writes land on bytes 0-3, which end up
  zero. Bytes 4-7 are not written, and neither is the guest's result
  slot. The model follows the handler as written for a caller that passes
  all five arguments. It writes at `newOffsetPtr`, the fifth parameter.

## Model

| member | source | states |
|---|---|---|
| `LinearMemory.ToUint32` | web/main.js:120 | `value >>> 0` is below 2^32 and congruent to `value` modulo 2^32 |
| `LinearMemory.ToUint8` | web/main.js:134 | the byte `fill` stores is congruent to its value modulo 256 |
| `LinearMemory.LeRoundTrip` | web/main.js:120 | decoding the n little-endian bytes of v gives v modulo 256^n |
| `LinearMemory.LeBytesOfValue` | web/main.js:120 | re-encoding the value of a byte string gives the same bytes, so the little-endian codec is a bijection on n bytes |
| `LinearMemory.Store` | web/main.js:37 | after a store, bytes inside the region are the new bytes, and every other byte is unchanged |
| `LinearMemory.StoreLoadRoundTrip` | web/main.js:117-121 | a little-endian store of an n-byte value, read back at the same offset, gives the value modulo 256^n |
| `LinearMemory.SetBytes` | web/main.js:37 | the in-place write leaves the buffer equal to `Store` of its old contents |
| `Wasi.TruncatedU64Record` | web/main.js:123-129 | the eight bytes at p read back as the low 32 bits of v (so the high word is zero), and nothing outside them changes |
| `Wasi.LowWordThenZero` | web/main.js:126-128 | a u32 followed by a zero u32 reads back, as a u64, as the u32 |
| `Wasi.FdstatRecord` | web/main.js:137-144 | the fdstat record: filetype at 0, zero flags at 2-3, zero rights at 8-23; padding bytes 1 and 4-7 and everything outside the 24 bytes unchanged |
| `Wasi.PrestatDirRecord` | web/main.js:146-151 | tag 1 at 0, and the name length reads back as a u32 at 4; bytes 1-3 and everything outside unchanged |
| `Wasi.FilestatDirRecord` | web/main.js:153-158 | all 64 bytes zero except byte 16, which is the directory filetype 3; everything outside unchanged |
| `Wasi.ArgsGet` | web/main.js:161 | args_get succeeds |
| `Wasi.EnvironGet` | web/main.js:167 | environ_get succeeds |
| `Wasi.ProcExit` | web/main.js:235 | proc_exit reports success |
| `Wasi.FdFdstatSetFlags` | web/main.js:192-195 | success exactly for descriptors 0-2, EBADF otherwise |
| `Wasi.Emulator.constructor` | web/main.js:103-115 | the emulator starts with the memory the accessor resolves, possibly none |
| `Wasi.Emulator.WriteU32` | web/main.js:117-121 | with a memory, the four bytes at ptr become `value >>> 0` little-endian and nothing else changes; without one, nothing happens |
| `Wasi.Emulator.WriteU64` | web/main.js:123-129 | with a memory, the memory becomes the truncated-u64 record; without one, nothing happens |
| `Wasi.Emulator.Fill` | web/main.js:131-135 | with a memory, the len bytes at ptr become the converted value and nothing else changes |
| `Wasi.Emulator.WriteFdstat` | web/main.js:137-144 | the memory becomes the fdstat record for the filetype |
| `Wasi.Emulator.WritePrestatDir` | web/main.js:146-151 | the memory becomes the directory prestat record |
| `Wasi.Emulator.WriteFilestatDir` | web/main.js:153-158 | the memory becomes the directory filestat record |
| `Wasi.Emulator.ArgsSizesGet` | web/main.js:162-166 | returns success; two zero u32s are stored at the two pointers |
| `Wasi.Emulator.EnvironSizesGet` | web/main.js:168-172 | returns success; two zero u32s are stored at the two pointers |
| `Wasi.Emulator.ClockTimeGet` | web/main.js:173-176 | returns success; the time stored is a zero u64 |
| `Wasi.Emulator.RandomGet` | web/main.js:177-180 | returns success; the buffer is all zero bytes |
| `Wasi.Emulator.FdFdstatGet` | web/main.js:181-191 | descriptors 0-2 get a character-device fdstat and 3 a directory fdstat, with success; any other descriptor gets EBADF and memory is untouched |
| `Wasi.Emulator.FdSeek` | web/main.js:196-199 | returns success; the new offset stored is a zero u64 |
| `Wasi.Emulator.FdWrite` | web/main.js:200-214 | returns success; with a memory, only the four bytes at writtenPtr change and they hold the sum of the ciovec lengths modulo 2^32; without one, nothing is stored |
| `Wasi.Emulator.PathFilestatGet` | web/main.js:215-221 | descriptor 3 gets the directory filestat with success; any other descriptor gets ENOENT and memory is untouched |
| `Wasi.Emulator.FdPrestatGet` | web/main.js:222-226 | descriptor 3 gets a directory prestat with name length 1 and success; any other descriptor gets EBADF and memory is untouched |
| `Wasi.Emulator.FdPrestatDirName` | web/main.js:227-234 | EBADF for descriptors other than 3; ENOTSUP for a buffer shorter than one byte or no memory; otherwise exactly the byte '.' is written at pathPtr |
| `Wasi.IovecTotal` | web/main.js:206-211 | no segments give 0; n segments of u32 lengths give less than n·2^32 |
| `Wasi.IovecTotalReadsOnlyLengths` | web/main.js:207-211 | two memories that agree on the length words give the same total: neither buffer pointers nor segment contents are read |
| `Wasi.WrittenCountReadsBack` | web/main.js:212 | the count fd_write stores reads back as the total modulo 2^32 |
| `Wasi.TwoSegmentsReportTwelve` | web/main.js:200-214 | segments of length 5 and 7 are reported as 12 bytes written |
| `Imports.FunctionBinding` | web/main.js:85-91 | a known WASI name gets that entry; an unknown WASI name gets a stub answering 58; any other namespace gets a stub answering 0 |
| `Imports.Bind` | web/main.js:83-97 | the key becomes bound to the binding, the namespace object is created on first use, and every other binding is kept |
| `Imports.BindingFor` | web/main.js:84-97 | the binding's kind follows the import's kind: function, memory, empty table, or zero for globals and tags |
| `Imports.SynthesizeIsTotal` | web/main.js:80-98 | every declared import is bound |
| `Imports.SynthesizeBindsOnlyDeclared` | web/main.js:80-98 | only declared imports are bound |
| `Imports.SynthesizeLastWins` | web/main.js:80-98 | the last descriptor with a given key decides its binding |
| `Imports.ResolvedMemoryIsLastImported` | web/main.js:92-94 | no memory is resolved exactly when nothing imports one; otherwise it is the memory created for the last memory import |
| `Imports.ResolvedMemoryIsBound` | web/main.js:92-94 | the resolved memory is what the last memory import is bound to, unless a later import of the same key replaced it |
| `Imports.ResolveImport` | web/main.js:84-97 | one descriptor's binding; a memory import creates a new memory of 256 pages |
| `Imports.BuildImports` | web/main.js:75-101 | the namespace is the in-order synthesis over the descriptors; every memory created is new, 256 pages long and distinct from the others; the returned memory is the last one created, and the emulator's memory is that same memory |
| `Runtime.CheckInstance` | web/main.js:15-25 | "memory not found" exactly when there is neither an exported nor an imported memory; success exactly when there is a memory and the four required exports; the exported memory is preferred |
| `Runtime.Guest.AstvAlloc` | web/main.js:35 | the allocator call is logged with its size, the pointer it returned and the memory it left |
| `Runtime.Guest.Invoke` | web/main.js:40 | the processing call is logged with its arguments, its output pointer, and the memory it started from and left |
| `Runtime.Guest.AstvLastLen` | web/main.js:41 | the length read is logged with the memory the call left |
| `Runtime.Guest.AstvFree` | web/main.js:46 | the release is logged with its region |
| `Runtime.Guest.MainArgcArgvEntry` | web/main.js:69 | the `__main_argc_argv` call is logged |
| `Runtime.Guest.StartEntry` | web/main.js:72 | the `_start` call is logged |
| `Runtime.StartupRunsAtMostOneEntry` | web/main.js:67-73 | `__main_argc_argv` runs once when present; `_start` runs once only when it alone is present; at most one of them runs, and nothing else |
| `Runtime.InitializeRuntime` | web/main.js:67-73 | the guest sees exactly the startup calls |
| `Runtime.CallResult` | web/main.js:32-50 | the call yields the output exactly when both the input region and the output region are in range; an out-of-range input region is the input error; the output is the bytes read |
| `Runtime.PassInput` | web/main.js:33-38 | an empty input is passed as pointer 0 without allocating and leaves the memory unchanged; otherwise the allocation is logged with the memory it left, and when its region is in range that memory gets the input stored there and nothing else |
| `Runtime.Exchange` | web/main.js:40-41 | the processing call, with the memory it started from and left, and then astv_last_len, with the memory the host goes on to read, are logged in that order |
| `Runtime.Call` | web/main.js:32-50 | the log grows by exactly the reference trace for the guest's replies; the result is the reference result; the replies' memory snapshots are coherent with the memory the call started from |
| `Runtime.CallTraceOutputStep` | web/main.js:41-44 | the output is read exactly when the call succeeds, once, right after astv_last_len, at the reported pointer |
| `Runtime.CallTraceHandsOverInput` | web/main.js:34-40 | the processing export starts from the memory the allocator left with the input stored at exactly the allocated region, or, for an empty input, from the memory as it was before the call |
| `Runtime.CallTraceReadsOutput` | web/main.js:41-44 | a successful call's output is the `astv_last_len` bytes at the output pointer of the memory as astv_last_len left it |
| `Runtime.CallTraceAllocFree` | web/main.js:35-47 | the allocator is called once, first, exactly for a non-empty input; the release is called once, last, exactly for a non-empty input that succeeded with `astv_free` present |
| `Runtime.CallTraceInvokes` | web/main.js:40-41 | unless the input is out of range, the processing export is called exactly once and astv_last_len exactly once right after it |
| `Runtime.CallTraceCallsNothingElse` | web/main.js:32-50 | a bridge call reaches neither the other processing export nor a startup export |
| `Runtime.EmptyInputSkipsAllocator` | web/main.js:34-36 | an empty input reaches neither the allocator nor the release, and is processed first with (0, 0), then astv_last_len |
| `Runtime.CallTraceOrder` | web/main.js:35-47 | allocation comes first and the copy goes to exactly the allocated region; astv_last_len follows the processing call; a release is last, right after the output was read, and frees exactly the allocated region |
| `Runtime.OutputRangeErrorLeaksInput` | web/main.js:42-47 | when the output region is out of range, the allocated input is never released |

## Left out

- Loading and instantiating are not modelled. This covers `fetch`,
  `WebAssembly.compile` and `WebAssembly.instantiate`, and the
  `window.astvWasmReady` global (`web/main.js:1-13`). They are network and
  platform I/O. The check of the instance's exports is modelled on an
  `ExportSet` of presence flags.
- `TextEncoder`, `TextDecoder` and `JSON.parse` (`web/main.js:29-30, 43,
  49`) are foreign library calls. The bridge takes the input already
  encoded and returns the raw output bytes. A decode or parse failure is
  not modelled.
- The `postJson` URL routing (`web/main.js:52-62`) is string-matching glue.
  The bridge is modelled for either processing export.
- The guest's own code behind `astv_alloc`, `astv_parse`, `astv_lex` and
  `astv_last_len` is an opaque compiled artifact. `Runtime.Guest` holds
  stand-in bodies. Their contracts promise nothing about the memory
  contents they leave or the values they return; they only record them.
- Memory growth is not modelled. An `ArrayBuffer` detached by
  `memory.grow`, and a memory whose size changes between calls, are
  outside the model; every memory has a fixed length.
- `WebAssembly.Memory` and `WebAssembly.Table` objects are not modelled
  beyond their identity and size. A created memory's initial zero contents
  are not stated, and an empty funcref table is a token.
- The JavaScript `RangeError` of a DataView access or typed-array view
  outside the memory is not modelled for the emulator. Inside the emulator
  it would trap the guest's call. Each writer and entry instead requires
  its records to lie inside the memory when there is one. In the bridge,
  both RangeErrors are modelled as error results.
- The stub functions' arguments are not modelled. A stub ignores them, so
  it is modelled by its constant result alone.
- Imports.FunctionBinding: the stub-or-entry choice is made by membership
  in the emulator's fourteen names. In the code, `wasi[name]` also finds
  properties inherited from `Object.prototype`, such as `toString`, so a
  WASI import of such a name would be bound to that property instead of
  the stub answering 58.
- Wasi.Emulator.FdWrite: the sum of the lengths is exact. In the code,
  `written` is a JavaScript Number, which loses precision once the total
  passes 2^53, before `>>> 0` truncates it. That needs more than 2^21
  segments of nearly 4 GiB each.
- Wasi.Emulator.FdSeek: the handler's first four arguments are ignored,
  as in the code. The mismatch with the preview1 parameter list is
  described above.
- Concurrency is not modelled: everything here runs on one JavaScript
  thread.
