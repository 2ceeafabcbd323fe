/** The host side of an instantiated guest: the startup call, and the call
    bridge that passes a byte string into the guest and reads the result.
    The guest's compiled code is opaque; it appears here only through the
    contracts of the exports the host calls, and every call the host makes
    and every access it makes to the guest memory is appended to a log. */
module Runtime {
  import opened LinearMemory

  datatype Result<T, E> = Ok(value: T) | Err(error: E)

  /** The two processing exports, astv_parse and astv_lex. */
  datatype Processor = Parse | Lex

  /** The guest exports the host calls. */
  datatype Export = Alloc | Free | Process(fn: Processor) | LastLen | MainArgcArgv | Start

  /** One step of the log. Each call into the guest records the memory as
      the guest's code saw it: the allocator and astv_last_len the memory
      they leave behind, the processing export the memory it starts from
      and the memory it leaves behind. */
  datatype Event =
    | AllocCall(size: int, ptr: int, mem: seq<Byte>)            // astv_alloc(size) returned ptr
    | CopyIn(ptr: int, bytes: seq<Byte>)                        // host wrote the input at ptr
    | ProcessCall(fn: Processor, ptr: int, len: int, outPtr: int,
                  before: seq<Byte>, after: seq<Byte>)          // fn(ptr, len) returned outPtr
    | LastLenCall(len: int, mem: seq<Byte>)                     // astv_last_len() returned len
    | CopyOut(ptr: int, bytes: seq<Byte>)                       // host read the output at ptr
    | FreeCall(ptr: int, size: int)                             // astv_free(ptr, size)
    | MainArgcArgvCall(argc: int, argv: int)                    // __main_argc_argv(argc, argv)
    | StartCall                                                 // _start()

  /** The export `e` calls; None for the host's own memory accesses. */
  function Callee(e: Event): Option<Export>
  {
    match e
    case AllocCall(_, _, _) => Some(Alloc)
    case CopyIn(_, _) => None
    case ProcessCall(fn, _, _, _, _, _) => Some(Process(fn))
    case LastLenCall(_, _) => Some(LastLen)
    case CopyOut(_, _) => None
    case FreeCall(_, _) => Some(Free)
    case MainArgcArgvCall(_, _) => Some(MainArgcArgv)
    case StartCall => Some(Start)
  }

  datatype Option<T> = None | Some(value: T)

  /** The positions in `log` at which `x` is called. */
  function CallIndices(log: seq<Event>, x: Export): set<int>
  {
    set i | 0 <= i < |log| && Callee(log[i]) == Some(x)
  }

  /** Which optional exports the instance has, and whether it exports its own memory. */
  datatype ExportSet = ExportSet(
    memory: bool, alloc: bool, free: bool, parse: bool, lex: bool,
    lastLen: bool, mainArgcArgv: bool, start: bool)

  datatype InitError = MemoryNotFound | MissingExports

  /** Where the memory the bridge uses comes from. */
  datatype MemorySource = ExportedMemory | ImportedMemory

  /** The checks made right after instantiation: the guest's own memory is
      preferred to the imported one, one of them must exist, and the
      allocator, both processing exports and astv_last_len must be present
      (astv_free is optional). */
  function CheckInstance(exports: ExportSet, memoryImported: bool): (r: Result<MemorySource, InitError>)
    ensures r == Err(MemoryNotFound) <==> !exports.memory && !memoryImported
    ensures r.Ok? <==> (exports.memory || memoryImported) &&
                       exports.alloc && exports.parse && exports.lex && exports.lastLen
    ensures r.Ok? ==> (r.value == ExportedMemory <==> exports.memory)
  {
    if !exports.memory && !memoryImported then Err(MemoryNotFound)
    else if !exports.alloc || !exports.parse || !exports.lex || !exports.lastLen then Err(MissingExports)
    else Ok(if exports.memory then ExportedMemory else ImportedMemory)
  }

  /** An instantiated guest as the host sees it. Its export bodies are
      stand-ins for compiled code (`allocator`, `processor`); the host's
      reasoning uses only their contracts, which allow any effect on the
      memory and any returned value. */
  class Guest {
    /** The memory the bridge reads and writes. */
    const memory: array<Byte>
    const exports: ExportSet
    /** Every call into the guest and every host access to its memory, in order. */
    var log: seq<Event>
    /** The value astv_last_len reports: the length of the last output. */
    var lastLen: int
    const allocator: int -> int
    const processor: (Processor, int, int) -> (int, int)

    constructor (memory: array<Byte>, exports: ExportSet, allocator: int -> int, processor: (Processor, int, int) -> (int, int))
      ensures this.memory == memory && this.exports == exports && log == []
    {
      this.memory := memory;
      this.exports := exports;
      this.allocator := allocator;
      this.processor := processor;
      log := [];
      lastLen := 0;
    }

    method AstvAlloc(size: int) returns (ptr: int)
      modifies this, memory
      ensures log == old(log) + [AllocCall(size, ptr, memory[..])]
    {
      ptr := allocator(size);
      log := log + [AllocCall(size, ptr, memory[..])];
    }

    method Invoke(fn: Processor, ptr: int, len: int) returns (outPtr: int)
      modifies this, memory
      ensures log == old(log) + [ProcessCall(fn, ptr, len, outPtr, old(memory[..]), memory[..])]
    {
      var (o, l) := processor(fn, ptr, len);
      outPtr, lastLen := o, l;
      log := log + [ProcessCall(fn, ptr, len, outPtr, memory[..], memory[..])];
    }

    method AstvLastLen() returns (len: int)
      modifies this, memory
      ensures log == old(log) + [LastLenCall(len, memory[..])]
    {
      len := lastLen;
      log := log + [LastLenCall(len, memory[..])];
    }

    method AstvFree(ptr: int, size: int)
      modifies this, memory
      ensures log == old(log) + [FreeCall(ptr, size)]
    {
      log := log + [FreeCall(ptr, size)];
    }

    method MainArgcArgvEntry(argc: int, argv: int)
      modifies this, memory
      ensures log == old(log) + [MainArgcArgvCall(argc, argv)]
    {
      log := log + [MainArgcArgvCall(argc, argv)];
    }

    method StartEntry()
      modifies this, memory
      ensures log == old(log) + [StartCall]
    {
      log := log + [StartCall];
    }
  }

  /** The startup calls: `__main_argc_argv(0, 0)` when the guest exports it,
      otherwise `_start()` when it exports that, otherwise none. */
  function StartupCalls(exports: ExportSet): seq<Event>
  {
    if exports.mainArgcArgv then [MainArgcArgvCall(0, 0)]
    else if exports.start then [StartCall]
    else []
  }

  /** At most one startup export runs, exactly once when either exists, and
      `__main_argc_argv` wins when both exist. */
  lemma StartupRunsAtMostOneEntry(exports: ExportSet)
    ensures var log := StartupCalls(exports);
            CallIndices(log, MainArgcArgv) == (if exports.mainArgcArgv then {0} else {}) &&
            CallIndices(log, Start) == (if !exports.mainArgcArgv && exports.start then {0} else {}) &&
            |CallIndices(log, MainArgcArgv)| + |CallIndices(log, Start)| == (if exports.mainArgcArgv || exports.start then 1 else 0)
    ensures forall x :: x != MainArgcArgv && x != Start ==> CallIndices(StartupCalls(exports), x) == {}
  {
    var log := StartupCalls(exports);
    if exports.mainArgcArgv || exports.start {
      assert 0 in CallIndices(log, if exports.mainArgcArgv then MainArgcArgv else Start);
    }
  }

  method InitializeRuntime(g: Guest)
    modifies g, g.memory
    ensures g.log == old(g.log) + StartupCalls(g.exports)
  {
    if g.exports.mainArgcArgv {
      g.MainArgcArgvEntry(0, 0);
      return;
    }
    if g.exports.start {
      g.StartEntry();
    }
  }

  /** A RangeError from a Uint8Array view over the memory: the input region
      the allocator returned, or the output region, lies outside it. */
  datatype BridgeError = InputOutOfRange | OutputOutOfRange

  /** What the guest answered during one bridge call, with the memory as
      its exports saw it: the allocator's pointer and `allocMem`, the memory
      it left; the processing export's output pointer, `start`, the memory
      it started from, and `procMem`, the memory it left; astv_last_len's
      length and `readMem`, the memory it left; and `out`, the bytes the
      host read at the output region. */
  datatype Replies = Replies(ptr: int, allocMem: seq<Byte>, outPtr: int, start: seq<Byte>, procMem: seq<Byte>,
                             outLen: int, readMem: seq<Byte>, out: seq<Byte>)

  /** The memory the processing export starts from: the input stored at
      the allocated region of the memory the allocator left, or, for an
      empty input, the memory `m0` the bridge call started with. */
  function InvokedMemory(input: seq<Byte>, m0: seq<Byte>, rep: Replies): seq<Byte>
  {
    if |input| > 0 && InBounds(rep.ptr, |input|, |rep.allocMem|) then Store(rep.allocMem, rep.ptr, input) else m0
  }

  /** How the replies of a bridge call that started on memory `m0` hang
      together: every snapshot is of that memory; once the input is in
      range, the processing export starts from the memory holding the
      input; and once the output is in range, the bytes read are those
      at the output region of the memory astv_last_len left. */
  predicate Coherent(input: seq<Byte>, m0: seq<Byte>, rep: Replies)
  {
    |rep.allocMem| == |m0| && |rep.start| == |m0| && |rep.procMem| == |m0| && |rep.readMem| == |m0| &&
    ((|input| == 0 || InBounds(rep.ptr, |input|, |m0|)) ==> rep.start == InvokedMemory(input, m0, rep)) &&
    (InBounds(rep.outPtr, rep.outLen, |m0|) ==> rep.out == rep.readMem[rep.outPtr..rep.outPtr + rep.outLen])
  }

  /** The log of the input step of a bridge call: nothing for an empty
      input; otherwise the allocation, which left the memory `allocMem`,
      and the copy when the region the allocator returned lies inside a
      memory of `memLen` bytes. */
  function InputSteps(input: seq<Byte>, ptr: int, allocMem: seq<Byte>, memLen: int): seq<Event>
  {
    if |input| == 0 then []
    else if InBounds(ptr, |input|, memLen) then [AllocCall(|input|, ptr, allocMem), CopyIn(ptr, input)]
    else [AllocCall(|input|, ptr, allocMem)]
  }

  /** The log one bridge call on `input` appends, given the guest's
      replies, over a memory of `memLen` bytes. An empty input is passed as
      (0, 0) without allocating; a range error ends the call where it is
      raised. */
  function CallTrace(fn: Processor, input: seq<Byte>, rep: Replies, memLen: int, freeExported: bool): seq<Event>
  {
    var n := |input|;
    var ptr := if n > 0 then rep.ptr else 0;
    var steps := InputSteps(input, ptr, rep.allocMem, memLen);
    var p, l := ProcessCall(fn, ptr, n, rep.outPtr, rep.start, rep.procMem), LastLenCall(rep.outLen, rep.readMem);
    if n > 0 && !InBounds(ptr, n, memLen) then steps
    else if !InBounds(rep.outPtr, rep.outLen, memLen) then steps + [p, l]
    else steps + [p, l, CopyOut(rep.outPtr, rep.out)] + (if n > 0 && freeExported then [FreeCall(ptr, n)] else [])
  }

  /** The result of one bridge call: the output bytes, or the range error. */
  function CallResult(input: seq<Byte>, rep: Replies, memLen: int): (r: Result<seq<Byte>, BridgeError>)
    ensures r.Ok? <==> (|input| == 0 || InBounds(rep.ptr, |input|, memLen)) && InBounds(rep.outPtr, rep.outLen, memLen)
    ensures r == Err(InputOutOfRange) <==> |input| > 0 && !InBounds(rep.ptr, |input|, memLen)
    ensures r.Ok? ==> r.value == rep.out
  {
    if |input| > 0 && !InBounds(rep.ptr, |input|, memLen) then Err(InputOutOfRange)
    else if !InBounds(rep.outPtr, rep.outLen, memLen) then Err(OutputOutOfRange)
    else Ok(rep.out)
  }

  /** Passes `input` into the guest: an empty input is passed as pointer 0
      without allocating and without touching the memory; otherwise the
      allocator is asked for |input| bytes and, when the region it returns
      lies inside the memory, the input is copied there and nowhere else
      (`ok`). `allocMem` is the memory as the allocator left it, which the
      log records. */
  method PassInput(g: Guest, input: seq<Byte>) returns (ptr: int, ok: bool, ghost allocMem: seq<Byte>)
    modifies g, g.memory
    ensures |allocMem| == g.memory.Length
    ensures g.log == old(g.log) + InputSteps(input, ptr, allocMem, g.memory.Length)
    ensures ok <==> |input| == 0 || InBounds(ptr, |input|, g.memory.Length)
    ensures |input| == 0 ==> ptr == 0 && g.memory[..] == old(g.memory[..])
    ensures |input| > 0 ==> g.memory[..] == if ok then Store(allocMem, ptr, input) else allocMem
  {
    var size := |input|;
    ptr := 0;
    allocMem := g.memory[..];
    if size > 0 {
      ptr := g.AstvAlloc(size);
      allocMem := g.memory[..];
      if !InBounds(ptr, size, g.memory.Length) {
        return ptr, false, allocMem;
      }
      SetBytes(g.memory, ptr, input);
      g.log := g.log + [CopyIn(ptr, input)];
    }
    return ptr, true, allocMem;
  }

  /** Invokes `fn` on the input region, then reads astv_last_len; the
      memory ends as astv_last_len left it. */
  method Exchange(g: Guest, fn: Processor, ptr: int, size: int)
      returns (outPtr: int, outLen: int, ghost procMem: seq<Byte>, ghost readMem: seq<Byte>)
    modifies g, g.memory
    ensures |procMem| == g.memory.Length && g.memory[..] == readMem
    ensures g.log == old(g.log) + [ProcessCall(fn, ptr, size, outPtr, old(g.memory[..]), procMem), LastLenCall(outLen, readMem)]
  {
    outPtr := g.Invoke(fn, ptr, size);
    procMem := g.memory[..];
    outLen := g.AstvLastLen();
    readMem := g.memory[..];
  }

  /** Drives `fn` on `input`: pass the input in, invoke, read
      astv_last_len, read the output from the memory as astv_last_len left
      it, and release the input when it was allocated and the guest exports
      astv_free. `rep` gathers the guest's answers; every memory snapshot
      in it is one the guest's own calls recorded in the log. */
  method Call(g: Guest, fn: Processor, input: seq<Byte>) returns (r: Result<seq<Byte>, BridgeError>, ghost rep: Replies)
    modifies g, g.memory
    ensures Coherent(input, old(g.memory[..]), rep)
    ensures g.log == old(g.log) + CallTrace(fn, input, rep, g.memory.Length, g.exports.free)
    ensures r == CallResult(input, rep, g.memory.Length)
  {
    var size := |input|;
    ghost var m0 := g.memory[..];
    var ptr, ok;
    ghost var allocMem;
    ptr, ok, allocMem := PassInput(g, input);
    if !ok {
      return Err(InputOutOfRange), Replies(ptr, allocMem, 0, allocMem, allocMem, 0, allocMem, []);
    }
    ghost var passed := g.log;
    ghost var start := g.memory[..];
    var outPtr, outLen;
    ghost var procMem, readMem;
    outPtr, outLen, procMem, readMem := Exchange(g, fn, ptr, size);
    if !InBounds(outPtr, outLen, g.memory.Length) {
      return Err(OutputOutOfRange), Replies(ptr, allocMem, outPtr, start, procMem, outLen, readMem, []);
    }
    var outBytes := g.memory[outPtr..outPtr + outLen];
    rep := Replies(ptr, allocMem, outPtr, start, procMem, outLen, readMem, outBytes);
    g.log := g.log + [CopyOut(outPtr, outBytes)];
    ghost var body := InputSteps(input, ptr, allocMem, g.memory.Length)
                      + [ProcessCall(fn, ptr, size, outPtr, start, procMem), LastLenCall(outLen, readMem), CopyOut(outPtr, outBytes)];
    assert g.log == old(g.log) + body;
    if size > 0 && g.exports.free {
      g.AstvFree(ptr, size);
      assert g.log == old(g.log) + (body + [FreeCall(ptr, size)]);
    } else {
      assert body + [] == body;
    }
    return Ok(outBytes), rep;
  }

  /** The log of one bridge call, case by case. */
  lemma CallTraceShapes(fn: Processor, input: seq<Byte>, rep: Replies, memLen: int, freeExported: bool)
    ensures var log, n := CallTrace(fn, input, rep, memLen, freeExported), |input|;
            var a, c := AllocCall(n, rep.ptr, rep.allocMem), CopyIn(rep.ptr, input);
            var p := ProcessCall(fn, if n > 0 then rep.ptr else 0, n, rep.outPtr, rep.start, rep.procMem);
            var l, o := LastLenCall(rep.outLen, rep.readMem), CopyOut(rep.outPtr, rep.out);
            var outOk := InBounds(rep.outPtr, rep.outLen, memLen);
            (n == 0 && !outOk ==> log == [p, l]) &&
            (n == 0 && outOk ==> log == [p, l, o]) &&
            (n > 0 && !InBounds(rep.ptr, n, memLen) ==> log == [a]) &&
            (n > 0 && InBounds(rep.ptr, n, memLen) && !outOk ==> log == [a, c, p, l]) &&
            (n > 0 && InBounds(rep.ptr, n, memLen) && outOk && !freeExported ==> log == [a, c, p, l, o]) &&
            (n > 0 && InBounds(rep.ptr, n, memLen) && outOk && freeExported ==> log == [a, c, p, l, o, FreeCall(rep.ptr, n)])
  {
  }

  /** The processing export starts from the memory holding the input at
      exactly the allocated region and, everywhere else, what the allocator
      left there; for an empty input it starts from the memory as it was
      before the call. */
  lemma CallTraceHandsOverInput(fn: Processor, input: seq<Byte>, m0: seq<Byte>, rep: Replies, freeExported: bool)
    requires Coherent(input, m0, rep)
    ensures var log, n := CallTrace(fn, input, rep, |m0|, freeExported), |input|;
            forall i :: 0 <= i < |log| && log[i].ProcessCall? ==>
              |log[i].before| == |m0| &&
              (n == 0 ==> log[i].before == m0) &&
              (n > 0 ==> (log[0].AllocCall? &&
                 forall k :: 0 <= k < |m0| ==>
                   log[i].before[k] == if rep.ptr <= k < rep.ptr + n then input[k - rep.ptr] else log[0].mem[k]))
  {
    CallTraceShapes(fn, input, rep, |m0|, freeExported);
  }

  /** Where a bridge call reads its output: exactly when it succeeds, and
      then once, right after astv_last_len. */
  lemma CallTraceOutputStep(fn: Processor, input: seq<Byte>, rep: Replies, memLen: int, freeExported: bool)
    ensures var log, r := CallTrace(fn, input, rep, memLen, freeExported), CallResult(input, rep, memLen);
            (r.Ok? <==> exists i :: 0 <= i < |log| && log[i].CopyOut?) &&
            forall i :: 0 <= i < |log| && log[i].CopyOut? ==>
              i >= 1 && log[i - 1] == LastLenCall(rep.outLen, rep.readMem) && log[i] == CopyOut(rep.outPtr, rep.out) &&
              InBounds(rep.outPtr, rep.outLen, memLen)
  {
    CallTraceShapes(fn, input, rep, memLen, freeExported);
    var log, n := CallTrace(fn, input, rep, memLen, freeExported), |input|;
    if CallResult(input, rep, memLen).Ok? {
      var j := if n > 0 then 4 else 2;
      assert log[j].CopyOut?;
      forall i | 0 <= i < |log| && log[i].CopyOut?
        ensures i == j
      {
      }
    } else {
      forall i | 0 <= i < |log|
        ensures !log[i].CopyOut?
      {
      }
    }
  }

  /** A bridge call yields its output exactly when it reads the output, and
      that output is the `len` bytes at the output pointer of the memory
      as astv_last_len, the call right before the read, left it. */
  lemma CallTraceReadsOutput(fn: Processor, input: seq<Byte>, m0: seq<Byte>, rep: Replies, freeExported: bool)
    requires Coherent(input, m0, rep)
    ensures var log, r := CallTrace(fn, input, rep, |m0|, freeExported), CallResult(input, rep, |m0|);
            (r.Ok? <==> exists i :: 0 <= i < |log| && log[i].CopyOut?) &&
            forall i :: 0 <= i < |log| && log[i].CopyOut? ==>
              i >= 1 && log[i - 1].LastLenCall? && log[i].ptr == rep.outPtr &&
              InBounds(rep.outPtr, log[i - 1].len, |log[i - 1].mem|) &&
              log[i].bytes == log[i - 1].mem[rep.outPtr..rep.outPtr + log[i - 1].len] &&
              r == Ok(log[i].bytes)
  {
    CallTraceOutputStep(fn, input, rep, |m0|, freeExported);
  }

  /** The allocation discipline of one bridge call: the allocator is called
      first, and only for a non-empty input; astv_free is called last,
      exactly when an input was allocated, the guest exports astv_free and
      the call succeeded. */
  lemma CallTraceAllocFree(fn: Processor, input: seq<Byte>, rep: Replies, memLen: int, freeExported: bool)
    ensures var log, n := CallTrace(fn, input, rep, memLen, freeExported), |input|;
            CallIndices(log, Alloc) == (if n > 0 then {0} else {}) &&
            CallIndices(log, Free) == (if n > 0 && freeExported && CallResult(input, rep, memLen).Ok? then {|log| - 1} else {})
  {
    CallTraceShapes(fn, input, rep, memLen, freeExported);
    var log, n := CallTrace(fn, input, rep, memLen, freeExported), |input|;
    if n > 0 {
      assert 0 in CallIndices(log, Alloc);
      if freeExported && CallResult(input, rep, memLen).Ok? {
        assert |log| - 1 in CallIndices(log, Free);
      }
    }
  }

  /** The processing export, and right after it astv_last_len, are called
      once unless the input range failed: at the start of the log for an
      empty input, after the allocation and the copy otherwise. */
  lemma CallTraceInvokes(fn: Processor, input: seq<Byte>, rep: Replies, memLen: int, freeExported: bool)
    ensures var log, n := CallTrace(fn, input, rep, memLen, freeExported), |input|;
            var inOk := n == 0 || InBounds(rep.ptr, n, memLen);
            CallIndices(log, Process(fn)) == (if !inOk then {} else if n > 0 then {2} else {0}) &&
            CallIndices(log, LastLen) == (if !inOk then {} else if n > 0 then {3} else {1})
  {
    CallTraceShapes(fn, input, rep, memLen, freeExported);
    var log, n := CallTrace(fn, input, rep, memLen, freeExported), |input|;
    if n == 0 {
      assert 0 in CallIndices(log, Process(fn)) && 1 in CallIndices(log, LastLen);
    } else if InBounds(rep.ptr, n, memLen) {
      assert 2 in CallIndices(log, Process(fn)) && 3 in CallIndices(log, LastLen);
    }
  }

  /** A bridge call reaches neither the other processing export nor a
      startup export. */
  lemma CallTraceCallsNothingElse(fn: Processor, input: seq<Byte>, rep: Replies, memLen: int, freeExported: bool)
    ensures var log := CallTrace(fn, input, rep, memLen, freeExported);
            (forall x: Export :: x.Process? && x != Process(fn) ==> CallIndices(log, x) == {}) &&
            CallIndices(log, MainArgcArgv) == {} && CallIndices(log, Start) == {}
  {
    CallTraceShapes(fn, input, rep, memLen, freeExported);
  }

  /** An empty input never reaches the allocator or the deallocator, and
      the processing export is invoked first, with (0, 0). */
  lemma EmptyInputSkipsAllocator(fn: Processor, rep: Replies, memLen: int, freeExported: bool)
    ensures var log := CallTrace(fn, [], rep, memLen, freeExported);
            CallIndices(log, Alloc) == {} && CallIndices(log, Free) == {} &&
            |log| >= 2 && log[0] == ProcessCall(fn, 0, 0, rep.outPtr, rep.start, rep.procMem) && log[1] == LastLenCall(rep.outLen, rep.readMem)
  {
    CallTraceAllocFree(fn, [], rep, memLen, freeExported);
    CallTraceShapes(fn, [], rep, memLen, freeExported);
  }

  /** The order of one bridge call: a non-empty input is allocated first and
      copied to exactly the region the allocator returned; astv_last_len is
      read right after the processing export; and a release, when there is
      one, is the last event, comes right after the output was read, and
      frees exactly the allocated region. */
  lemma CallTraceOrder(fn: Processor, input: seq<Byte>, rep: Replies, memLen: int, freeExported: bool)
    ensures var log, n := CallTrace(fn, input, rep, memLen, freeExported), |input|;
            (n > 0 ==> log[0] == AllocCall(n, rep.ptr, rep.allocMem)) &&
            (n > 0 && InBounds(rep.ptr, n, memLen) ==> log[1] == CopyIn(rep.ptr, input)) &&
            (forall i :: 0 <= i < |log| && log[i].ProcessCall? ==>
               i + 1 < |log| && log[i + 1] == LastLenCall(rep.outLen, rep.readMem) && log[i].ptr == (if n > 0 then rep.ptr else 0) && log[i].len == n) &&
            (forall i :: 0 <= i < |log| && log[i].FreeCall? ==>
               i == |log| - 1 && log[0].AllocCall? && log[0].size == log[i].size && log[0].ptr == log[i].ptr &&
               i >= 1 && log[i - 1].CopyOut?)
  {
    CallTraceShapes(fn, input, rep, memLen, freeExported);
  }

  /** When the output region is out of range the call fails after the input
      was allocated, and the input buffer is never released. */
  lemma OutputRangeErrorLeaksInput(fn: Processor, input: seq<Byte>, rep: Replies, memLen: int, freeExported: bool)
    requires |input| > 0 && CallResult(input, rep, memLen) == Err(OutputOutOfRange)
    ensures var log := CallTrace(fn, input, rep, memLen, freeExported);
            CallIndices(log, Alloc) == {0} && CallIndices(log, Free) == {}
  {
    CallTraceAllocFree(fn, input, rep, memLen, freeExported);
  }
}
