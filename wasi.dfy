/** The host's emulation of the WASI snapshot preview1 calls the guest's
    startup code and console writes use. Every call answers with an errno
    status; the ones that report something write fixed little-endian records
    into the guest memory, which may not be resolved yet, in which case the
    writes are skipped. */
module Wasi {
  import opened LinearMemory

  // errno values of WASI snapshot preview1
  const Esuccess := 0
  const Ebadf := 8
  const Enoent := 44
  const Enotsup := 58

  // filetype and preopentype values
  const FiletypeCharacterDevice: Byte := 2
  const FiletypeDirectory: Byte := 3
  const PreopentypeDir: Byte := 1

  /** The one byte of the preopened directory's name, '.'. */
  const DotByte: Byte := 46

  // record sizes of the preview1 ABI
  const FdstatSize := 24
  const PrestatSize := 8
  const FilestatSize := 64

  /** The entries the emulator answers, by their import names. */
  const EntryNames: set<string> := {
    "args_get", "args_sizes_get", "environ_get", "environ_sizes_get",
    "clock_time_get", "random_get", "fd_fdstat_get", "fd_fdstat_set_flags",
    "fd_seek", "fd_write", "path_filestat_get", "fd_prestat_get",
    "fd_prestat_dir_name", "proc_exit"
  }

  /** The standard descriptors 0, 1 and 2. */
  predicate IsStdio(fd: int)
  {
    fd == 0 || fd == 1 || fd == 2
  }

  /** The one preopened directory descriptor. */
  predicate IsPreopenDir(fd: int)
  {
    fd == 3
  }

  /** `m` after a u64 write of `v` whose high word is forced to zero: the
      eight bytes at `p` read back as the low 32 bits of `v`. */
  function TruncatedU64Record(m: seq<Byte>, p: int, v: int): (r: seq<Byte>)
    requires InBounds(p, 8, |m|)
    ensures |r| == |m|
    ensures Load(r, p, 8) == ToUint32(v)
    ensures forall i :: 0 <= i < |m| && !(p <= i < p + 8) ==> r[i] == m[i]
  {
    var low := Store(m, p, LeBytes(ToUint32(v), 4));
    var r := Store(low, p + 4, LeBytes(0, 4));
    assert r[p..p + 8] == LeBytes(ToUint32(v), 4) + LeBytes(0, 4);
    LowWordThenZero(ToUint32(v));
    r
  }

  /** A 32-bit value followed by a zero high word reads back as the value. */
  lemma LowWordThenZero(low: nat)
    requires low < TwoTo32
    ensures LeValue(LeBytes(low, 4) + LeBytes(0, 4)) == low
  {
    LeValueAppend(LeBytes(low, 4), LeBytes(0, 4));
    LeBytesOfZero(4);
    LeValueOfZeros(LeBytes(0, 4));
    LeRoundTrip(low, 4);
    Pow256Of4();
    DivModUnique(low, TwoTo32, 0, low);
  }

  /** `m` after an fdstat record for `filetype` is written at `p`: the
      filetype byte at 0, a zero u16 of flags at 2 and two zero u64 rights
      words at 8 and 16; the padding bytes 1 and 4..7 keep their values. */
  function FdstatRecord(m: seq<Byte>, p: int, filetype: Byte): (r: seq<Byte>)
    requires InBounds(p, FdstatSize, |m|)
    ensures |r| == |m|
    ensures r[p] == filetype
    ensures forall i :: p + 2 <= i < p + 4 || p + 8 <= i < p + 24 ==> r[i] == 0
    ensures r[p + 1] == m[p + 1]
    ensures forall i :: p + 4 <= i < p + 8 ==> r[i] == m[i]
    ensures forall i :: 0 <= i < |m| && !(p <= i < p + FdstatSize) ==> r[i] == m[i]
  {
    LeBytesOfZero(2);
    LeBytesOfZero(8);
    var tagged := Store(m, p, [filetype]);
    var flagged := Store(tagged, p + 2, LeBytes(0, 2));
    var base := Store(flagged, p + 8, LeBytes(0, 8));
    Store(base, p + 16, LeBytes(0, 8))
  }

  /** `m` after a prestat record for a directory whose name is `nameLen`
      bytes long is written at `p`: tag 1 at 0, the length as a u32 at 4;
      bytes 1..3 keep their values. */
  function PrestatDirRecord(m: seq<Byte>, p: int, nameLen: int): (r: seq<Byte>)
    requires InBounds(p, PrestatSize, |m|)
    ensures |r| == |m|
    ensures r[p] == PreopentypeDir
    ensures Load(r, p + 4, 4) == ToUint32(nameLen)
    ensures forall i :: 0 <= i < |m| && !(p <= i < p + 1 || p + 4 <= i < p + 8) ==> r[i] == m[i]
  {
    var tagged := Store(m, p, [PreopentypeDir]);
    StoreLoadRoundTrip(tagged, p + 4, ToUint32(nameLen), 4);
    Store(tagged, p + 4, LeBytes(ToUint32(nameLen), 4))
  }

  /** `m` after the synthetic directory filestat is written at `p`: the 64
      bytes zero except the filetype byte at 16, which says directory. */
  function FilestatDirRecord(m: seq<Byte>, p: int): (r: seq<Byte>)
    requires InBounds(p, FilestatSize, |m|)
    ensures |r| == |m|
    ensures r[p + 16] == FiletypeDirectory
    ensures forall i :: p <= i < p + FilestatSize && i != p + 16 ==> r[i] == 0
    ensures forall i :: 0 <= i < |m| && !(p <= i < p + FilestatSize) ==> r[i] == m[i]
  {
    Store(Store(m, p, Repeat(0, FilestatSize)), p + 16, [FiletypeDirectory])
  }

  /** args_get: there are no arguments to copy. */
  function ArgsGet(argv: int, argvBuf: int): (status: int)
    ensures status == Esuccess
  {
    Esuccess
  }

  /** environ_get: there are no variables to copy. */
  function EnvironGet(environ: int, environBuf: int): (status: int)
    ensures status == Esuccess
  {
    Esuccess
  }

  /** proc_exit: reports success and takes no action; the host is not stopped. */
  function ProcExit(code: int): (status: int)
    ensures status == Esuccess
  {
    Esuccess
  }

  /** fd_fdstat_set_flags: accepted on the standard descriptors only. */
  function FdFdstatSetFlags(fd: int, flags: int): (status: int)
    ensures status == Esuccess <==> IsStdio(fd)
    ensures status == Esuccess || status == Ebadf
  {
    if fd != 0 && fd != 1 && fd != 2 then Ebadf else Esuccess
  }

  /** The calls of the emulator that touch memory, over the memory the
      guest has resolved so far (null until one is). */
  class Emulator {
    var memory: array?<Byte>

    constructor (resolved: array?<Byte>)
      ensures memory == resolved
    {
      memory := resolved;
    }

    /** Stores `value >>> 0` as four little-endian bytes at `ptr`. */
    method WriteU32(ptr: int, value: int)
      requires memory != null ==> InBounds(ptr, 4, memory.Length)
      modifies memory
      ensures memory != null ==> memory[..] == Store(old(memory[..]), ptr, LeBytes(ToUint32(value), 4))
    {
      if memory == null {
        return;
      }
      SetBytes(memory, ptr, LeBytes(ToUint32(value), 4));
    }

    /** Stores the low 32 bits of `value` at `ptr` and zero at `ptr + 4`. */
    method WriteU64(ptr: int, value: int)
      requires memory != null ==> InBounds(ptr, 8, memory.Length)
      modifies memory
      ensures memory != null ==> memory[..] == TruncatedU64Record(old(memory[..]), ptr, value)
    {
      if memory == null {
        return;
      }
      var low := ToUint32(value);
      SetBytes(memory, ptr, LeBytes(low, 4));
      SetBytes(memory, ptr + 4, LeBytes(0, 4));
    }

    /** Sets the `len` bytes at `ptr` to `value` (converted as a Uint8Array does). */
    method Fill(ptr: int, len: int, value: int)
      requires memory != null ==> InBounds(ptr, len, memory.Length)
      modifies memory
      ensures memory != null ==> memory[..] == Store(old(memory[..]), ptr, Repeat(ToUint8(value), len))
    {
      if memory == null {
        return;
      }
      SetBytes(memory, ptr, Repeat(ToUint8(value), len));
    }

    method WriteFdstat(ptr: int, filetype: Byte)
      requires memory != null ==> InBounds(ptr, FdstatSize, memory.Length)
      modifies memory
      ensures memory != null ==> memory[..] == FdstatRecord(old(memory[..]), ptr, filetype)
    {
      if memory == null {
        return;
      }
      SetBytes(memory, ptr, [filetype]);
      SetBytes(memory, ptr + 2, LeBytes(0, 2));
      SetBytes(memory, ptr + 8, LeBytes(0, 8));
      SetBytes(memory, ptr + 16, LeBytes(0, 8));
    }

    method WritePrestatDir(ptr: int, nameLen: int)
      requires memory != null ==> InBounds(ptr, PrestatSize, memory.Length)
      modifies memory
      ensures memory != null ==> memory[..] == PrestatDirRecord(old(memory[..]), ptr, nameLen)
    {
      if memory == null {
        return;
      }
      SetBytes(memory, ptr, [PreopentypeDir]);
      SetBytes(memory, ptr + 4, LeBytes(ToUint32(nameLen), 4));
    }

    method WriteFilestatDir(ptr: int)
      requires memory != null ==> InBounds(ptr, FilestatSize, memory.Length)
      modifies memory
      ensures memory != null ==> memory[..] == FilestatDirRecord(old(memory[..]), ptr)
    {
      if memory == null {
        return;
      }
      Fill(ptr, FilestatSize, 0);
      SetBytes(memory, ptr + 16, [FiletypeDirectory]);
    }

    /** args_sizes_get: zero arguments, zero bytes of argument strings. */
    method ArgsSizesGet(argc: int, argvBufSize: int) returns (status: int)
      requires memory != null ==> InBounds(argc, 4, memory.Length) && InBounds(argvBufSize, 4, memory.Length)
      modifies memory
      ensures status == Esuccess
      ensures memory != null ==> memory[..] == Store(Store(old(memory[..]), argc, LeBytes(0, 4)), argvBufSize, LeBytes(0, 4))
    {
      WriteU32(argc, 0);
      WriteU32(argvBufSize, 0);
      return Esuccess;
    }

    /** environ_sizes_get: zero variables, zero bytes of variable strings. */
    method EnvironSizesGet(count: int, bufSize: int) returns (status: int)
      requires memory != null ==> InBounds(count, 4, memory.Length) && InBounds(bufSize, 4, memory.Length)
      modifies memory
      ensures status == Esuccess
      ensures memory != null ==> memory[..] == Store(Store(old(memory[..]), count, LeBytes(0, 4)), bufSize, LeBytes(0, 4))
    {
      WriteU32(count, 0);
      WriteU32(bufSize, 0);
      return Esuccess;
    }

    /** clock_time_get: the time is always zero. */
    method ClockTimeGet(clockId: int, precision: int, timePtr: int) returns (status: int)
      requires memory != null ==> InBounds(timePtr, 8, memory.Length)
      modifies memory
      ensures status == Esuccess
      ensures memory != null ==> memory[..] == TruncatedU64Record(old(memory[..]), timePtr, 0)
    {
      WriteU64(timePtr, 0);
      return Esuccess;
    }

    /** random_get: the buffer is filled with zero bytes. */
    method RandomGet(bufPtr: int, bufLen: int) returns (status: int)
      requires memory != null ==> InBounds(bufPtr, bufLen, memory.Length)
      modifies memory
      ensures status == Esuccess
      ensures memory != null ==> memory[..] == Store(old(memory[..]), bufPtr, Repeat(0, bufLen))
    {
      Fill(bufPtr, bufLen, 0);
      return Esuccess;
    }

    /** fd_fdstat_get: character devices on 0..2, a directory on 3, EBADF otherwise. */
    method FdFdstatGet(fd: int, bufPtr: int) returns (status: int)
      requires memory != null && (IsStdio(fd) || IsPreopenDir(fd)) ==> InBounds(bufPtr, FdstatSize, memory.Length)
      modifies memory
      ensures status == (if IsStdio(fd) || IsPreopenDir(fd) then Esuccess else Ebadf)
      ensures memory != null && IsStdio(fd) ==> memory[..] == FdstatRecord(old(memory[..]), bufPtr, FiletypeCharacterDevice)
      ensures memory != null && IsPreopenDir(fd) ==> memory[..] == FdstatRecord(old(memory[..]), bufPtr, FiletypeDirectory)
      ensures memory != null && status == Ebadf ==> memory[..] == old(memory[..])
    {
      if fd == 0 || fd == 1 || fd == 2 {
        WriteFdstat(bufPtr, FiletypeCharacterDevice);
        return Esuccess;
      }
      if fd == 3 {
        WriteFdstat(bufPtr, FiletypeDirectory);
        return Esuccess;
      }
      return Ebadf;
    }

    /** fd_seek: the new offset is always zero. */
    method FdSeek(fd: int, offsetLow: int, offsetHigh: int, whence: int, newOffsetPtr: int) returns (status: int)
      requires memory != null ==> InBounds(newOffsetPtr, 8, memory.Length)
      modifies memory
      ensures status == Esuccess
      ensures memory != null ==> memory[..] == TruncatedU64Record(old(memory[..]), newOffsetPtr, 0)
    {
      WriteU64(newOffsetPtr, 0);
      return Esuccess;
    }

    /** fd_write: nothing is written anywhere; the number of bytes reported
        is the sum of the lengths of the `iovsLen` ciovecs at `iovs`. */
    method FdWrite(fd: int, iovs: int, iovsLen: int, writtenPtr: int) returns (status: int)
      requires memory != null ==> IovecsReadable(memory.Length, iovs, iovsLen) && InBounds(writtenPtr, 4, memory.Length)
      modifies memory
      ensures status == Esuccess
      ensures memory != null ==>
        memory[..] == Store(old(memory[..]), writtenPtr, LeBytes(ToUint32(IovecTotal(old(memory[..]), iovs, iovsLen)), 4))
    {
      if memory == null {
        WriteU32(writtenPtr, 0);
        return Esuccess;
      }
      ghost var m := memory[..];
      var written := 0;
      var i := 0;
      while i < iovsLen
        invariant 0 <= i <= (if iovsLen < 0 then 0 else iovsLen)
        invariant memory[..] == m
        invariant written == IovecTotal(m, iovs, i)
        decreases iovsLen - i
      {
        var base := iovs + i * 8;
        var len := Load(memory[..], base + 4, 4);
        written := written + len;
        i := i + 1;
      }
      assert written == IovecTotal(m, iovs, iovsLen);
      WriteU32(writtenPtr, written);
      return Esuccess;
    }

    /** path_filestat_get: a directory entry for descriptor 3, ENOENT otherwise. */
    method PathFilestatGet(fd: int, flags: int, pathPtr: int, pathLen: int, bufPtr: int) returns (status: int)
      requires memory != null && IsPreopenDir(fd) ==> InBounds(bufPtr, FilestatSize, memory.Length)
      modifies memory
      ensures status == (if IsPreopenDir(fd) then Esuccess else Enoent)
      ensures memory != null && IsPreopenDir(fd) ==> memory[..] == FilestatDirRecord(old(memory[..]), bufPtr)
      ensures memory != null && !IsPreopenDir(fd) ==> memory[..] == old(memory[..])
    {
      if fd == 3 {
        WriteFilestatDir(bufPtr);
        return Esuccess;
      }
      return Enoent;
    }

    /** fd_prestat_get: descriptor 3 is a preopened directory with a one-byte name. */
    method FdPrestatGet(fd: int, prestatPtr: int) returns (status: int)
      requires memory != null && IsPreopenDir(fd) ==> InBounds(prestatPtr, PrestatSize, memory.Length)
      modifies memory
      ensures status == (if IsPreopenDir(fd) then Esuccess else Ebadf)
      ensures memory != null && IsPreopenDir(fd) ==> memory[..] == PrestatDirRecord(old(memory[..]), prestatPtr, 1)
      ensures memory != null && !IsPreopenDir(fd) ==> memory[..] == old(memory[..])
    {
      if fd != 3 {
        return Ebadf;
      }
      WritePrestatDir(prestatPtr, 1);
      return Esuccess;
    }

    /** fd_prestat_dir_name: the name of descriptor 3 is ".". */
    method FdPrestatDirName(fd: int, pathPtr: int, pathLen: int) returns (status: int)
      requires memory != null && IsPreopenDir(fd) && pathLen >= 1 ==> InBounds(pathPtr, 1, memory.Length)
      modifies memory
      ensures status == (if !IsPreopenDir(fd) then Ebadf
                         else if pathLen < 1 || memory == null then Enotsup
                         else Esuccess)
      ensures memory != null && status == Esuccess ==> memory[..] == Store(old(memory[..]), pathPtr, [DotByte])
      ensures memory != null && status != Esuccess ==> memory[..] == old(memory[..])
    {
      if fd != 3 {
        return Ebadf;
      }
      if pathLen < 1 {
        return Enotsup;
      }
      if memory == null {
        return Enotsup;
      }
      SetBytes(memory, pathPtr, [DotByte]);
      return Esuccess;
    }
  }

  /** The ciovec array of `n` entries at `iovs` has its length words in a
      buffer of `size` bytes: entry i's length is the u32 at iovs + 8i + 4. */
  predicate IovecsReadable(size: int, iovs: int, n: int)
  {
    n <= 0 || (0 <= iovs + 4 && iovs + 8 * n <= size)
  }

  /** The sum of the lengths of the first `n` ciovecs at `iovs`. */
  function IovecTotal(m: seq<Byte>, iovs: int, n: int): (r: nat)
    requires IovecsReadable(|m|, iovs, n)
    ensures n <= 0 ==> r == 0
    ensures n > 0 ==> r < n * TwoTo32
    decreases n
  {
    if n <= 0 then 0
    else IovecTotal(m, iovs, n - 1) + Load(m, iovs + 8 * (n - 1) + 4, 4)
  }

  /** Byte `k` lies in the length word of one of the first `n` ciovecs at `iovs`. */
  predicate IsLengthByte(iovs: int, n: int, k: int)
  {
    iovs + 4 <= k < iovs + 8 * n && (k - iovs) % 8 >= 4
  }

  /** fd_write's count depends only on the length words: neither the buffer
      pointers nor the bytes they point at are read. */
  lemma {:induction false} IovecTotalReadsOnlyLengths(m1: seq<Byte>, m2: seq<Byte>, iovs: int, n: int)
    requires |m1| == |m2| && IovecsReadable(|m1|, iovs, n)
    requires forall k :: 0 <= k < |m1| && IsLengthByte(iovs, n, k) ==> m1[k] == m2[k]
    ensures IovecTotal(m1, iovs, n) == IovecTotal(m2, iovs, n)
    decreases n
  {
    if n > 0 {
      var base := iovs + 8 * (n - 1) + 4;
      forall k | base <= k < base + 4
        ensures IsLengthByte(iovs, n, k)
      {
        assert (k - iovs) % 8 == 4 + (k - base) by {
          DivModUnique(k - iovs, 8, n - 1, 4 + (k - base));
        }
      }
      assert m1[base..base + 4] == m2[base..base + 4];
      forall k | 0 <= k < |m1| && IsLengthByte(iovs, n - 1, k)
        ensures m1[k] == m2[k]
      {
        assert IsLengthByte(iovs, n, k);
      }
      IovecTotalReadsOnlyLengths(m1, m2, iovs, n - 1);
    }
  }

  /** The count fd_write stores reads back as the segment total modulo 2^32. */
  lemma WrittenCountReadsBack(m: seq<Byte>, iovs: int, n: int, writtenPtr: int)
    requires IovecsReadable(|m|, iovs, n) && InBounds(writtenPtr, 4, |m|)
    ensures Load(Store(m, writtenPtr, LeBytes(ToUint32(IovecTotal(m, iovs, n)), 4)), writtenPtr, 4)
            == IovecTotal(m, iovs, n) % TwoTo32
  {
    var t := ToUint32(IovecTotal(m, iovs, n));
    StoreLoadRoundTrip(m, writtenPtr, t, 4);
    Pow256Of4();
    DivModUnique(t, TwoTo32, 0, t);
  }

  /** Two segments of lengths 5 and 7 are reported as 12 bytes written. */
  lemma TwoSegmentsReportTwelve(m: seq<Byte>, iovs: int)
    requires IovecsReadable(|m|, iovs, 2)
    requires m[iovs + 4..iovs + 8] == [5, 0, 0, 0] && m[iovs + 12..iovs + 16] == [7, 0, 0, 0]
    ensures IovecTotal(m, iovs, 2) == 12
  {
    assert LeValue([0 as Byte]) == 0;
    assert LeValue([5, 0, 0, 0]) == 5;
    assert LeValue([7, 0, 0, 0]) == 7;
  }
}
