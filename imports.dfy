/** Synthesis of the import namespace: every import the compiled module
    declares gets a binding, real or inert, so that instantiation never fails
    on an unresolved import. */
module Imports {
  import opened LinearMemory
  import Wasi

  /** The namespace whose functions the emulator answers. */
  const WasiModule := "wasi_snapshot_preview1"

  /** Initial size, in pages, of a memory the host creates for a memory import. */
  const InitialPages: nat := 256

  /** The kinds `WebAssembly.Module.imports` reports: "function", "table",
      "memory", "global" and "tag". */
  datatype ExternKind = FunctionKind | TableKind | MemoryKind | GlobalKind | TagKind

  /** One entry of `WebAssembly.Module.imports`. */
  datatype ImportDescriptor = ImportDescriptor(moduleName: string, name: string, kind: ExternKind)

  /** What an import is bound to. */
  datatype Binding =
    | WasiEntry(shim: Wasi.Emulator, name: string)  // the emulator's entry of that name
    | ConstantFunction(result: int)                 // a function ignoring its arguments
    | MemoryBinding(buffer: array<Byte>)            // a host-created memory
    | EmptyFuncrefTable                             // a funcref table with no elements
    | ZeroValue                                     // the number 0

  type Namespace = map<string, map<string, Binding>>

  /** The binding of a function import: the emulator's entry for a WASI name
      it knows, a stub answering ENOTSUP for a WASI name it does not, and a
      stub answering 0 for a function of any other namespace. */
  function FunctionBinding(moduleName: string, name: string, shim: Wasi.Emulator): (b: Binding)
    ensures b.WasiEntry? <==> moduleName == WasiModule && name in Wasi.EntryNames
    ensures b.WasiEntry? ==> b == WasiEntry(shim, name)
    ensures b.ConstantFunction? <==> !(moduleName == WasiModule && name in Wasi.EntryNames)
    ensures b.ConstantFunction? ==> b.result == if moduleName == WasiModule then Wasi.Enotsup else 0
  {
    if moduleName == WasiModule then
      if name in Wasi.EntryNames then WasiEntry(shim, name) else ConstantFunction(Wasi.Enotsup)
    else
      ConstantFunction(0)
  }

  predicate Bound(ns: Namespace, moduleName: string, name: string)
  {
    moduleName in ns && name in ns[moduleName]
  }

  function Lookup(ns: Namespace, moduleName: string, name: string): Binding
    requires Bound(ns, moduleName, name)
  {
    ns[moduleName][name]
  }

  /** `ns` with `(moduleName, name)` bound to `b`, the namespace object created on first use. */
  function Bind(ns: Namespace, moduleName: string, name: string, b: Binding): (r: Namespace)
    ensures Bound(r, moduleName, name) && Lookup(r, moduleName, name) == b
    ensures forall m, n :: Bound(r, m, n) <==> Bound(ns, m, n) || (m == moduleName && n == name)
    ensures forall m, n :: Bound(ns, m, n) && (m != moduleName || n != name) ==> Lookup(r, m, n) == Lookup(ns, m, n)
  {
    var target := if moduleName in ns then ns[moduleName] else map[];
    ns[moduleName := target[name := b]]
  }

  predicate SameKey(d: ImportDescriptor, e: ImportDescriptor)
  {
    d.moduleName == e.moduleName && d.name == e.name
  }

  /** No descriptor after `i` has the same key as `descs[i]`. */
  predicate LastOfKey(descs: seq<ImportDescriptor>, i: int)
    requires 0 <= i < |descs|
  {
    forall j :: i < j < |descs| ==> !SameKey(descs[j], descs[i])
  }

  /** `descs[i]` is the last memory import. */
  predicate LastMemoryImport(descs: seq<ImportDescriptor>, i: int)
    requires 0 <= i < |descs|
  {
    descs[i].kind == MemoryKind && forall j :: i < j < |descs| ==> descs[j].kind != MemoryKind
  }

  /** The binding descriptor `d` gets; `buffer` is the memory created for it
      when it is a memory import. */
  function BindingFor(d: ImportDescriptor, shim: Wasi.Emulator, buffer: array?<Byte>): (b: Binding)
    requires d.kind == MemoryKind ==> buffer != null
    ensures b.WasiEntry? || b.ConstantFunction? <==> d.kind == FunctionKind
    ensures b.MemoryBinding? <==> d.kind == MemoryKind
    ensures b == EmptyFuncrefTable <==> d.kind == TableKind
    ensures b == ZeroValue <==> d.kind == GlobalKind || d.kind == TagKind
  {
    match d.kind
    case FunctionKind => FunctionBinding(d.moduleName, d.name, shim)
    case MemoryKind => MemoryBinding(buffer)
    case TableKind => EmptyFuncrefTable
    case _ => ZeroValue
  }

  /** `buffers[i]` is a memory exactly for the memory imports. */
  predicate BuffersFit(descs: seq<ImportDescriptor>, buffers: seq<array?<Byte>>)
  {
    |buffers| == |descs| && forall i :: 0 <= i < |descs| ==> (descs[i].kind == MemoryKind <==> buffers[i] != null)
  }

  lemma BuffersFitAppend(descs: seq<ImportDescriptor>, k: int, buffers: seq<array?<Byte>>, buffer: array?<Byte>)
    requires 0 <= k < |descs| && BuffersFit(descs[..k], buffers)
    requires descs[k].kind == MemoryKind <==> buffer != null
    ensures BuffersFit(descs[..k + 1], buffers + [buffer])
    ensures (buffers + [buffer])[..k] == buffers
  {
    var nb := buffers + [buffer];
    forall i | 0 <= i < k + 1
      ensures descs[..k + 1][i].kind == MemoryKind <==> nb[i] != null
    {
      if i < k {
        assert descs[..k + 1][i] == descs[..k][i];
      }
    }
  }

  /** The namespace the descriptors produce, bound in order. */
  function Synthesize(descs: seq<ImportDescriptor>, shim: Wasi.Emulator, buffers: seq<array?<Byte>>): Namespace
    requires BuffersFit(descs, buffers)
    decreases |descs|
  {
    if descs == [] then map[]
    else
      var k := |descs| - 1;
      Bind(Synthesize(descs[..k], shim, buffers[..k]), descs[k].moduleName, descs[k].name,
           BindingFor(descs[k], shim, buffers[k]))
  }

  /** The memory created for the last memory import, null when there is none. */
  function ResolvedMemory(descs: seq<ImportDescriptor>, buffers: seq<array?<Byte>>): array?<Byte>
    requires BuffersFit(descs, buffers)
    decreases |descs|
  {
    if descs == [] then null
    else
      var k := |descs| - 1;
      if descs[k].kind == MemoryKind then buffers[k] else ResolvedMemory(descs[..k], buffers[..k])
  }

  /** Every declared import is bound. */
  lemma {:induction false} SynthesizeIsTotal(descs: seq<ImportDescriptor>, shim: Wasi.Emulator, buffers: seq<array?<Byte>>, i: int)
    requires BuffersFit(descs, buffers) && 0 <= i < |descs|
    ensures Bound(Synthesize(descs, shim, buffers), descs[i].moduleName, descs[i].name)
    decreases |descs|
  {
    var k := |descs| - 1;
    if i < k {
      SynthesizeIsTotal(descs[..k], shim, buffers[..k], i);
    }
  }

  /** Only declared imports are bound. */
  lemma {:induction false} SynthesizeBindsOnlyDeclared(descs: seq<ImportDescriptor>, shim: Wasi.Emulator, buffers: seq<array?<Byte>>, m: string, n: string)
    requires BuffersFit(descs, buffers) && Bound(Synthesize(descs, shim, buffers), m, n)
    ensures exists i :: 0 <= i < |descs| && descs[i].moduleName == m && descs[i].name == n
    decreases |descs|
  {
    var k := |descs| - 1;
    if !(descs[k].moduleName == m && descs[k].name == n) {
      SynthesizeBindsOnlyDeclared(descs[..k], shim, buffers[..k], m, n);
      var i :| 0 <= i < k && descs[..k][i].moduleName == m && descs[..k][i].name == n;
      assert descs[i] == descs[..k][i];
    }
  }

  /** The last descriptor of a key decides its binding. */
  lemma {:induction false} SynthesizeLastWins(descs: seq<ImportDescriptor>, shim: Wasi.Emulator, buffers: seq<array?<Byte>>, i: int)
    requires BuffersFit(descs, buffers) && 0 <= i < |descs| && LastOfKey(descs, i)
    ensures Bound(Synthesize(descs, shim, buffers), descs[i].moduleName, descs[i].name) &&
            Lookup(Synthesize(descs, shim, buffers), descs[i].moduleName, descs[i].name)
            == BindingFor(descs[i], shim, buffers[i])
    decreases |descs|
  {
    SynthesizeIsTotal(descs, shim, buffers, i);
    var k := |descs| - 1;
    if i < k {
      assert !SameKey(descs[k], descs[i]);
      assert LastOfKey(descs[..k], i) by {
        forall j | i < j < k ensures !SameKey(descs[..k][j], descs[..k][i]) {
          assert !SameKey(descs[j], descs[i]);
        }
      }
      SynthesizeLastWins(descs[..k], shim, buffers[..k], i);
    }
  }

  /** The resolved memory is null exactly when nothing imports a memory, and
      is otherwise the buffer of the last memory import. */
  lemma {:induction false} ResolvedMemoryIsLastImported(descs: seq<ImportDescriptor>, buffers: seq<array?<Byte>>)
    requires BuffersFit(descs, buffers)
    ensures ResolvedMemory(descs, buffers) == null <==> forall i :: 0 <= i < |descs| ==> descs[i].kind != MemoryKind
    ensures forall i :: 0 <= i < |descs| && LastMemoryImport(descs, i) ==> ResolvedMemory(descs, buffers) == buffers[i]
    decreases |descs|
  {
    if descs != [] {
      var k := |descs| - 1;
      ResolvedMemoryIsLastImported(descs[..k], buffers[..k]);
      forall i | 0 <= i < k && LastMemoryImport(descs, i)
        ensures LastMemoryImport(descs[..k], i)
      {
        assert forall j :: i < j < k ==> descs[..k][j] == descs[j];
      }
      if descs[k].kind != MemoryKind {
        assert forall i :: 0 <= i < k ==> descs[..k][i] == descs[i];
      }
    }
  }

  /** The resolved memory is what the last memory import is bound to,
      unless a later import with the same key replaced that binding. */
  lemma ResolvedMemoryIsBound(descs: seq<ImportDescriptor>, shim: Wasi.Emulator, buffers: seq<array?<Byte>>, i: int)
    requires BuffersFit(descs, buffers) && 0 <= i < |descs| && LastMemoryImport(descs, i) && LastOfKey(descs, i)
    ensures ResolvedMemory(descs, buffers) != null && Bound(Synthesize(descs, shim, buffers), descs[i].moduleName, descs[i].name) &&
            Lookup(Synthesize(descs, shim, buffers), descs[i].moduleName, descs[i].name)
            == MemoryBinding(ResolvedMemory(descs, buffers))
  {
    SynthesizeLastWins(descs, shim, buffers, i);
    ResolvedMemoryIsLastImported(descs, buffers);
  }

  /** The binding for one descriptor; a memory import creates a new memory
      of `InitialPages` pages, returned as `buffer`. */
  method ResolveImport(d: ImportDescriptor, wasi: Wasi.Emulator) returns (b: Binding, ghost buffer: array?<Byte>)
    ensures d.kind == MemoryKind <==> buffer != null
    ensures buffer != null ==> fresh(buffer) && buffer.Length == InitialPages * PageSize
    ensures b == BindingFor(d, wasi, buffer)
  {
    buffer := null;
    if d.kind == FunctionKind {
      b := FunctionBinding(d.moduleName, d.name, wasi);
    } else if d.kind == MemoryKind {
      var created := new Byte[InitialPages * PageSize];
      buffer := created;
      b := MemoryBinding(created);
    } else if d.kind == TableKind {
      b := EmptyFuncrefTable;
    } else {
      b := ZeroValue;
    }
  }

  /** Binding one more descriptor extends the synthesized namespace and
      the resolved memory by that descriptor alone. */
  lemma SynthesizeStep(descs: seq<ImportDescriptor>, k: int, shim: Wasi.Emulator, buffers: seq<array?<Byte>>, buffer: array?<Byte>)
    requires 0 <= k < |descs| && BuffersFit(descs[..k], buffers)
    requires descs[k].kind == MemoryKind <==> buffer != null
    ensures BuffersFit(descs[..k + 1], buffers + [buffer])
    ensures Synthesize(descs[..k + 1], shim, buffers + [buffer])
            == Bind(Synthesize(descs[..k], shim, buffers), descs[k].moduleName, descs[k].name, BindingFor(descs[k], shim, buffer))
    ensures ResolvedMemory(descs[..k + 1], buffers + [buffer])
            == if descs[k].kind == MemoryKind then buffer else ResolvedMemory(descs[..k], buffers)
  {
    BuffersFitAppend(descs, k, buffers, buffer);
    assert descs[..k + 1][..k] == descs[..k];
  }

  /** Builds the namespace for the imports `descs`, in order; `buffers`
      names the memory created for each memory import. The returned memory
      is the one created for the last memory import, and the emulator, whose
      memory accessor reads the same variable, resolves its memory to it. */
  method BuildImports(descs: seq<ImportDescriptor>)
      returns (imports: Namespace, memory: array?<Byte>, wasi: Wasi.Emulator, ghost buffers: seq<array?<Byte>>)
    ensures BuffersFit(descs, buffers)
    ensures forall i :: 0 <= i < |buffers| && buffers[i] != null ==>
              fresh(buffers[i]) && buffers[i].Length == InitialPages * PageSize
    ensures forall i, j :: 0 <= i < j < |buffers| && buffers[i] != null && buffers[j] != null ==> buffers[i] != buffers[j]
    ensures fresh(wasi) && wasi.memory == memory
    ensures imports == Synthesize(descs, wasi, buffers)
    ensures memory == ResolvedMemory(descs, buffers)
  {
    imports := map[];
    memory := null;
    wasi := new Wasi.Emulator(null);
    buffers := [];
    for k := 0 to |descs|
      invariant BuffersFit(descs[..k], buffers)
      invariant forall i :: 0 <= i < |buffers| && buffers[i] != null ==>
                  fresh(buffers[i]) && buffers[i].Length == InitialPages * PageSize
      invariant forall i, j :: 0 <= i < j < |buffers| && buffers[i] != null && buffers[j] != null ==> buffers[i] != buffers[j]
      invariant fresh(wasi)
      invariant imports == Synthesize(descs[..k], wasi, buffers)
      invariant memory == ResolvedMemory(descs[..k], buffers)
    {
      var d := descs[k];
      var b, buffer := ResolveImport(d, wasi);
      if d.kind == MemoryKind {
        memory := b.buffer;
      }
      imports := Bind(imports, d.moduleName, d.name, b);
      SynthesizeStep(descs, k, wasi, buffers, buffer);
      buffers := buffers + [buffer];
    }
    assert descs[..|descs|] == descs;
    wasi.memory := memory;
  }
}
