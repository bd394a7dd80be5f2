// The remote trace as the tracer sees it: an object tree addressed by
// paths, objects that are live once inserted, and `retain_values`, which
// clears the children of a container that are not listed.  The tracer
// only ever sends requests to the trace; a `Trace` records them in order
// and the state of the store is what those requests do to an empty one.

module TraceValues {

  /** A byte as the trace's register values carry it. */
  newtype byte = x: int | 0 <= x < 256

  /** An address: the name of its address space and an offset in it. */
  datatype Address = Address(space: string, offset: int)

  /** A register value as the register mappers produce it. */
  datatype RegVal = RegVal(name: string, bytes: seq<byte>)

  /** The kinds of value the tracer stores on trace objects. */
  datatype Val =
    | VNone
    | VBool(b: bool)
    | VInt(i: int)
    | VStr(s: string)
    | VAddr(addr: Address)
    | VRange(min: Address, length: int)
}

module TraceStore {
  import opened Wrappers
  import opened TraceValues
  import Arch

  /** One step of an object path: an element `[key]` or an attribute `name`. */
  datatype Seg = Elem(key: string) | Attr(name: string)

  /** An object path, such as `Sessions[local].Processes[1].Memory`. */
  type Path = seq<Seg>

  /** The key under which a child hangs off its container, as
      `retain_values` lists it: `[key]` for an element, the bare name for
      an attribute. */
  function KeyOf(s: Seg): (k: string)
    ensures s.Elem? ==> |k| == |s.key| + 2 && k[0] == '[' && k[|k| - 1] == ']'
  {
    match s
    case Elem(key) => "[" + key + "]"
    case Attr(name) => name
  }

  /** Element keys determine their bracketed form and back. */
  lemma ElemKeyInjective(a: string, b: string)
    requires KeyOf(Elem(a)) == KeyOf(Elem(b))
    ensures a == b
  {
    assert a == KeyOf(Elem(a))[1..|a| + 1];
    assert b == KeyOf(Elem(b))[1..|b| + 1];
  }

  /** The textual form of a path: attributes joined by `.`, elements
      appended in brackets. */
  function Render(p: Path): string
    decreases |p|
  {
    if |p| == 0 then ""
    else
      var last := p[|p| - 1];
      Render(p[..|p| - 1])
      + (match last
         case Elem(k) => "[" + k + "]"
         case Attr(n) => if |p| == 1 then n else "." + n)
  }

  /** Which children `retain_values` may clear. */
  datatype Kind = Elements | Attributes | Both

  predicate Selects(kind: Kind, s: Seg) {
    match s
    case Elem(_) => kind != Attributes
    case Attr(_) => kind != Elements
  }

  /** Retaining `keys` of `kind` on container `c` clears the child `q`. */
  predicate Prunes(c: Path, keys: seq<string>, kind: Kind, q: Path) {
    |q| == |c| + 1 && q[..|c|] == c && Selects(kind, q[|c|]) && KeyOf(q[|c|]) !in keys
  }

  /** The requests the tracer sends to the trace. */
  datatype Op =
    | CreateObject(path: Path)
    | SetValue(path: Path, key: string, value: Val)
    | InsertObject(path: Path)
    | RetainValues(container: Path, keys: seq<string>, kind: Kind)
    | CreateOverlaySpace(base: string, name: string)
    | PutRegisters(space: string, values: seq<RegVal>)
    | StartTx(description: string)
    | EndTx(committed: bool)

  /** An object: whether it is inserted in the tree, and its attribute values. */
  datatype Obj = Obj(live: bool, values: map<string, Val>)

  datatype StoreState = StoreState(
    objects: map<Path, Obj>,
    overlays: set<(string, string)>,
    registers: map<string, map<string, seq<byte>>>,
    openTx: Option<string>)

  const EmptyStore := StoreState(map[], {}, map[], None)

  const Detached := Obj(false, map[])

  function ObjAt(st: StoreState, p: Path): Obj {
    if p in st.objects then st.objects[p] else Detached
  }

  predicate LiveAt(st: StoreState, p: Path) {
    p in st.objects && st.objects[p].live
  }

  /** Registers put later win over earlier ones with the same name. */
  function PutAll(regs: map<string, seq<byte>>, values: seq<RegVal>): (r: map<string, seq<byte>>)
    ensures r.Keys == regs.Keys + set v | v in values :: v.name
    decreases |values|
  {
    if |values| == 0 then regs
    else
      var r := PutAll(regs[values[0].name := values[0].bytes], values[1..]);
      assert values == [values[0]] + values[1..];
      r
  }

  function RetainedObj(c: Path, keys: seq<string>, kind: Kind, q: Path, o: Obj): Obj {
    var o' := if Prunes(c, keys, kind, q) then o.(live := false) else o;
    if q == c && kind != Elements then o'.(values := map k | k in o'.values && k in keys :: o'.values[k])
    else o'
  }

  /** What one request does to the store. */
  function Apply(st: StoreState, op: Op): StoreState {
    match op
    case CreateObject(p) =>
      if p in st.objects then st else st.(objects := st.objects[p := Detached])
    case SetValue(p, k, v) =>
      var o := ObjAt(st, p);
      var vals := if v == VNone then o.values - {k} else o.values[k := v];
      st.(objects := st.objects[p := o.(values := vals)])
    case InsertObject(p) =>
      st.(objects := st.objects[p := ObjAt(st, p).(live := true)])
    case RetainValues(c, keys, kind) =>
      st.(objects := map q | q in st.objects :: RetainedObj(c, keys, kind, q, st.objects[q]))
    case CreateOverlaySpace(base, name) =>
      st.(overlays := st.overlays + {(base, name)})
    case PutRegisters(space, values) =>
      var regs := if space in st.registers then st.registers[space] else map[];
      st.(registers := st.registers[space := PutAll(regs, values)])
    case StartTx(d) => st.(openTx := Some(d))
    case EndTx(_) => st.(openTx := None)
  }

  /** What a sequence of requests does to the store, in order. */
  function Run(st: StoreState, ops: seq<Op>): StoreState
    decreases |ops|
  {
    if |ops| == 0 then st else Apply(Run(st, ops[..|ops| - 1]), ops[|ops| - 1])
  }

  /** The client side of one trace: the language and compiler it was
      created with, the mappers the tracer attaches to it, and the requests
      sent to it so far.  The register mapper is attached after the memory
      mapper and is missing when choosing it raised. */
  class Trace {
    const name: string
    const language: string
    const compiler: string
    const memoryMapper: Arch.MemoryMapper
    var registerMapper: Option<Arch.RegisterMapper>
    var requests: seq<Op>
    var closed: bool

    constructor (name: string, language: string, compiler: string, memoryMapper: Arch.MemoryMapper)
      ensures this.name == name && this.language == language && this.compiler == compiler
      ensures this.memoryMapper == memoryMapper
      ensures registerMapper == None && requests == [] && !closed
    {
      this.name := name;
      this.language := language;
      this.compiler := compiler;
      this.memoryMapper := memoryMapper;
      registerMapper := None;
      requests := [];
      closed := false;
    }

    method AttachRegisterMapper(m: Arch.RegisterMapper)
      modifies this`registerMapper
      ensures registerMapper == Some(m)
    {
      registerMapper := Some(m);
    }

    /** The store as the requests sent so far leave it. */
    function Store(): StoreState
      reads this
    {
      Run(EmptyStore, requests)
    }

    method CreateObject(p: Path)
      modifies this`requests
      ensures requests == old(requests) + [Op.CreateObject(p)]
    {
      requests := requests + [Op.CreateObject(p)];
    }

    method SetValue(p: Path, key: string, v: Val)
      modifies this`requests
      ensures requests == old(requests) + [Op.SetValue(p, key, v)]
    {
      requests := requests + [Op.SetValue(p, key, v)];
    }

    method Insert(p: Path)
      modifies this`requests
      ensures requests == old(requests) + [InsertObject(p)]
    {
      requests := requests + [InsertObject(p)];
    }

    method RetainValues(c: Path, keys: seq<string>, kind: Kind)
      modifies this`requests
      ensures requests == old(requests) + [Op.RetainValues(c, keys, kind)]
    {
      requests := requests + [Op.RetainValues(c, keys, kind)];
    }

    method CreateOverlaySpace(base: string, spaceName: string)
      modifies this`requests
      ensures requests == old(requests) + [Op.CreateOverlaySpace(base, spaceName)]
    {
      requests := requests + [Op.CreateOverlaySpace(base, spaceName)];
    }

    method PutRegisters(space: string, values: seq<RegVal>)
      modifies this`requests
      ensures requests == old(requests) + [Op.PutRegisters(space, values)]
    {
      requests := requests + [Op.PutRegisters(space, values)];
    }

    method StartTx(description: string)
      modifies this`requests
      ensures requests == old(requests) + [Op.StartTx(description)]
    {
      requests := requests + [Op.StartTx(description)];
    }

    method EndTx(commit: bool)
      modifies this`requests
      ensures requests == old(requests) + [Op.EndTx(commit)]
    {
      requests := requests + [Op.EndTx(commit)];
    }

    method Close()
      modifies this`closed
      ensures closed
    {
      closed := true;
    }
  }

  // ---------------------------------------------------------------------
  // Facts about the store
  // ---------------------------------------------------------------------

  /** Running two batches one after the other is running their concatenation. */
  lemma {:induction false} RunAppend(st: StoreState, a: seq<Op>, b: seq<Op>)
    ensures Run(st, a + b) == Run(Run(st, a), b)
    decreases |b|
  {
    if |b| > 0 {
      var ab := a + b;
      assert ab[..|ab| - 1] == a + b[..|b| - 1];
      assert ab[|ab| - 1] == b[|b| - 1];
      RunAppend(st, a, b[..|b| - 1]);
    } else {
      assert a + b == a;
    }
  }

  /** One more request is applied to the store the earlier ones left. */
  lemma RunSnoc(st: StoreState, ops: seq<Op>, op: Op)
    ensures Run(st, ops + [op]) == Apply(Run(st, ops), op)
  {
    assert (ops + [op])[..|ops|] == ops;
  }

  /** Requests other than starting and ending a transaction. */
  predicate TxFree(op: Op) {
    !op.StartTx? && !op.EndTx?
  }

  /** A batch without transaction requests leaves the open transaction as
      it was. */
  lemma {:induction false} RunTxFree(st: StoreState, ops: seq<Op>)
    requires forall i :: 0 <= i < |ops| ==> TxFree(ops[i])
    ensures Run(st, ops).openTx == st.openTx
    decreases |ops|
  {
    if |ops| > 0 {
      RunTxFree(st, ops[..|ops| - 1]);
    }
  }

  /** Appending such a batch to the requests already sent keeps the open
      transaction of the resulting store. */
  lemma AppendTxFree(st: StoreState, done: seq<Op>, ops: seq<Op>)
    requires forall i :: 0 <= i < |ops| ==> TxFree(ops[i])
    ensures Run(st, done + ops).openTx == Run(st, done).openTx
  {
    RunAppend(st, done, ops);
    RunTxFree(Run(st, done), ops);
  }

  /** The request `op` clears the child `q`. */
  predicate PrunesPath(op: Op, q: Path) {
    op.RetainValues? && Prunes(op.container, op.keys, op.kind, q)
  }

  /** One request: `q` is live afterwards iff it was live before or the
      request inserted it, unless the request is a retain that clears it. */
  lemma ApplyLive(st: StoreState, op: Op, q: Path)
    ensures LiveAt(Apply(st, op), q) <==> (LiveAt(st, q) || op == InsertObject(q)) && !PrunesPath(op, q)
  {
    match op
    case RetainValues(c, keys, kind) =>
      var st' := Apply(st, op);
      if q in st.objects {
        assert st'.objects[q] == RetainedObj(c, keys, kind, q, st.objects[q]);
      }
    case _ =>
  }

  /** Without a retain that clears `q`, a batch leaves `q` live iff it was
      live before or the batch inserts it. */
  lemma {:induction false} LiveAfter(st: StoreState, ops: seq<Op>, q: Path)
    requires forall i :: 0 <= i < |ops| ==> !PrunesPath(ops[i], q)
    ensures LiveAt(Run(st, ops), q) <==> LiveAt(st, q) || InsertObject(q) in ops
    decreases |ops|
  {
    if |ops| > 0 {
      var init := ops[..|ops| - 1];
      LiveAfter(st, init, q);
      ApplyLive(Run(st, init), ops[|ops| - 1], q);
      assert ops == init + [ops[|ops| - 1]];
      assert InsertObject(q) in ops <==> InsertObject(q) in init || ops[|ops| - 1] == InsertObject(q);
    }
  }

  /** After `retain_values(keys)` on `c`, an element child `c[k]` is live iff
      it was live before and `[k]` is listed. */
  lemma RetainElement(st: StoreState, c: Path, keys: seq<string>, kind: Kind, k: string)
    requires kind != Attributes
    ensures LiveAt(Apply(st, RetainValues(c, keys, kind)), c + [Elem(k)])
        <==> LiveAt(st, c + [Elem(k)]) && KeyOf(Elem(k)) in keys
  {
    var q := c + [Elem(k)];
    assert q[..|c|] == c && q[|c|] == Elem(k);
    ApplyLive(st, RetainValues(c, keys, kind), q);
  }

  /** A retain of elements leaves every path that is not an element child of
      the container as live as it was. */
  lemma RetainKeepsOthers(st: StoreState, c: Path, keys: seq<string>, q: Path)
    requires !(|q| == |c| + 1 && q[..|c|] == c && q[|c|].Elem?)
    ensures LiveAt(Apply(st, RetainValues(c, keys, Elements)), q) <==> LiveAt(st, q)
  {
    ApplyLive(st, RetainValues(c, keys, Elements), q);
  }
}
