/** The sync callbacks of the command layer.  Each receives the reply of a
    script run in the target, walks its records in order, creates one trace
    object per record under a bracketed key, appends that key to a list and,
    once every record is written, retains exactly the listed keys on the
    container.  A record that raises ends the callback before the retain.

    The effect of a callback is specified record by record: a `Step` holds
    the requests one record sends, the notes it stores in `current_state`,
    the keys it appends and the exception it raises, if any; `Chain` runs
    steps until the first one that raises, and `Finish` adds the retain. */
module Sync {
  import opened Wrappers
  import opened PyText
  import opened TraceValues
  import opened TraceStore
  import opened Arch
  import opened Util
  import Session

  // ---------------------------------------------------------------------
  // Replies
  // ---------------------------------------------------------------------

  /** The decoded payload of a script's reply: the `value` list of records
      and, for scripts run with data, the `data` it echoes back. */
  datatype Payload<R> = Payload(value: seq<R>, data: Option<string>)

  /** A reply: none at all, an error report, or a sent message with or
      without a payload. */
  datatype Message<R> = NoMessage | ErrorMessage(description: string) | SendMessage(payload: Option<Payload<R>>)

  /** `get_values_from_callback`: the records of a payload, and none for
      anything else. */
  function ValuesOf<R>(m: Message<R>): (rs: seq<R>)
    ensures m.SendMessage? && m.payload.Some? ==> rs == m.payload.value.value
    ensures !(m.SendMessage? && m.payload.Some?) ==> rs == []
  {
    match m
    case SendMessage(Some(p)) => p.value
    case _ => []
  }

  /** `get_data_from_callback` as the sections callback formats it: without
      a payload the empty dictionary, which formats as `{}`; a payload
      without `data` raises. */
  function DataOf<R>(m: Message<R>): (r: Result<string>)
    ensures !(m.SendMessage? && m.payload.Some?) ==> r == Ok("{}")
    ensures m.SendMessage? && m.payload.Some? ==>
      (if m.payload.value.data.Some? then r == Ok(m.payload.value.data.value) else r == Err(KeyError("data")))
  {
    match m
    case SendMessage(Some(p)) => if p.data.Some? then Ok(p.data.value) else Err(KeyError("data"))
    case _ => Ok("{}")
  }

  // ---------------------------------------------------------------------
  // Python formatting of values
  // ---------------------------------------------------------------------

  function AddressRepr(a: Address): string {
    "Address(space='" + a.space + "', offset=" + Dec(a.offset) + ")"
  }

  /** Python `str(v)` (and `'{}'.format(v)`). */
  function PyStr(v: Val): string {
    match v
    case VNone => "None"
    case VBool(b) => if b then "True" else "False"
    case VInt(n) => Dec(n)
    case VStr(s) => s
    case VAddr(a) => AddressRepr(a)
    case VRange(min, length) => "AddressRange(min=" + AddressRepr(min) + ", length=" + Dec(length) + ")"
  }

  /** Python `'{:x}'.format(v)`: integers and booleans only. */
  function FormatHex(v: Val): (r: Result<string>)
    ensures r.Ok? <==> v.VInt? || v.VBool?
    ensures v.VInt? ==> r == Ok(HexFmt(v.i))
    ensures v.VStr? ==> r.Err? && r.error.ValueError?
    ensures v.VNone? || v.VAddr? || v.VRange? ==> r.Err? && r.error.TypeError?
  {
    match v
    case VInt(n) => Ok(HexFmt(n))
    case VBool(b) => Ok(if b then "1" else "0")
    case VStr(_) => Err(ValueError("Unknown format code 'x' for object of type 'str'"))
    case VNone => Err(TypeError("unsupported format string passed to NoneType.__format__"))
    case VAddr(_) => Err(TypeError("unsupported format string passed to Address.__format__"))
    case VRange(_, _) => Err(TypeError("unsupported format string passed to AddressRange.__format__"))
  }

  /** `" " + s` when a field is present, nothing otherwise. */
  function Opt(s: Option<string>): string {
    if s.Some? then " " + s.value else ""
  }

  /** Python `a == b` between an integer id and a selected value. */
  predicate IdMatches(id: int, v: Val) {
    match v
    case VInt(n) => id == n
    case VBool(b) => id == (if b then 1 else 0)
    case _ => false
  }

  // ---------------------------------------------------------------------
  // Object paths
  // ---------------------------------------------------------------------

  function ProcessPath(sid: Val, pid: Val): Path {
    [Attr("Sessions"), Elem(PyStr(sid)), Attr("Processes"), Elem(PyStr(pid))]
  }

  function RegionsPath(sid: Val, pid: Val): Path { ProcessPath(sid, pid) + [Attr("Memory")] }

  function ModulesPath(sid: Val, pid: Val): Path { ProcessPath(sid, pid) + [Attr("Modules")] }

  function SectionsPath(sid: Val, pid: Val, modpath: string): Path {
    ModulesPath(sid, pid) + [Elem(modpath), Attr("Sections")]
  }

  function ThreadsPath(sid: Val, pid: Val): Path { ProcessPath(sid, pid) + [Attr("Threads")] }

  function ThreadPath(sid: Val, pid: Val, tid: Val): Path { ThreadsPath(sid, pid) + [Elem(PyStr(tid))] }

  function RegsPath(sid: Val, pid: Val, tid: Val): Path { ThreadPath(sid, pid, tid) + [Attr("Registers")] }

  function FramesPath(sid: Val, pid: Val, tid: Val): Path { ThreadPath(sid, pid, tid) + [Attr("Stack")] }

  function ClassesPath(sid: Val, pid: Val): Path { ProcessPath(sid, pid) + [Attr("Classes")] }

  function MethodsPath(sid: Val, pid: Val, key: string): Path {
    ClassesPath(sid, pid) + [Elem(key), Attr("Methods")]
  }

  /** The key under which an element is listed for `retain_values`. */
  function Bracket(k: string): string { "[" + k + "]" }

  // ---------------------------------------------------------------------
  // Steps and their chaining
  // ---------------------------------------------------------------------

  /** What one record does: the requests it sends, the `current_state`
      entries it writes, the keys it appends and the exception that ends
      the callback, if one is raised. */
  datatype Step = Step(ops: seq<Op>, notes: seq<(string, Val)>, keys: seq<string>, error: Option<Exc>)

  const NoStep := Step([], [], [], None)

  /** `b` after `a`, unless `a` raised. */
  function Then(a: Step, b: Step): Step {
    if a.error.Some? then a else Step(a.ops + b.ops, a.notes + b.notes, a.keys + b.keys, b.error)
  }

  /** The steps in order, up to and including the first that raises. */
  function Chain(steps: seq<Step>): Step
    decreases |steps|
  {
    if |steps| == 0 then NoStep else Then(Chain(steps[..|steps| - 1]), steps[|steps| - 1])
  }

  /** The `current_state` dictionary after a sequence of writes. */
  function ApplyNotes(m: map<string, Val>, notes: seq<(string, Val)>): map<string, Val>
    decreases |notes|
  {
    if |notes| == 0 then m
    else ApplyNotes(m, notes[..|notes| - 1])[notes[|notes| - 1].0 := notes[|notes| - 1].1]
  }

  lemma ApplyNotesSnoc(m: map<string, Val>, notes: seq<(string, Val)>, k: string, v: Val)
    ensures ApplyNotes(m, notes + [(k, v)]) == ApplyNotes(m, notes)[k := v]
  {
    assert (notes + [(k, v)])[..|notes|] == notes;
  }

  /** The whole effect of a callback. */
  datatype Effect = Effect(ops: seq<Op>, notes: seq<(string, Val)>, outcome: Outcome)

  /** A callback whose steps all succeed retains exactly their keys on the
      container; one that raised sends no retain. */
  function Finish(container: Path, s: Step): (e: Effect)
    ensures e.notes == s.notes
    ensures e.outcome.Pass? <==> s.error.None?
    ensures s.error.None? ==> e.ops == s.ops + [RetainValues(container, s.keys, Elements)]
    ensures s.error.Some? ==> e.ops == s.ops && e.outcome == Fail(s.error.value)
  {
    if s.error.Some? then Effect(s.ops, s.notes, Fail(s.error.value))
    else Effect(s.ops + [RetainValues(container, s.keys, Elements)], s.notes, Pass)
  }

  lemma ChainSnoc(steps: seq<Step>, i: nat)
    requires i < |steps|
    ensures Chain(steps[..i + 1]) == Then(Chain(steps[..i]), steps[i])
  {
    assert steps[..i + 1][..i] == steps[..i];
  }

  /** Once a prefix raised, the rest of the steps change nothing. */
  lemma {:induction false} ChainStops(steps: seq<Step>, i: nat)
    requires i <= |steps| && Chain(steps[..i]).error.Some?
    ensures Chain(steps) == Chain(steps[..i])
    decreases |steps| - i
  {
    if i < |steps| {
      ChainSnoc(steps, i);
      ChainStops(steps, i + 1);
    } else {
      assert steps[..i] == steps;
    }
  }

  lemma {:induction false} ApplyNotesAppend(m: map<string, Val>, a: seq<(string, Val)>, b: seq<(string, Val)>)
    ensures ApplyNotes(m, a + b) == ApplyNotes(ApplyNotes(m, a), b)
    decreases |b|
  {
    if |b| == 0 {
      assert a + b == a;
    } else {
      assert (a + b)[..|a + b| - 1] == a + b[..|b| - 1];
      ApplyNotesAppend(m, a, b[..|b| - 1]);
    }
  }

  /** The step invariant of every callback loop, advanced by one record. */
  lemma Advance(steps: seq<Step>, i: nat, done: seq<Op>, state: map<string, Val>)
    requires i < |steps| && Chain(steps[..i]).error.None?
    ensures var c := Chain(steps[..i + 1]);
      && c.ops == Chain(steps[..i]).ops + steps[i].ops
      && c.keys == Chain(steps[..i]).keys + steps[i].keys
      && c.error == steps[i].error
      && ApplyNotes(state, c.notes) == ApplyNotes(ApplyNotes(state, Chain(steps[..i]).notes), steps[i].notes)
      && (c.error.Some? ==> Chain(steps) == c)
  {
    ChainSnoc(steps, i);
    ApplyNotesAppend(state, Chain(steps[..i]).notes, steps[i].notes);
    if steps[i].error.Some? {
      ChainStops(steps, i + 1);
    }
  }

  /** The loop has visited every step. */
  lemma ChainAll(steps: seq<Step>)
    ensures Chain(steps[..|steps|]) == Chain(steps)
  {
    assert steps[..|steps|] == steps;
  }

  // ---------------------------------------------------------------------
  // Records
  // ---------------------------------------------------------------------

  datatype FileInfo = FileInfo(path: string, offset: int, size: int)

  /** A memory range as `enumerateRanges` reports it, for regions and
      module sections alike. */
  datatype RangeRecord = RangeRecord(base: string, size: int, protection: string, file: Option<FileInfo>)

  datatype ModuleRecord = ModuleRecord(name: string, path: string, base: string, size: int)

  /** A thread with its register context, in the context's key order. */
  datatype ThreadRecord = ThreadRecord(id: int, name: Option<string>, state: Option<string>, context: seq<(string, string)>)

  datatype FrameRecord = FrameRecord(
    address: string,
    name: Option<string>,
    moduleName: Option<string>,
    fileName: Option<string>,
    lineNumber: Option<int>,
    column: Option<int>)

  /** A loaded class; each field may be missing from the record. */
  datatype ClassRecord = ClassRecord(name: Option<string>, path: Option<string>, methods: Option<seq<string>>)

  // ---------------------------------------------------------------------
  // Regions and sections
  // ---------------------------------------------------------------------

  function RangeDisplay(base: string, size: int, tag: string): string {
    base + ":" + HexFmt(size) + " " + tag + " "
  }

  /** A `set_value` sent only when the value is present. */
  function OptSet(p: Path, key: string, v: Option<Val>): seq<Op> {
    if v.Some? then [SetValue(p, key, v.value)] else []
  }

  method PutOpt(t: Trace, p: Path, key: string, v: Option<Val>)
    modifies t`requests
    ensures t.requests == old(t.requests) + OptSet(p, key, v)
  {
    if v.Some? {
      t.SetValue(p, key, v.value);
    }
  }

  /** The `File` attribute of a mapped range: path, then offset and size in
      hexadecimal. */
  function FileVal(file: Option<FileInfo>): Option<Val> {
    if file.None? then None
    else
      var f := file.value;
      Some(VStr(f.path + " " + HexFmt(f.offset) + ":" + HexFmt(f.size)))
  }

  /** The object's `_display`, then its insertion: how every record ends. */
  function Shown(p: Path, display: string): seq<Op> {
    [SetValue(p, "_display", VStr(display)), InsertObject(p)]
  }

  method PutShown(t: Trace, p: Path, display: string)
    modifies t`requests
    ensures t.requests == old(t.requests) + Shown(p, display)
  {
    t.SetValue(p, "_display", VStr(display));
    t.Insert(p);
  }

  lemma Assoc<T>(r: seq<T>, a: seq<T>, b: seq<T>)
    ensures r + a + b == r + (a + b)
  {
  }

  lemma Assoc3<T>(r: seq<T>, a: seq<T>, b: seq<T>, c: seq<T>)
    ensures r + a + b + c == r + (a + b + c)
  {
  }

  lemma Assoc4<T>(r: seq<T>, a: seq<T>, b: seq<T>, c: seq<T>, d: seq<T>)
    ensures r + a + b + c + d == r + (a + b + c + d)
  {
  }

  /** The attributes every range gets, between the optional offset and the
      optional file. */
  function RangeAttrs(p: Path, addr: Address, r: RangeRecord): seq<Op> {
    [SetValue(p, "_range", VRange(addr, r.size)), SetValue(p, "Base", VStr(r.base)),
     SetValue(p, "Size", VStr(PyHex(r.size))), SetValue(p, "Protection", VStr(r.protection))]
  }

  /** The attributes of a range object once its base is known. */
  function RangeFields(p: Path, addr: Address, r: RangeRecord, withOffset: bool): seq<Op> {
    OptSet(p, "_offset", if withOffset then Some(VAddr(addr)) else None)
    + RangeAttrs(p, addr, r)
    + OptSet(p, "File", FileVal(r.file))
    + Shown(p, RangeDisplay(r.base, r.size, r.protection))
  }

  /** One record of `put_regions_callback` (`withOffset`) or of
      `put_sections_callback`: the object is created and its key appended
      before the base is read as an integer, which may raise. */
  function RangeStep(container: Path, pid: Val, m: MemoryMapper, r: RangeRecord, withOffset: bool): Step {
    var p := container + [Elem(r.base)];
    match ParseInt0(r.base)
    case Err(e) => Step([CreateObject(p)], [], [Bracket(r.base)], Some(e))
    case Ok(v) =>
      Step([CreateObject(p)] + RangeFields(p, Map(m, pid, v).1, r, withOffset),
           [(r.base, VInt(r.size))], [Bracket(r.base)], None)
  }

  function RangeSteps(container: Path, pid: Val, m: MemoryMapper, rs: seq<RangeRecord>, withOffset: bool): seq<Step> {
    seq(|rs|, i requires 0 <= i < |rs| => RangeStep(container, pid, m, rs[i], withOffset))
  }

  function RegionsSync(sid: Val, pid: Val, m: MemoryMapper, rs: seq<RangeRecord>): Effect {
    Finish(RegionsPath(sid, pid), Chain(RangeSteps(RegionsPath(sid, pid), pid, m, rs, true)))
  }

  function SectionsSync(sid: Val, pid: Val, modpath: string, m: MemoryMapper, rs: seq<RangeRecord>): Effect {
    var c := SectionsPath(sid, pid, modpath);
    Finish(c, Chain(RangeSteps(c, pid, m, rs, false)))
  }

  /** The fixed attributes of a range; the size is noted under the base as
      they are written. */
  method PutRangeAttrs(t: Trace, g: Globals, p: Path, addr: Address, r: RangeRecord)
    modifies t`requests, g`currentState
    ensures t.requests == old(t.requests) + RangeAttrs(p, addr, r)
    ensures g.currentState == old(g.currentState)[r.base := VInt(r.size)]
  {
    t.SetValue(p, "_range", VRange(addr, r.size));
    t.SetValue(p, "Base", VStr(r.base));
    t.SetValue(p, "Size", VStr(PyHex(r.size)));
    g.Note(r.base, VInt(r.size));
    t.SetValue(p, "Protection", VStr(r.protection));
  }

  method PutRangeFields(t: Trace, g: Globals, p: Path, addr: Address, r: RangeRecord, withOffset: bool)
    modifies t`requests, g`currentState
    ensures t.requests == old(t.requests) + RangeFields(p, addr, r, withOffset)
    ensures g.currentState == old(g.currentState)[r.base := VInt(r.size)]
  {
    var offset := if withOffset then Some(VAddr(addr)) else None;
    PutOpt(t, p, "_offset", offset);
    PutRangeAttrs(t, g, p, addr, r);
    PutOpt(t, p, "File", FileVal(r.file));
    PutShown(t, p, RangeDisplay(r.base, r.size, r.protection));
    Assoc4(old(t.requests), OptSet(p, "_offset", offset), RangeAttrs(p, addr, r), OptSet(p, "File", FileVal(r.file)),
      Shown(p, RangeDisplay(r.base, r.size, r.protection)));
  }

  method PutRange(t: Trace, g: Globals, container: Path, pid: Val, r: RangeRecord, withOffset: bool)
    returns (key: string, error: Option<Exc>)
    modifies t`requests, g`currentState
    ensures var s := RangeStep(container, pid, t.memoryMapper, r, withOffset);
      && t.requests == old(t.requests) + s.ops
      && g.currentState == ApplyNotes(old(g.currentState), s.notes)
      && [key] == s.keys && error == s.error
  {
    var p := container + [Elem(r.base)];
    t.CreateObject(p);
    key := Bracket(r.base);
    var v := ParseInt0(r.base);
    if v.Err? {
      return key, Some(v.error);
    }
    var (_, addr) := Map(t.memoryMapper, pid, v.value);
    PutRangeFields(t, g, p, addr, r, withOffset);
    Assoc(old(t.requests), [CreateObject(p)], RangeFields(p, addr, r, withOffset));
    assert ApplyNotes(old(g.currentState), [(r.base, VInt(r.size))]) == g.currentState;
    error := None;
  }

  /** The loop shared by the regions and sections callbacks. */
  method PutRanges(t: Trace, g: Globals, container: Path, pid: Val, rs: seq<RangeRecord>, withOffset: bool)
    returns (o: Outcome)
    modifies t`requests, g`currentState
    ensures var e := Finish(container, Chain(RangeSteps(container, pid, t.memoryMapper, rs, withOffset)));
      && t.requests == old(t.requests) + e.ops
      && g.currentState == ApplyNotes(old(g.currentState), e.notes)
      && o == e.outcome
  {
    ghost var steps := RangeSteps(container, pid, t.memoryMapper, rs, withOffset);
    var keys: seq<string> := [];
    var i := 0;
    while i < |rs|
      invariant 0 <= i <= |rs|
      invariant Chain(steps[..i]).error.None?
      invariant t.requests == old(t.requests) + Chain(steps[..i]).ops
      invariant g.currentState == ApplyNotes(old(g.currentState), Chain(steps[..i]).notes)
      invariant keys == Chain(steps[..i]).keys
    {
      var key, error := PutRange(t, g, container, pid, rs[i], withOffset);
      Advance(steps, i, old(t.requests), old(g.currentState));
      Assoc(old(t.requests), Chain(steps[..i]).ops, steps[i].ops);
      keys := keys + [key];
      if error.Some? {
        return Fail(error.value);
      }
      i := i + 1;
    }
    ChainAll(steps);
    t.RetainValues(container, keys, Elements);
    Assoc(old(t.requests), Chain(steps).ops, [RetainValues(container, keys, Elements)]);
    o := Pass;
  }

  /** `put_regions_callback`. */
  method PutRegionsCallback(t: Trace, g: Globals, reply: Message<RangeRecord>) returns (o: Outcome)
    modifies t`requests, g`currentState
    ensures var e := RegionsSync(old(g.SelectedSession()), old(g.SelectedProcess()), t.memoryMapper, ValuesOf(reply));
      && t.requests == old(t.requests) + e.ops
      && g.currentState == ApplyNotes(old(g.currentState), e.notes)
      && o == e.outcome
  {
    var values := ValuesOf(reply);
    var sid := g.SelectedSession();
    var pid := g.SelectedProcess();
    o := PutRanges(t, g, RegionsPath(sid, pid), pid, values, true);
  }

  /** `put_sections_callback`: the module path is the data the script
      echoes back. */
  method PutSectionsCallback(t: Trace, g: Globals, reply: Message<RangeRecord>) returns (o: Outcome)
    modifies t`requests, g`currentState
    ensures DataOf(reply).Err? ==> o == Fail(DataOf(reply).error) && unchanged(t, g)
    ensures var d := DataOf(reply);
      d.Ok? ==>
        var e := SectionsSync(old(g.SelectedSession()), old(g.SelectedProcess()), d.value, t.memoryMapper, ValuesOf(reply));
        && t.requests == old(t.requests) + e.ops
        && g.currentState == ApplyNotes(old(g.currentState), e.notes)
        && o == e.outcome
  {
    var values := ValuesOf(reply);
    var cbdata := DataOf(reply);
    if cbdata.Err? {
      return Fail(cbdata.error);
    }
    var sid := g.SelectedSession();
    var pid := g.SelectedProcess();
    o := PutRanges(t, g, SectionsPath(sid, pid, cbdata.value), pid, values, false);
  }

  // ---------------------------------------------------------------------
  // Modules
  // ---------------------------------------------------------------------

  /** The containers every module object gets. */
  const ModuleParts: seq<string> := ["Sections", "Exports", "Imports", "Symbols", "Dependencies"]

  function PartOps(p: Path, parts: seq<string>): seq<Op>
    decreases |parts|
  {
    if |parts| == 0 then []
    else PartOps(p, parts[..|parts| - 1]) + [CreateObject(p + [Attr(parts[|parts| - 1])]), InsertObject(p + [Attr(parts[|parts| - 1])])]
  }

  /** The attributes of a module object once its base is known. */
  function ModuleAttrs(p: Path, addr: Address, r: ModuleRecord): seq<Op> {
    [SetValue(p, "_range", VRange(addr, r.size)), SetValue(p, "_module_name", VStr(r.name)),
     SetValue(p, "Name", VStr(r.name)), SetValue(p, "Path", VStr(r.path)), SetValue(p, "Base", VStr(r.base)),
     SetValue(p, "Size", VStr(PyHex(r.size)))]
    + Shown(p, RangeDisplay(r.base, r.size, r.name))
  }

  /** One record of `put_modules_callback`: the module's address is stored
      first, then the object is created and its key appended, then the base
      is read as an integer. */
  function ModuleStep(sid: Val, pid: Val, m: MemoryMapper, r: ModuleRecord): Step {
    var p := ModulesPath(sid, pid) + [Elem(r.path)];
    match ParseInt0(r.base)
    case Err(e) => Step([CreateObject(p)], [(r.path, VStr(r.base))], [Bracket(r.path)], Some(e))
    case Ok(v) =>
      Step([CreateObject(p)] + ModuleAttrs(p, Map(m, pid, v).1, r) + PartOps(p, ModuleParts),
           [(r.path, VStr(r.base)), (r.path, VStr(r.base)), (r.base, VInt(r.size))], [Bracket(r.path)], None)
  }

  function ModuleSteps(sid: Val, pid: Val, m: MemoryMapper, rs: seq<ModuleRecord>): seq<Step> {
    seq(|rs|, i requires 0 <= i < |rs| => ModuleStep(sid, pid, m, rs[i]))
  }

  function ModulesSync(sid: Val, pid: Val, m: MemoryMapper, rs: seq<ModuleRecord>): Effect {
    Finish(ModulesPath(sid, pid), Chain(ModuleSteps(sid, pid, m, rs)))
  }

  method PutParts(t: Trace, p: Path, parts: seq<string>)
    modifies t`requests
    ensures t.requests == old(t.requests) + PartOps(p, parts)
  {
    var i := 0;
    while i < |parts|
      invariant 0 <= i <= |parts|
      invariant t.requests == old(t.requests) + PartOps(p, parts[..i])
    {
      assert parts[..i + 1][..i] == parts[..i];
      t.CreateObject(p + [Attr(parts[i])]);
      t.Insert(p + [Attr(parts[i])]);
      i := i + 1;
    }
    assert parts[..|parts|] == parts;
  }

  /** The attributes of a module; its path and size are noted as they are
      written. */
  method PutModuleAttrs(t: Trace, g: Globals, p: Path, addr: Address, r: ModuleRecord)
    modifies t`requests, g`currentState
    ensures t.requests == old(t.requests) + ModuleAttrs(p, addr, r)
    ensures g.currentState == old(g.currentState)[r.path := VStr(r.base)][r.base := VInt(r.size)]
  {
    t.SetValue(p, "_range", VRange(addr, r.size));
    t.SetValue(p, "_module_name", VStr(r.name));
    t.SetValue(p, "Name", VStr(r.name));
    t.SetValue(p, "Path", VStr(r.path));
    t.SetValue(p, "Base", VStr(r.base));
    t.SetValue(p, "Size", VStr(PyHex(r.size)));
    g.Note(r.path, VStr(r.base));
    g.Note(r.base, VInt(r.size));
    PutShown(t, p, RangeDisplay(r.base, r.size, r.name));
  }

  method PutModule(t: Trace, g: Globals, sid: Val, pid: Val, r: ModuleRecord) returns (key: string, error: Option<Exc>)
    modifies t`requests, g`currentState
    ensures var s := ModuleStep(sid, pid, t.memoryMapper, r);
      && t.requests == old(t.requests) + s.ops
      && g.currentState == ApplyNotes(old(g.currentState), s.notes)
      && [key] == s.keys && error == s.error
  {
    g.PutModuleAddress(r.path, VStr(r.base));
    var p := ModulesPath(sid, pid) + [Elem(r.path)];
    t.CreateObject(p);
    key := Bracket(r.path);
    var v := ParseInt0(r.base);
    if v.Err? {
      assert ApplyNotes(old(g.currentState), [(r.path, VStr(r.base))]) == g.currentState;
      return key, Some(v.error);
    }
    var (_, addr) := Map(t.memoryMapper, pid, v.value);
    PutModuleAttrs(t, g, p, addr, r);
    PutParts(t, p, ModuleParts);
    Assoc3(old(t.requests), [CreateObject(p)], ModuleAttrs(p, addr, r), PartOps(p, ModuleParts));
    ghost var first := [(r.path, VStr(r.base))];
    assert ApplyNotes(old(g.currentState), first) == old(g.currentState)[r.path := VStr(r.base)];
    ApplyNotesSnoc(old(g.currentState), first, r.path, VStr(r.base));
    ApplyNotesSnoc(old(g.currentState), first + [(r.path, VStr(r.base))], r.base, VInt(r.size));
    assert first + [(r.path, VStr(r.base))] + [(r.base, VInt(r.size))]
      == [(r.path, VStr(r.base)), (r.path, VStr(r.base)), (r.base, VInt(r.size))];
    error := None;
  }

  /** `put_modules_callback`. */
  method PutModulesCallback(t: Trace, g: Globals, reply: Message<ModuleRecord>) returns (o: Outcome)
    modifies t`requests, g`currentState
    ensures var e := ModulesSync(old(g.SelectedSession()), old(g.SelectedProcess()), t.memoryMapper, ValuesOf(reply));
      && t.requests == old(t.requests) + e.ops
      && g.currentState == ApplyNotes(old(g.currentState), e.notes)
      && o == e.outcome
  {
    var values := ValuesOf(reply);
    var sid := g.SelectedSession();
    var pid := g.SelectedProcess();
    ghost var steps := ModuleSteps(sid, pid, t.memoryMapper, values);
    var keys: seq<string> := [];
    var i := 0;
    while i < |values|
      invariant 0 <= i <= |values|
      invariant Chain(steps[..i]).error.None?
      invariant t.requests == old(t.requests) + Chain(steps[..i]).ops
      invariant g.currentState == ApplyNotes(old(g.currentState), Chain(steps[..i]).notes)
      invariant keys == Chain(steps[..i]).keys
    {
      var key, error := PutModule(t, g, sid, pid, values[i]);
      Advance(steps, i, old(t.requests), old(g.currentState));
      Assoc(old(t.requests), Chain(steps[..i]).ops, steps[i].ops);
      keys := keys + [key];
      if error.Some? {
        return Fail(error.value);
      }
      i := i + 1;
    }
    ChainAll(steps);
    t.RetainValues(ModulesPath(sid, pid), keys, Elements);
    Assoc(old(t.requests), Chain(steps).ops, [RetainValues(ModulesPath(sid, pid), keys, Elements)]);
    o := Pass;
  }

  // ---------------------------------------------------------------------
  // Registers
  // ---------------------------------------------------------------------

  /** One register of a context: its text read as a Python literal, then
      mapped; either failure drops the register. */
  function MapOne(m: RegisterMapper, entry: (string, string)): Option<RegVal> {
    match ParseInt0(entry.1)
    case Err(_) => None
    case Ok(v) =>
      match MapValue(m, entry.0, v)
      case Err(_) => None
      case Ok(rv) => Some(rv)
  }

  /** The values a context contributes to `put_registers`, in order. */
  function MapRegisters(m: RegisterMapper, ctx: seq<(string, string)>): seq<RegVal>
    decreases |ctx|
  {
    if |ctx| == 0 then []
    else
      var last := MapOne(m, ctx[|ctx| - 1]);
      MapRegisters(m, ctx[..|ctx| - 1]) + (if last.Some? then [last.value] else [])
  }

  /** The raw text of every register, as the threads callback stores it
      before mapping. */
  function RawSets(p: Path, ctx: seq<(string, string)>): seq<Op>
    decreases |ctx|
  {
    if |ctx| == 0 then []
    else RawSets(p, ctx[..|ctx| - 1]) + [SetValue(p, ctx[|ctx| - 1].0, VStr(ctx[|ctx| - 1].1))]
  }

  /** The raw text of the registers that map, as `put_reg_callback` stores
      it after mapping. */
  function MappedSets(p: Path, m: RegisterMapper, ctx: seq<(string, string)>): seq<Op>
    decreases |ctx|
  {
    if |ctx| == 0 then []
    else
      var last := ctx[|ctx| - 1];
      MappedSets(p, m, ctx[..|ctx| - 1]) + (if MapOne(m, last).Some? then [SetValue(p, last.0, VStr(last.1))] else [])
  }

  /** One more register: what each of the three register functions adds. */
  lemma RegistersSnoc(p: Path, m: RegisterMapper, ctx: seq<(string, string)>, i: nat)
    requires i < |ctx|
    ensures var e := ctx[i];
      var mapped := MapOne(m, e);
      && RawSets(p, ctx[..i + 1]) == RawSets(p, ctx[..i]) + [SetValue(p, e.0, VStr(e.1))]
      && MappedSets(p, m, ctx[..i + 1]) == MappedSets(p, m, ctx[..i]) + (if mapped.Some? then [SetValue(p, e.0, VStr(e.1))] else [])
      && MapRegisters(m, ctx[..i + 1]) == MapRegisters(m, ctx[..i]) + (if mapped.Some? then [mapped.value] else [])
  {
    assert ctx[..i + 1][..i] == ctx[..i];
  }

  /** The registers of the threads callback: every raw value stored, the
      mappable ones collected. */
  method PutRawRegisters(t: Trace, p: Path, m: RegisterMapper, ctx: seq<(string, string)>) returns (values: seq<RegVal>)
    modifies t`requests
    ensures t.requests == old(t.requests) + RawSets(p, ctx)
    ensures values == MapRegisters(m, ctx)
  {
    values := [];
    var i := 0;
    while i < |ctx|
      invariant 0 <= i <= |ctx|
      invariant t.requests == old(t.requests) + RawSets(p, ctx[..i])
      invariant values == MapRegisters(m, ctx[..i])
    {
      RegistersSnoc(p, m, ctx, i);
      var (r, rval) := ctx[i];
      t.SetValue(p, r, VStr(rval));
      Assoc(old(t.requests), RawSets(p, ctx[..i]), [SetValue(p, r, VStr(rval))]);
      var mapped := MapOne(m, (r, rval));
      if mapped.Some? {
        values := values + [mapped.value];
      }
      i := i + 1;
    }
    assert ctx[..|ctx|] == ctx;
  }

  /** The registers of `put_reg_callback`: a raw value is stored only once
      its register mapped. */
  method PutMappedRegisters(t: Trace, p: Path, m: RegisterMapper, ctx: seq<(string, string)>) returns (values: seq<RegVal>)
    modifies t`requests
    ensures t.requests == old(t.requests) + MappedSets(p, m, ctx)
    ensures values == MapRegisters(m, ctx)
  {
    values := [];
    var i := 0;
    while i < |ctx|
      invariant 0 <= i <= |ctx|
      invariant t.requests == old(t.requests) + MappedSets(p, m, ctx[..i])
      invariant values == MapRegisters(m, ctx[..i])
    {
      RegistersSnoc(p, m, ctx, i);
      var (r, rval) := ctx[i];
      var mapped := MapOne(m, (r, rval));
      if mapped.Some? {
        values := values + [mapped.value];
        t.SetValue(p, r, VStr(rval));
        Assoc(old(t.requests), MappedSets(p, m, ctx[..i]), [SetValue(p, r, VStr(rval))]);
      }
      i := i + 1;
    }
    assert ctx[..|ctx|] == ctx;
  }

  // ---------------------------------------------------------------------
  // Threads
  // ---------------------------------------------------------------------

  const NoRegisterMapper := AttributeError("'Trace' object has no attribute 'register_mapper'")

  /** `compute_thread_display`, given the process id already formatted. */
  function ThreadDisplay(i: int, pidHex: string, r: ThreadRecord): string {
    Dec(i) + " " + pidHex + ":" + HexFmt(r.id) + Opt(r.name) + Opt(r.state)
  }

  function NameVal(name: Option<string>): Val {
    if name.Some? then VStr(name.value) else VNone
  }

  /** The thread object as first written: created, then its id and name. */
  function ThreadHead(p: Path, r: ThreadRecord): seq<Op> {
    [CreateObject(p), SetValue(p, "_tid", VInt(r.id)), SetValue(p, "Name", NameVal(r.name))]
  }

  /** The thread's displays and state, its insertion, then its register
      container in a register overlay space named after it. */
  function ThreadShown(p: Path, regs: Path, i: int, px: string, r: ThreadRecord): seq<Op> {
    [SetValue(p, "_short_display", VStr(HexFmt(i) + " " + px + ":" + HexFmt(r.id))),
     SetValue(p, "_display", VStr(ThreadDisplay(i, px, r))),
     SetValue(p, "_state", VStr("STOPPED")), InsertObject(p),
     CreateOverlaySpace("register", Render(regs)), CreateObject(regs), InsertObject(regs)]
  }

  /** Every raw register value, then the mapped values in one
      `put_registers`, then the thread's stack container. */
  function ThreadRegs(p: Path, regs: Path, m: RegisterMapper, ctx: seq<(string, string)>): seq<Op> {
    RawSets(regs, ctx)
    + [PutRegisters(Render(regs), MapRegisters(m, ctx)), CreateObject(p + [Attr("Stack")]), InsertObject(p + [Attr("Stack")])]
  }

  /** One record of `put_threads_callback`, the `i`-th: the thread is
      selected, its object created and its key appended, its id and name
      set; formatting the process id may raise; then the displays, the
      registers and the stack container follow.  A trace without a register
      mapper raises once the register object exists. */
  function ThreadStep(sid: Val, pid: Val, rm: Option<RegisterMapper>, i: int, r: ThreadRecord): Step {
    var p := ThreadPath(sid, pid, VInt(r.id));
    var regs := RegsPath(sid, pid, VInt(r.id));
    var notes := [("tid", VInt(r.id))];
    var keys := [Bracket(Dec(r.id))];
    match FormatHex(pid)
    case Err(e) => Step(ThreadHead(p, r), notes, keys, Some(e))
    case Ok(px) =>
      if rm.None? then Step(ThreadHead(p, r) + ThreadShown(p, regs, i, px, r), notes, keys, Some(NoRegisterMapper))
      else Step(ThreadHead(p, r) + ThreadShown(p, regs, i, px, r) + ThreadRegs(p, regs, rm.value, r.context), notes, keys, None)
  }

  function ThreadSteps(sid: Val, pid: Val, rm: Option<RegisterMapper>, rs: seq<ThreadRecord>): seq<Step> {
    seq(|rs|, i requires 0 <= i < |rs| => ThreadStep(sid, pid, rm, i, rs[i]))
  }

  function ThreadsSync(sid: Val, pid: Val, rm: Option<RegisterMapper>, rs: seq<ThreadRecord>): Effect {
    Finish(ThreadsPath(sid, pid), Chain(ThreadSteps(sid, pid, rm, rs)))
  }

  method PutThreadShown(t: Trace, p: Path, regs: Path, i: int, px: string, r: ThreadRecord)
    modifies t`requests
    ensures t.requests == old(t.requests) + ThreadShown(p, regs, i, px, r)
  {
    t.SetValue(p, "_short_display", VStr(HexFmt(i) + " " + px + ":" + HexFmt(r.id)));
    t.SetValue(p, "_display", VStr(ThreadDisplay(i, px, r)));
    t.SetValue(p, "_state", VStr("STOPPED"));
    t.Insert(p);
    t.CreateOverlaySpace("register", Render(regs));
    t.CreateObject(regs);
    t.Insert(regs);
  }

  method PutThreadRegs(t: Trace, p: Path, regs: Path, m: RegisterMapper, ctx: seq<(string, string)>)
    modifies t`requests
    ensures t.requests == old(t.requests) + ThreadRegs(p, regs, m, ctx)
  {
    var values := PutRawRegisters(t, regs, m, ctx);
    t.PutRegisters(Render(regs), values);
    t.CreateObject(p + [Attr("Stack")]);
    t.Insert(p + [Attr("Stack")]);
    Assoc(old(t.requests), RawSets(regs, ctx),
      [PutRegisters(Render(regs), values), CreateObject(p + [Attr("Stack")]), InsertObject(p + [Attr("Stack")])]);
  }

  method PutThread(t: Trace, g: Globals, sid: Val, pid: Val, i: int, r: ThreadRecord) returns (key: string, error: Option<Exc>)
    modifies t`requests, g`currentState
    ensures var s := ThreadStep(sid, pid, t.registerMapper, i, r);
      && t.requests == old(t.requests) + s.ops
      && g.currentState == ApplyNotes(old(g.currentState), s.notes)
      && [key] == s.keys && error == s.error
  {
    g.SelectThread(VInt(r.id));
    assert ApplyNotes(old(g.currentState), [("tid", VInt(r.id))]) == g.currentState;
    var p := ThreadPath(sid, pid, VInt(r.id));
    t.CreateObject(p);
    key := Bracket(Dec(r.id));
    t.SetValue(p, "_tid", VInt(r.id));
    t.SetValue(p, "Name", NameVal(r.name));
    assert t.requests == old(t.requests) + ThreadHead(p, r);
    var px := FormatHex(pid);
    if px.Err? {
      return key, Some(px.error);
    }
    var regs := RegsPath(sid, pid, VInt(r.id));
    PutThreadShown(t, p, regs, i, px.value, r);
    Assoc(old(t.requests), ThreadHead(p, r), ThreadShown(p, regs, i, px.value, r));
    if t.registerMapper.None? {
      return key, Some(NoRegisterMapper);
    }
    PutThreadRegs(t, p, regs, t.registerMapper.value, r.context);
    Assoc3(old(t.requests), ThreadHead(p, r), ThreadShown(p, regs, i, px.value, r),
      ThreadRegs(p, regs, t.registerMapper.value, r.context));
    error := None;
  }

  /** `put_threads_callback`. */
  method PutThreadsCallback(t: Trace, g: Globals, reply: Message<ThreadRecord>) returns (o: Outcome)
    modifies t`requests, g`currentState
    ensures var e := ThreadsSync(old(g.SelectedSession()), old(g.SelectedProcess()), t.registerMapper, ValuesOf(reply));
      && t.requests == old(t.requests) + e.ops
      && g.currentState == ApplyNotes(old(g.currentState), e.notes)
      && o == e.outcome
  {
    var values := ValuesOf(reply);
    var sid := g.SelectedSession();
    var pid := g.SelectedProcess();
    ghost var steps := ThreadSteps(sid, pid, t.registerMapper, values);
    var keys: seq<string> := [];
    var i := 0;
    while i < |values|
      invariant 0 <= i <= |values|
      invariant Chain(steps[..i]).error.None?
      invariant t.requests == old(t.requests) + Chain(steps[..i]).ops
      invariant g.currentState == ApplyNotes(old(g.currentState), Chain(steps[..i]).notes)
      invariant keys == Chain(steps[..i]).keys
    {
      var key, error := PutThread(t, g, sid, pid, i, values[i]);
      assert steps[i] == ThreadStep(sid, pid, t.registerMapper, i, values[i]);
      Advance(steps, i, old(t.requests), old(g.currentState));
      Assoc(old(t.requests), Chain(steps[..i]).ops, steps[i].ops);
      keys := keys + [key];
      if error.Some? {
        return Fail(error.value);
      }
      i := i + 1;
    }
    ChainAll(steps);
    t.RetainValues(ThreadsPath(sid, pid), keys, Elements);
    Assoc(old(t.requests), Chain(steps).ops, [RetainValues(ThreadsPath(sid, pid), keys, Elements)]);
    o := Pass;
  }

  /** The context of the first record whose id equals the selected thread. */
  function FindContext(rs: seq<ThreadRecord>, tid: Val): (r: Option<seq<(string, string)>>)
    ensures r.Some? <==> exists j :: 0 <= j < |rs| && IdMatches(rs[j].id, tid)
    ensures r.Some? ==>
      exists j :: 0 <= j < |rs| && IdMatches(rs[j].id, tid) && r.value == rs[j].context
        && forall i :: 0 <= i < j ==> !IdMatches(rs[i].id, tid)
    decreases |rs|
  {
    if |rs| == 0 then None
    else if IdMatches(rs[0].id, tid) then Some(rs[0].context)
    else
      var rest := FindContext(rs[1..], tid);
      assert forall j :: 1 <= j < |rs| ==> rs[j] == rs[1..][j - 1];
      rest
  }

  /** The register container of a thread: a register overlay space named
      after it, then the object. */
  function RegsHead(regs: Path): seq<Op> {
    [CreateOverlaySpace("register", Render(regs)), CreateObject(regs), InsertObject(regs)]
  }

  /** `put_reg_callback`: the selected thread's registers, or nothing when
      the reply does not list it. */
  function PutRegEffect(sid: Val, pid: Val, tid: Val, rm: Option<RegisterMapper>, rs: seq<ThreadRecord>): Effect {
    match FindContext(rs, tid)
    case None => Effect([], [], Pass)
    case Some(ctx) =>
      var regs := RegsPath(sid, pid, tid);
      if rm.None? then Effect(RegsHead(regs), [], Fail(NoRegisterMapper))
      else Effect(RegsHead(regs) + MappedSets(regs, rm.value, ctx) + [PutRegisters(Render(regs), MapRegisters(rm.value, ctx))], [], Pass)
  }

  /** The first record whose id is the selected thread. */
  method FindThread(rs: seq<ThreadRecord>, tid: Val) returns (context: Option<seq<(string, string)>>)
    ensures context == FindContext(rs, tid)
  {
    var i := 0;
    while i < |rs|
      invariant 0 <= i <= |rs|
      invariant FindContext(rs, tid) == FindContext(rs[i..], tid)
    {
      if IdMatches(rs[i].id, tid) {
        return Some(rs[i].context);
      }
      assert rs[i..][1..] == rs[i + 1..];
      i := i + 1;
    }
    assert rs[i..] == [];
    return None;
  }

  method PutRegCallback(t: Trace, g: Globals, reply: Message<ThreadRecord>) returns (o: Outcome)
    modifies t`requests
    ensures var e := PutRegEffect(g.SelectedSession(), g.SelectedProcess(), g.SelectedThread(), t.registerMapper, ValuesOf(reply));
      t.requests == old(t.requests) + e.ops && o == e.outcome
  {
    var values := ValuesOf(reply);
    var sid := g.SelectedSession();
    var pid := g.SelectedProcess();
    var tid := g.SelectedThread();
    var context := FindThread(values, tid);
    if context.None? {
      return Pass;
    }
    var regs := RegsPath(sid, pid, tid);
    t.CreateOverlaySpace("register", Render(regs));
    t.CreateObject(regs);
    t.Insert(regs);
    assert t.requests == old(t.requests) + RegsHead(regs);
    if t.registerMapper.None? {
      return Fail(NoRegisterMapper);
    }
    var mapped := PutMappedRegisters(t, regs, t.registerMapper.value, context.value);
    t.PutRegisters(Render(regs), mapped);
    Assoc3(old(t.requests), RegsHead(regs), MappedSets(regs, t.registerMapper.value, context.value), [PutRegisters(Render(regs), mapped)]);
    o := Pass;
  }

  // ---------------------------------------------------------------------
  // Frames
  // ---------------------------------------------------------------------

  /** `compute_frame_display`: the level and address, then each present
      field in the order name, module, file, line, column. */
  function FrameDisplay(level: int, f: FrameRecord): string {
    var d := "#" + Dec(level) + " " + f.address;
    var d := d + Opt(f.name);
    var d := d + Opt(f.moduleName);
    var d := d + Opt(f.fileName);
    var d := d + Opt(if f.lineNumber.Some? then Some(Dec(f.lineNumber.value)) else None);
    d + Opt(if f.column.Some? then Some(Dec(f.column.value)) else None)
  }

  function StrVal(s: Option<string>): Option<Val> {
    if s.Some? then Some(VStr(s.value)) else None
  }

  function IntVal(n: Option<int>): Option<Val> {
    if n.Some? then Some(VInt(n.value)) else None
  }

  /** The optional attributes of a frame, in the order they are set. */
  function FrameFields(p: Path, f: FrameRecord): seq<Op> {
    OptSet(p, "Name", StrVal(f.name))
    + (OptSet(p, "_func", StrVal(f.moduleName)) + OptSet(p, "Module", StrVal(f.moduleName)))
    + OptSet(p, "File", StrVal(f.fileName))
    + (OptSet(p, "Line #", IntVal(f.lineNumber)) + OptSet(p, "Column #", IntVal(f.column)))
  }

  /** One record of `put_frames_callback`, at stack level `level`: the frame
      object is created and its key appended before the address is read as
      an integer, which may raise. */
  function FrameStep(sid: Val, pid: Val, tid: Val, m: MemoryMapper, level: int, f: FrameRecord): Step {
    var p := FramesPath(sid, pid, tid) + [Elem(Dec(level))];
    match ParseInt0(f.address)
    case Err(e) => Step([CreateObject(p)], [], [Bracket(Dec(level))], Some(e))
    case Ok(v) =>
      Step([CreateObject(p), SetValue(p, "_pc", VAddr(Map(m, pid, v).1))] + FrameFields(p, f) + Shown(p, FrameDisplay(level, f)),
           [], [Bracket(Dec(level))], None)
  }

  function FrameSteps(sid: Val, pid: Val, tid: Val, m: MemoryMapper, fs: seq<FrameRecord>): seq<Step> {
    seq(|fs|, i requires 0 <= i < |fs| => FrameStep(sid, pid, tid, m, i, fs[i]))
  }

  function FramesSync(sid: Val, pid: Val, tid: Val, m: MemoryMapper, fs: seq<FrameRecord>): Effect {
    Finish(FramesPath(sid, pid, tid), Chain(FrameSteps(sid, pid, tid, m, fs)))
  }

  method PutFrameFields(t: Trace, p: Path, f: FrameRecord)
    modifies t`requests
    ensures t.requests == old(t.requests) + FrameFields(p, f)
  {
    PutOpt(t, p, "Name", StrVal(f.name));
    ghost var r1 := t.requests;
    PutOpt(t, p, "_func", StrVal(f.moduleName));
    PutOpt(t, p, "Module", StrVal(f.moduleName));
    Assoc(r1, OptSet(p, "_func", StrVal(f.moduleName)), OptSet(p, "Module", StrVal(f.moduleName)));
    PutOpt(t, p, "File", StrVal(f.fileName));
    ghost var r2 := t.requests;
    PutOpt(t, p, "Line #", IntVal(f.lineNumber));
    PutOpt(t, p, "Column #", IntVal(f.column));
    Assoc(r2, OptSet(p, "Line #", IntVal(f.lineNumber)), OptSet(p, "Column #", IntVal(f.column)));
    Assoc4(old(t.requests), OptSet(p, "Name", StrVal(f.name)),
      OptSet(p, "_func", StrVal(f.moduleName)) + OptSet(p, "Module", StrVal(f.moduleName)),
      OptSet(p, "File", StrVal(f.fileName)),
      OptSet(p, "Line #", IntVal(f.lineNumber)) + OptSet(p, "Column #", IntVal(f.column)));
  }

  method PutFrame(t: Trace, sid: Val, pid: Val, tid: Val, level: int, f: FrameRecord) returns (key: string, error: Option<Exc>)
    modifies t`requests
    ensures var s := FrameStep(sid, pid, tid, t.memoryMapper, level, f);
      t.requests == old(t.requests) + s.ops && [key] == s.keys && error == s.error && s.notes == []
  {
    var p := FramesPath(sid, pid, tid) + [Elem(Dec(level))];
    t.CreateObject(p);
    key := Bracket(Dec(level));
    var v := ParseInt0(f.address);
    if v.Err? {
      return key, Some(v.error);
    }
    var (_, pc) := Map(t.memoryMapper, pid, v.value);
    t.SetValue(p, "_pc", VAddr(pc));
    assert t.requests == old(t.requests) + [CreateObject(p), SetValue(p, "_pc", VAddr(pc))];
    PutFrameFields(t, p, f);
    PutShown(t, p, FrameDisplay(level, f));
    Assoc3(old(t.requests), [CreateObject(p), SetValue(p, "_pc", VAddr(pc))], FrameFields(p, f), Shown(p, FrameDisplay(level, f)));
    error := None;
  }

  /** `put_frames_callback`. */
  method PutFramesCallback(t: Trace, g: Globals, reply: Message<FrameRecord>) returns (o: Outcome)
    modifies t`requests
    ensures var e := FramesSync(g.SelectedSession(), g.SelectedProcess(), g.SelectedThread(), t.memoryMapper, ValuesOf(reply));
      t.requests == old(t.requests) + e.ops && o == e.outcome
  {
    var values := ValuesOf(reply);
    var sid := g.SelectedSession();
    var pid := g.SelectedProcess();
    var tid := g.SelectedThread();
    ghost var steps := FrameSteps(sid, pid, tid, t.memoryMapper, values);
    var keys: seq<string> := [];
    var level := 0;
    while level < |values|
      invariant 0 <= level <= |values|
      invariant Chain(steps[..level]).error.None?
      invariant t.requests == old(t.requests) + Chain(steps[..level]).ops
      invariant keys == Chain(steps[..level]).keys
    {
      var key, error := PutFrame(t, sid, pid, tid, level, values[level]);
      Advance(steps, level, old(t.requests), map[]);
      Assoc(old(t.requests), Chain(steps[..level]).ops, steps[level].ops);
      keys := keys + [key];
      if error.Some? {
        return Fail(error.value);
      }
      level := level + 1;
    }
    ChainAll(steps);
    t.RetainValues(FramesPath(sid, pid, tid), keys, Elements);
    Assoc(old(t.requests), Chain(steps).ops, [RetainValues(FramesPath(sid, pid, tid), keys, Elements)]);
    o := Pass;
  }

  // ---------------------------------------------------------------------
  // Loaded classes
  // ---------------------------------------------------------------------

  /** The key of a class: its path if it has one, else its name, else the
      text of `None`. */
  function ClassKey(c: ClassRecord): string {
    if c.path.Some? then c.path.value else if c.name.Some? then c.name.value else "None"
  }

  function MethodOps(mp: Path, ms: seq<string>): seq<Op>
    decreases |ms|
  {
    if |ms| == 0 then []
    else MethodOps(mp, ms[..|ms| - 1]) + [CreateObject(mp + [Elem(ms[|ms| - 1])]), InsertObject(mp + [Elem(ms[|ms| - 1])])]
  }

  function MethodKeys(ms: seq<string>): seq<string>
    decreases |ms|
  {
    if |ms| == 0 then [] else MethodKeys(ms[..|ms| - 1]) + [Bracket(ms[|ms| - 1])]
  }

  /** The class object: created, named, displayed by its path, inserted. */
  function ClassHead(p: Path, name: string, path: string): seq<Op> {
    [CreateObject(p), SetValue(p, "Name", VStr(name)), SetValue(p, "Path", VStr(path))] + Shown(p, path)
  }

  /** One record of `put_loaded_classes_callback`.  As written, the method
      keys are appended to the class list, and the methods container is
      retained with a list to which nothing was appended. */
  function ClassStep(sid: Val, pid: Val, c: ClassRecord): Step {
    var key := ClassKey(c);
    var p := ClassesPath(sid, pid) + [Elem(key)];
    var name := if c.name.Some? then c.name.value else "";
    var path := if c.path.Some? then c.path.value else "";
    var head := ClassHead(p, name, path);
    match c.methods
    case None => Step(head, [], [Bracket(key)], None)
    case Some(ms) =>
      var mp := MethodsPath(sid, pid, key);
      Step(head + MethodOps(mp, ms) + [RetainValues(mp, [], Elements)], [], [Bracket(key)] + MethodKeys(ms), None)
  }

  function ClassSteps(sid: Val, pid: Val, cs: seq<ClassRecord>): seq<Step> {
    seq(|cs|, i requires 0 <= i < |cs| => ClassStep(sid, pid, cs[i]))
  }

  function ClassesSync(sid: Val, pid: Val, cs: seq<ClassRecord>): Effect {
    Finish(ClassesPath(sid, pid), Chain(ClassSteps(sid, pid, cs)))
  }

  /** The methods of one class: each created and inserted, its key
      returned for the class list. */
  method PutMethods(t: Trace, mp: Path, ms: seq<string>) returns (keys: seq<string>)
    modifies t`requests
    ensures t.requests == old(t.requests) + MethodOps(mp, ms)
    ensures keys == MethodKeys(ms)
  {
    keys := [];
    var i := 0;
    while i < |ms|
      invariant 0 <= i <= |ms|
      invariant t.requests == old(t.requests) + MethodOps(mp, ms[..i])
      invariant keys == MethodKeys(ms[..i])
    {
      assert ms[..i + 1][..i] == ms[..i];
      t.CreateObject(mp + [Elem(ms[i])]);
      keys := keys + [Bracket(ms[i])];
      t.Insert(mp + [Elem(ms[i])]);
      i := i + 1;
    }
    assert ms[..|ms|] == ms;
  }

  method PutClassHead(t: Trace, p: Path, name: string, path: string)
    modifies t`requests
    ensures t.requests == old(t.requests) + ClassHead(p, name, path)
  {
    t.CreateObject(p);
    t.SetValue(p, "Name", VStr(name));
    t.SetValue(p, "Path", VStr(path));
    PutShown(t, p, path);
    Assoc(old(t.requests), [CreateObject(p), SetValue(p, "Name", VStr(name)), SetValue(p, "Path", VStr(path))], Shown(p, path));
  }

  method PutClass(t: Trace, sid: Val, pid: Val, c: ClassRecord) returns (keys: seq<string>)
    modifies t`requests
    ensures var s := ClassStep(sid, pid, c);
      t.requests == old(t.requests) + s.ops && keys == s.keys && s.notes == [] && s.error.None?
  {
    var key := ClassKey(c);
    var p := ClassesPath(sid, pid) + [Elem(key)];
    keys := [Bracket(key)];
    var name := if c.name.Some? then c.name.value else "";
    var path := if c.path.Some? then c.path.value else "";
    PutClassHead(t, p, name, path);
    ghost var head := ClassHead(p, name, path);
    var mkeys: seq<string> := [];
    if c.methods.Some? {
      var mp := MethodsPath(sid, pid, key);
      var ks := PutMethods(t, mp, c.methods.value);
      keys := keys + ks;
      t.RetainValues(mp, mkeys, Elements);
      Assoc3(old(t.requests), head, MethodOps(mp, c.methods.value), [RetainValues(mp, mkeys, Elements)]);
    }
  }

  /** `put_loaded_classes_callback`. */
  method PutClassesCallback(t: Trace, g: Globals, reply: Message<ClassRecord>) returns (o: Outcome)
    modifies t`requests
    ensures var e := ClassesSync(g.SelectedSession(), g.SelectedProcess(), ValuesOf(reply));
      t.requests == old(t.requests) + e.ops && o == e.outcome
  {
    var values := ValuesOf(reply);
    var sid := g.SelectedSession();
    var pid := g.SelectedProcess();
    ghost var steps := ClassSteps(sid, pid, values);
    var keys: seq<string> := [];
    var i := 0;
    while i < |values|
      invariant 0 <= i <= |values|
      invariant Chain(steps[..i]).error.None?
      invariant t.requests == old(t.requests) + Chain(steps[..i]).ops
      invariant keys == Chain(steps[..i]).keys
    {
      var ks := PutClass(t, sid, pid, values[i]);
      Advance(steps, i, old(t.requests), map[]);
      Assoc(old(t.requests), Chain(steps[..i]).ops, steps[i].ops);
      keys := keys + ks;
      i := i + 1;
    }
    ChainAll(steps);
    t.RetainValues(ClassesPath(sid, pid), keys, Elements);
    Assoc(old(t.requests), Chain(steps).ops, [RetainValues(ClassesPath(sid, pid), keys, Elements)]);
    o := Pass;
  }
}
