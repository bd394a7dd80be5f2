/** The tracer's session discipline: which of client, trace and transaction
    exist, the commands that open and close them, and the small pure helpers
    of the command layer (trace names, page rounding, the memory-read
    arguments and the `retain_values` switches). */
module Session {
  import opened Wrappers
  import opened PyText
  import opened TraceValues
  import opened TraceStore
  import Arch
  import opened Util

  /** A connection to the trace server, of which the model keeps only the
      description. */
  datatype Client = Client(description: string)

  const PageSize: int := 4096

  const NotConnected := RuntimeError("Not connected")
  const AlreadyConnected := RuntimeError("Already connected")
  const NoTrace := RuntimeError("No trace active")
  const TraceStarted := RuntimeError("Trace already started")
  const NoTx := RuntimeError("No transaction")
  const TxStarted := RuntimeError("Transaction already started")

  /** The session state: at most one client, at most one trace on it and at
      most one tracked transaction on that trace. */
  class State {
    var client: Option<Client>
    var trace: Trace?
    var tx: Option<string>

    /** A trace only exists with a client, a transaction only with a trace,
        and the transaction the state tracks is the one open on the trace. */
    predicate Valid()
      reads this, trace
    {
      (trace != null ==> client.Some?)
      && (tx.Some? ==> trace != null)
      && (trace != null ==> trace.Store().openTx == tx)
    }

    /** A new state has nothing open, and marks the tracer as not tracing. */
    constructor (g: Globals)
      modifies g`convMap
      ensures client == None && trace == null && tx == None
      ensures g.convMap == old(g.convMap)["_ghidra_tracing" := Some("false")]
      ensures Valid()
    {
      client := None;
      trace := null;
      tx := None;
      g.SetConvenienceVariable("_ghidra_tracing", Some("false"));
    }

    function RequireClient(): (r: Result<Client>)
      reads this
      ensures r.Ok? <==> client.Some?
      ensures r.Ok? ==> r.value == client.value
      ensures r.Err? ==> r.error == NotConnected
    {
      if client.None? then Err(NotConnected) else Ok(client.value)
    }

    function RequireNoClient(): (o: Outcome)
      reads this
      ensures o.Pass? <==> client.None?
      ensures o.Fail? ==> o.error == AlreadyConnected
    {
      if client.Some? then Fail(AlreadyConnected) else Pass
    }

    function RequireTrace(): (r: Result<Trace>)
      reads this
      ensures r.Ok? <==> trace != null
      ensures r.Ok? ==> r.value == trace
      ensures r.Err? ==> r.error == NoTrace
    {
      if trace == null then Err(NoTrace) else Ok(trace)
    }

    function RequireNoTrace(): (o: Outcome)
      reads this
      ensures o.Pass? <==> trace == null
      ensures o.Fail? ==> o.error == TraceStarted
    {
      if trace != null then Fail(TraceStarted) else Pass
    }

    function RequireTx(): (r: Result<string>)
      reads this
      ensures r.Ok? <==> tx.Some?
      ensures r.Ok? ==> r.value == tx.value
      ensures r.Err? ==> r.error == NoTx
    {
      if tx.None? then Err(NoTx) else Ok(tx.value)
    }

    function RequireNoTx(): (o: Outcome)
      reads this
      ensures o.Pass? <==> tx.None?
      ensures o.Fail? ==> o.error == TxStarted
    {
      if tx.Some? then Fail(TxStarted) else Pass
    }

    method ResetTx()
      modifies this`tx
      ensures tx == None
    {
      tx := None;
    }

    /** Forgetting the trace forgets its transaction and marks the tracer as
        not tracing. */
    method ResetTrace(g: Globals)
      modifies this`trace, this`tx, g`convMap
      ensures trace == null && tx == None
      ensures g.convMap == old(g.convMap)["_ghidra_tracing" := Some("false")]
    {
      trace := null;
      g.SetConvenienceVariable("_ghidra_tracing", Some("false"));
      ResetTx();
    }

    /** Forgetting the client forgets everything opened on it. */
    method ResetClient(g: Globals)
      modifies this`client, this`trace, this`tx, g`convMap
      ensures client == None && trace == null && tx == None
      ensures g.convMap == old(g.convMap)["_ghidra_tracing" := Some("false")]
      ensures Valid()
    {
      client := None;
      ResetTrace(g);
    }

    /** What a successful `ghidra_trace_connect` or `ghidra_trace_listen`
        does to the state, with the established connection as input. */
    method Connect(c: Client) returns (o: Outcome)
      requires Valid()
      modifies this`client
      ensures o.Pass? <==> old(client).None?
      ensures o.Pass? ==> client == Some(c)
      ensures o.Fail? ==> o.error == AlreadyConnected && client == old(client)
      ensures Valid()
    {
      o := RequireNoClient();
      if o.Pass? {
        client := Some(c);
      }
    }

    method Disconnect(g: Globals) returns (o: Outcome)
      requires Valid()
      modifies this`client, this`trace, this`tx, g`convMap
      ensures o.Pass? <==> old(client).Some?
      ensures o.Pass? ==> client == None && trace == null && tx == None
      ensures o.Pass? ==> g.convMap == old(g.convMap)["_ghidra_tracing" := Some("false")]
      ensures o.Fail? ==> o.error == NotConnected && unchanged(this, g)
      ensures Valid()
    {
      var c := RequireClient();
      if c.Err? {
        return Fail(c.error);
      }
      ResetClient(g);
      o := Pass;
    }

    /** `ghidra_trace_txstart`: refuses a second transaction, then needs a
        trace, on which it opens the new one. */
    method TxStart(description: string) returns (o: Outcome)
      requires Valid()
      modifies this`tx, {trace}`requests
      ensures o.Pass? <==> old(tx).None? && trace != null
      ensures old(tx).Some? ==> o == Fail(TxStarted)
      ensures old(tx).None? && trace == null ==> o == Fail(NoTrace)
      ensures o.Pass? ==>
        (tx == Some(description) && trace.requests == old(trace.requests) + [StartTx(description)])
      ensures o.Fail? ==> tx == old(tx) && (trace != null ==> trace.requests == old(trace.requests))
      ensures Valid()
    {
      o := RequireNoTx();
      if o.Fail? {
        return;
      }
      var t := RequireTrace();
      if t.Err? {
        return Fail(t.error);
      }
      trace.StartTx(description);
      RunSnoc(EmptyStore, old(trace.requests), StartTx(description));
      tx := Some(description);
    }

    /** `ghidra_trace_txcommit` and `ghidra_trace_txabort`: end the tracked
        transaction, committing it or not, and forget it. */
    method TxEnd(commit: bool) returns (o: Outcome)
      requires Valid()
      modifies this`tx, {trace}`requests
      ensures o.Pass? <==> old(tx).Some?
      ensures o.Fail? ==>
        (o.error == NoTx && tx == old(tx) && (trace != null ==> trace.requests == old(trace.requests)))
      ensures o.Pass? ==> tx == None && trace.requests == old(trace.requests) + [EndTx(commit)]
      ensures Valid()
    {
      var r := RequireTx();
      if r.Err? {
        return Fail(r.error);
      }
      trace.EndTx(commit);
      RunSnoc(EmptyStore, old(trace.requests), EndTx(commit));
      ResetTx();
      o := Pass;
    }

    method TxCommit() returns (o: Outcome)
      requires Valid()
      modifies this`tx, {trace}`requests
      ensures o.Pass? <==> old(tx).Some?
      ensures o.Pass? ==> tx == None && trace.requests == old(trace.requests) + [EndTx(true)]
      ensures o.Fail? ==> o.error == NoTx && tx == old(tx)
      ensures Valid()
    {
      o := TxEnd(true);
    }

    method TxAbort() returns (o: Outcome)
      requires Valid()
      modifies this`tx, {trace}`requests
      ensures o.Pass? <==> old(tx).Some?
      ensures o.Pass? ==> tx == None && trace.requests == old(trace.requests) + [EndTx(false)]
      ensures o.Fail? ==> o.error == NoTx && tx == old(tx)
      ensures Valid()
    {
      o := TxEnd(false);
    }

    /** `start_trace`: resolves language and compiler from the convenience
        variables, creates the trace with them, attaches the memory mapper
        and then the register mapper, creates the root object in a
        transaction of its own and marks the tracer as tracing.  When the
        register mapper cannot be chosen the trace stays, without one. */
    method StartTrace(g: Globals, name: string, arch: string, platform: Option<string>, dbgVersion: string)
      returns (o: Outcome)
      requires Valid() && client.Some? && trace == null
      modifies this`trace, g`convMap
      ensures Valid()
      ensures var lcsp := Arch.ComputeLcsp(old(Settings(g)), arch, platform);
        lcsp.Err? ==> o == Fail(lcsp.error) && trace == null && unchanged(g)
      ensures trace != null ==> fresh(trace) && Created(trace, name, Arch.ComputeLcsp(old(Settings(g)), arch, platform))
      ensures o.Pass? ==>
        (trace != null && Rooted(trace, dbgVersion) && g.convMap == old(g.convMap)["_ghidra_tracing" := Some("true")])
      ensures o.Fail? && trace != null ==>
        (Unrooted(trace) && Arch.ComputeRegisterMapper(trace.language).Err? && unchanged(g))
      ensures o.Fail? ==> unchanged(g)
    {
      var lcsp := Arch.ComputeLcsp(Settings(g), arch, platform);
      if lcsp.Err? {
        return Fail(lcsp.error);
      }
      var (language, compiler) := lcsp.value;
      var t := new Trace(name, language, compiler, Arch.ComputeMemoryMapper(language));
      trace := t;
      var mapper := Arch.ComputeRegisterMapper(language);
      if mapper.Err? {
        return Fail(mapper.error);
      }
      t.AttachRegisterMapper(mapper.value);
      CreateRoot(t, dbgVersion);
      g.SetConvenienceVariable("_ghidra_tracing", Some("true"));
      o := Pass;
    }

    /** `ghidra_trace_start`: needs a client and no trace. */
    method Start(g: Globals, progname: Option<string>, arch: string, platform: Option<string>, dbgVersion: string)
      returns (o: Outcome)
      requires Valid()
      modifies this`trace, g`convMap
      ensures Valid()
      ensures old(client).None? ==> o == Fail(NotConnected) && trace == null && unchanged(g)
      ensures old(client).Some? && old(trace) != null ==> o == Fail(TraceStarted) && trace == old(trace)
      ensures old(client).Some? && old(trace) == null ==>
        var lcsp := Arch.ComputeLcsp(old(Settings(g)), arch, platform);
        && (lcsp.Err? ==> o == Fail(lcsp.error) && trace == null && unchanged(g))
        && (trace != null ==> fresh(trace) && Created(trace, ComputeName(progname), lcsp))
        && (o.Fail? && trace != null ==>
              Unrooted(trace) && Arch.ComputeRegisterMapper(trace.language).Err? && unchanged(g))
      ensures o.Pass? ==>
        && fresh(trace) && trace.name == ComputeName(progname) && trace.requests == RootRequests(dbgVersion)
        && Created(trace, ComputeName(progname), Arch.ComputeLcsp(old(Settings(g)), arch, platform))
        && Rooted(trace, dbgVersion)
        && g.convMap == old(g.convMap)["_ghidra_tracing" := Some("true")]
    {
      var c := RequireClient();
      if c.Err? {
        return Fail(c.error);
      }
      var name := ComputeName(progname);
      o := RequireNoTrace();
      if o.Fail? {
        return;
      }
      o := StartTrace(g, name, arch, platform, dbgVersion);
    }

    /** `ghidra_trace_stop`: closes the trace and forgets it. */
    method Stop(g: Globals) returns (o: Outcome)
      requires Valid()
      modifies this`trace, this`tx, {trace}`closed, g`convMap
      ensures Valid()
      ensures o.Pass? <==> old(trace) != null
      ensures o.Pass? ==> old(trace).closed && trace == null && tx == None
      ensures o.Pass? ==> g.convMap == old(g.convMap)["_ghidra_tracing" := Some("false")]
      ensures o.Fail? ==> o.error == NoTrace && unchanged(this, g)
    {
      var t := RequireTrace();
      if t.Err? {
        return Fail(t.error);
      }
      t.value.Close();
      ResetTrace(g);
      o := Pass;
    }

    /** The part of `ghidra_trace_restart` that closes and forgets the
        current trace, when there is one. */
    method CloseCurrent(g: Globals)
      requires Valid()
      modifies this`trace, this`tx, {trace}`closed, g`convMap
      ensures Valid() && trace == null && tx == None
      ensures old(trace) != null ==> old(trace).closed
      ensures g.convMap == if old(trace) != null then old(g.convMap)["_ghidra_tracing" := Some("false")] else old(g.convMap)
      ensures Settings(g) == old(Settings(g))
      ensures g.convMap["_ghidra_tracing" := Some("true")] == old(g.convMap)["_ghidra_tracing" := Some("true")]
    {
      if trace != null {
        trace.Close();
        ResetTrace(g);
        TracingKeepsSettings(old(g.convMap), Some("false"));
      }
    }

    /** `ghidra_trace_restart`: needs a client, closes any current trace and
        starts a new one. */
    method Restart(g: Globals, progname: Option<string>, arch: string, platform: Option<string>, dbgVersion: string)
      returns (o: Outcome)
      requires Valid()
      modifies this`trace, this`tx, {trace}`closed, g`convMap
      ensures Valid()
      ensures old(client).None? ==> o == Fail(NotConnected) && unchanged(this, g)
      ensures old(client).Some? ==> tx == None && (old(trace) != null ==> old(trace).closed)
      ensures old(client).Some? ==>
        var lcsp := Arch.ComputeLcsp(old(Settings(g)), arch, platform);
        && (lcsp.Err? ==> o == Fail(lcsp.error) && trace == null)
        && (trace != null ==> fresh(trace) && Created(trace, ComputeName(progname), lcsp))
        && (o.Fail? && trace != null ==> Unrooted(trace) && Arch.ComputeRegisterMapper(trace.language).Err?)
        && (o.Fail? ==> g.convMap == if old(trace) != null then old(g.convMap)["_ghidra_tracing" := Some("false")] else old(g.convMap))
      ensures o.Pass? ==>
        && fresh(trace) && trace.name == ComputeName(progname) && trace.requests == RootRequests(dbgVersion)
        && Created(trace, ComputeName(progname), Arch.ComputeLcsp(old(Settings(g)), arch, platform))
        && Rooted(trace, dbgVersion)
        && g.convMap == old(g.convMap)["_ghidra_tracing" := Some("true")]
    {
      var c := RequireClient();
      if c.Err? {
        return Fail(c.error);
      }
      CloseCurrent(g);
      var name := ComputeName(progname);
      o := StartTrace(g, name, arch, platform, dbgVersion);
    }
  }

  /** Setting `_ghidra_tracing` leaves the resolution settings as they were. */
  lemma TracingKeepsSettings(conv: map<string, Option<string>>, v: Option<string>)
    ensures var conv' := conv["_ghidra_tracing" := v];
      && ConvLookup(conv', "ghidra-language") == ConvLookup(conv, "ghidra-language")
      && ConvLookup(conv', "ghidra-compiler") == ConvLookup(conv, "ghidra-compiler")
      && ConvLookup(conv', "endian") == ConvLookup(conv, "endian")
      && ConvLookup(conv', "osabi") == ConvLookup(conv, "osabi")
  {
    ConvSetGet(conv, "_ghidra_tracing", v, "ghidra-language");
    ConvSetGet(conv, "_ghidra_tracing", v, "ghidra-compiler");
    ConvSetGet(conv, "_ghidra_tracing", v, "endian");
    ConvSetGet(conv, "_ghidra_tracing", v, "osabi");
  }

  /** A trace created under `name` with the language and compiler that were
      resolved, and the memory mapper of that language. */
  predicate Created(t: Trace, name: string, lcsp: Result<(string, string)>)
    reads t
  {
    lcsp.Ok? && t.name == name && t.language == lcsp.value.0 && t.compiler == lcsp.value.1
    && t.memoryMapper == Arch.ComputeMemoryMapper(lcsp.value.0)
  }

  /** A started trace: its register mapper is the one of its language and
      it holds only the root object. */
  predicate Rooted(t: Trace, dbgVersion: string)
    reads t
  {
    var mapper := Arch.ComputeRegisterMapper(t.language);
    mapper.Ok? && t.registerMapper == Some(mapper.value) && t.requests == RootRequests(dbgVersion)
  }

  /** A trace whose start stopped at the register mapper. */
  predicate Unrooted(t: Trace)
    reads t
  {
    t.registerMapper == None && t.requests == []
  }

  /** Creates the root object on a new trace. */
  method CreateRoot(t: Trace, dbgVersion: string)
    requires t.requests == []
    modifies t`requests
    ensures t.requests == RootRequests(dbgVersion)
    ensures t.Store().openTx == None
  {
    t.StartTx("Create Root Object");
    t.CreateObject([]);
    t.SetValue([], "_display", VStr(dbgVersion + " via frida"));
    t.EndTx(true);
    RootRequestsClose(dbgVersion);
  }

  /** The resolution settings as the convenience variables give them. */
  function Settings(g: Globals): (s: Arch.Settings)
    reads g
  {
    Arch.Settings(
      g.GetConvenienceVariable("ghidra-language"),
      g.GetConvenienceVariable("ghidra-compiler"),
      g.GetConvenienceVariable("endian"),
      g.GetConvenienceVariable("osabi"))
  }

  /** The requests a new trace receives: the root object, created in its own
      transaction, with the debugger's version as its display. */
  function RootRequests(dbgVersion: string): seq<Op> {
    [StartTx("Create Root Object"), CreateObject([]),
     SetValue([], "_display", VStr(dbgVersion + " via frida")), EndTx(true)]
  }

  /** The root requests leave no transaction open and the root present,
      carrying just its display value. */
  lemma RootRequestsClose(dbgVersion: string)
    ensures Run(EmptyStore, RootRequests(dbgVersion)).openTx == None
    ensures [] in Run(EmptyStore, RootRequests(dbgVersion)).objects
    ensures Run(EmptyStore, RootRequests(dbgVersion)).objects[[]].values
      == map["_display" := VStr(dbgVersion + " via frida")]
  {
    var ops := RootRequests(dbgVersion);
    RunSnoc(EmptyStore, ops[..3], ops[3]);
    assert ops[..3] == ops[..2] + [ops[2]];
    RunSnoc(EmptyStore, ops[..2], ops[2]);
    assert ops[..2] == ops[..1] + [ops[1]];
    RunSnoc(EmptyStore, ops[..1], ops[1]);
    var created := Run(EmptyStore, ops[..2]);
    assert created.objects[[]] == Detached;
  }

  // ---------------------------------------------------------------------
  // Trace names
  // ---------------------------------------------------------------------

  /** `compute_name`: the program's last path component under `frida/`. */
  function ComputeName(progname: Option<string>): string {
    if progname.None? then "frida/noname" else "frida/" + LastComponent(progname.value)
  }

  /** Without a program the name is `frida/noname`; otherwise it is `frida/`
      followed by a separator-free suffix of the program path that is either
      the whole path or starts right after a `/` or `\`. */
  lemma ComputeNameShape(p: string)
    ensures ComputeName(None) == "frida/noname"
    ensures |ComputeName(Some(p))| >= 6 && ComputeName(Some(p))[..6] == "frida/"
    ensures var tail := ComputeName(Some(p))[6..];
      && |tail| <= |p| && p[|p| - |tail|..] == tail
      && (forall i :: 0 <= i < |tail| ==> !IsSeparator(tail[i]))
      && (|tail| == |p| || IsSeparator(p[|p| - |tail| - 1]))
  {
    LastComponentShape(p);
    var tail := LastComponent(p);
    assert ComputeName(Some(p))[6..] == tail;
  }

  // ---------------------------------------------------------------------
  // Pages and memory reads
  // ---------------------------------------------------------------------

  /** `quantize_pages`: the range rounded outwards to whole pages. */
  function QuantizePages(start: int, end: int): (r: (int, int))
    ensures r.0 % PageSize == 0 && r.0 <= start < r.0 + PageSize
    ensures r.1 % PageSize == 0 && end <= r.1 < end + PageSize
  {
    (start / PageSize * PageSize, (end + PageSize - 1) / PageSize * PageSize)
  }

  /** Rounding a rounded range changes nothing. */
  lemma QuantizeIdempotent(start: int, end: int)
    ensures var (s, e) := QuantizePages(start, end); QuantizePages(s, e) == (s, e)
  {
    var (s, e) := QuantizePages(start, end);
    var (s', e') := QuantizePages(s, e);
    assert s' == s by {
      assert s' <= s < s' + PageSize;
      PageMultiples(s, s');
    }
    assert e' == e by {
      assert e <= e' < e + PageSize;
      PageMultiples(e, e');
    }
  }

  lemma PageMultiples(a: int, b: int)
    requires a % PageSize == 0 && b % PageSize == 0
    requires b <= a < b + PageSize || a <= b < a + PageSize
    ensures a == b
  {
    var d := a / PageSize - b / PageSize;
    assert a - b == d * PageSize;
  }

  /** The length check of `ghidra_trace_putmem`: the length must compare
      with an integer, and is raised to at least a page. */
  function ClampLength(length: Val): (r: Result<int>)
    ensures r.Ok? <==> length.VInt? || length.VBool?
    ensures r.Ok? ==> r.value >= PageSize
    ensures length.VInt? && length.i >= PageSize ==> r == Ok(length.i)
    ensures r.Err? ==> r.error.TypeError?
  {
    match length
    case VInt(n) => Ok(if n < PageSize then PageSize else n)
    case VBool(_) => Ok(PageSize)
    case _ => Err(TypeError("'<' not supported between instances"))
  }

  /** Python `str(v)` for the values `putmem` converts. */
  function AddressText(address: Val): (r: Result<string>)
    requires !address.VNone?
  {
    match address
    case VInt(n) => Ok(Dec(n))
    case VBool(b) => Ok(if b then "True" else "False")
    case VStr(s) => Ok(s)
    case _ => Err(TypeError("int() can't convert non-string with explicit base"))
  }

  /** The module-level record of the last memory read that `putmem` keeps. */
  class MemCursor {
    var lastAddress: int
    var lastLength: int

    constructor ()
      ensures lastAddress == 0 && lastLength == PageSize
    {
      lastAddress := 0;
      lastLength := PageSize;
    }

    /** `putmem`: without an address nothing happens; otherwise the address
        is read as a Python literal in any radix (an integer through its
        decimal text) and the length through its decimal text, and both are
        recorded.  The memory read itself is not part of the model. */
    method Putmem(address: Val, length: int) returns (o: Outcome)
      modifies this
      ensures address.VNone? ==> o == Pass && unchanged(this)
      ensures address.VInt? ==> o == Pass && lastAddress == address.i && lastLength == length
      ensures address.VStr? ==> var a := ParseInt0(address.s);
        && (a.Ok? ==> o == Pass && lastAddress == a.value && lastLength == length)
        && (a.Err? ==> o == Fail(a.error) && unchanged(this))
      ensures address.VAddr? || address.VRange? || address.VBool? ==> o.Fail? && unchanged(this)
    {
      if address.VNone? {
        return Pass;
      }
      var text := AddressText(address);
      if text.Err? {
        return Fail(text.error);
      }
      if address.VInt? {
        DecRoundTrip0(address.i);
      }
      var a := ParseInt0(text.value);
      if a.Err? {
        if address.VBool? {
          BoolTextRefused(address.b);
        }
        return Fail(a.error);
      }
      if address.VBool? {
        BoolTextRefused(address.b);
        assert false;
      }
      lastAddress := a.value;
      DecRoundTrip(length);
      var l := ParseInt(Dec(length));
      lastLength := l.value;
      o := Pass;
    }
  }

  /** `int("True", 0)` and `int("False", 0)` raise. */
  lemma BoolTextRefused(b: bool)
    ensures ParseInt0(if b then "True" else "False").Err?
  {
    var s := if b then "True" else "False";
    assert Strip(s) == s;
    assert SignSplit(s) == (false, s);
    assert RadixOf(s) == (10, s);
    assert !IsDigitIn(s[0], 10);
  }

  /** `ghidra_trace_putmem`: needs a transaction, then raises the length to
      at least a page before `putmem`. */
  method PutmemCommand(st: State, cursor: MemCursor, address: Val, length: Val) returns (o: Outcome)
    modifies cursor
    ensures st.tx.None? ==> o == Fail(NoTx) && unchanged(cursor)
    ensures o.Pass? && !address.VNone? ==> cursor.lastLength >= PageSize
    ensures o.Pass? && address.VInt? && length.VInt? ==>
      cursor.lastAddress == address.i && cursor.lastLength == (if length.i < PageSize then PageSize else length.i)
  {
    var r := st.RequireTx();
    if r.Err? {
      return Fail(r.error);
    }
    var l := ClampLength(length);
    if l.Err? {
      return Fail(l.error);
    }
    o := cursor.Putmem(address, l.value);
  }

  // ---------------------------------------------------------------------
  // retain_values switches
  // ---------------------------------------------------------------------

  /** The switch that names each kind. */
  function SwitchText(kind: Kind): string {
    match kind
    case Elements => "--elements"
    case Attributes => "--attributes"
    case Both => "--both"
  }

  /** The kind a leading token selects, if it is a switch. */
  function SwitchKind(token: string): (r: Option<Kind>)
    ensures r.Some? ==> SwitchText(r.value) == token
    ensures r.None? ==> forall k: Kind :: SwitchText(k) != token
  {
    if token == "--elements" then Some(Elements)
    else if token == "--attributes" then Some(Attributes)
    else if token == "--both" then Some(Both)
    else None
  }

  /** The argument handling of `ghidra_trace_retain_values`: the text is
      split on single spaces; a leading switch selects the kind and is
      dropped; any other leading `--` token is refused; otherwise every token
      is a key of an element. */
  function ParseRetainKeys(keys: string): (r: Result<(Kind, seq<string>)>)
    ensures var parts := SplitSpace(keys);
      && (r.Err? <==> SwitchKind(parts[0]).None? && StartsWith(parts[0], "--"))
      && (r.Err? ==> r.error == RuntimeError("Invalid argument: " + parts[0]))
      && (r.Ok? && SwitchKind(parts[0]).Some? ==> r.value == (SwitchKind(parts[0]).value, parts[1..]))
      && (r.Ok? && SwitchKind(parts[0]).None? ==> r.value == (Elements, parts))
  {
    var parts := SplitSpace(keys);
    match SwitchKind(parts[0])
    case Some(kind) => Ok((kind, parts[1..]))
    case None =>
      if StartsWith(parts[0], "--") then Err(RuntimeError("Invalid argument: " + parts[0]))
      else Ok((Elements, parts))
  }

  /** The argument text that selects `kind` and lists `keys`. */
  function RetainArgs(kind: Kind, keys: seq<string>): string {
    if |keys| == 0 then SwitchText(kind) else SwitchText(kind) + " " + JoinSpace(keys)
  }

  /** The switches and keys come back from their text, for keys free of
      spaces. */
  lemma RetainArgsRoundTrip(kind: Kind, keys: seq<string>)
    requires forall i :: 0 <= i < |keys| ==> NoSpace(keys[i])
    ensures ParseRetainKeys(RetainArgs(kind, keys)) == Ok((kind, keys))
  {
    var sw := SwitchText(kind);
    assert NoSpace(sw);
    if |keys| == 0 {
      SplitNoSpace(sw);
    } else {
      SplitPrefix(sw, JoinSpace(keys));
      SplitJoin(keys);
      assert SplitSpace(RetainArgs(kind, keys)) == [sw] + keys;
    }
  }

  /** Keys listed without a switch are all kept, as elements, when the first
      does not look like a switch. */
  lemma RetainKeysDefault(keys: seq<string>)
    requires |keys| > 0 && !StartsWith(keys[0], "--")
    requires forall i :: 0 <= i < |keys| ==> NoSpace(keys[i])
    ensures ParseRetainKeys(JoinSpace(keys)) == Ok((Elements, keys))
  {
    SplitJoin(keys);
    SwitchDashed(keys[0]);
  }

  /** Every switch starts with `--`. */
  lemma SwitchDashed(token: string)
    ensures SwitchKind(token).Some? ==> StartsWith(token, "--")
  {
    if SwitchKind(token).Some? {
      var t := SwitchText(SwitchKind(token).value);
      assert t[..2] == "--";
    }
  }

  /** `ghidra_trace_retain_values`: the text is split before the
      transaction is required, the switch checked after. */
  method RetainValuesCommand(st: State, path: Path, keys: string) returns (o: Outcome)
    requires st.Valid()
    modifies {st.trace}`requests
    ensures st.Valid()
    ensures st.tx.None? ==> o == Fail(NoTx)
    ensures var p := ParseRetainKeys(keys);
      st.tx.Some? ==>
        && (p.Err? ==> o == Fail(p.error) && st.trace.requests == old(st.trace.requests))
        && (p.Ok? ==>
              (o == Pass && st.trace.requests == old(st.trace.requests) + [RetainValues(path, p.value.1, p.value.0)]))
    ensures st.tx.None? && st.trace != null ==> st.trace.requests == old(st.trace.requests)
  {
    var r := st.RequireTx();
    if r.Err? {
      return Fail(r.error);
    }
    var p := ParseRetainKeys(keys);
    if p.Err? {
      return Fail(p.error);
    }
    var (kind, ks) := p.value;
    st.trace.RetainValues(path, ks, kind);
    AppendTxFree(EmptyStore, old(st.trace.requests), [RetainValues(path, ks, kind)]);
    o := Pass;
  }
}
