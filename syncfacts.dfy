/** What the sync callbacks leave in the trace: after a batch in which
    every record succeeded, an element of the container is live exactly when
    a record listed its key; after a batch that raised, nothing is cleared. */
module SyncFacts {
  import opened Wrappers
  import opened PyText
  import opened TraceValues
  import opened TraceStore
  import opened Arch
  import opened Sync

  // ---------------------------------------------------------------------
  // Chains of steps
  // ---------------------------------------------------------------------

  /** A chain sends only what its steps send and lists only what they list;
      it raises iff one of its steps raises; and when none raises it sends
      and lists everything they do. */
  lemma {:induction false} ChainMembers(steps: seq<Step>)
    ensures forall x :: x in Chain(steps).ops ==> exists j :: 0 <= j < |steps| && x in steps[j].ops
    ensures forall k :: k in Chain(steps).keys ==> exists j :: 0 <= j < |steps| && k in steps[j].keys
    ensures Chain(steps).error.None? <==> forall j :: 0 <= j < |steps| ==> steps[j].error.None?
    ensures Chain(steps).error.None? ==>
      && (forall j, x :: 0 <= j < |steps| && x in steps[j].ops ==> x in Chain(steps).ops)
      && (forall j, k :: 0 <= j < |steps| && k in steps[j].keys ==> k in Chain(steps).keys)
    decreases |steps|
  {
    if |steps| > 0 {
      var init := steps[..|steps| - 1];
      ChainMembers(init);
      assert forall j :: 0 <= j < |init| ==> init[j] == steps[j];
    }
  }

  /** When every step lists one key and none raises, the chain lists those
      keys in order. */
  lemma {:induction false} ChainSingleKeys(steps: seq<Step>)
    requires forall j :: 0 <= j < |steps| ==> |steps[j].keys| == 1 && steps[j].error.None?
    ensures |Chain(steps).keys| == |steps|
    ensures forall j :: 0 <= j < |steps| ==> Chain(steps).keys[j] == steps[j].keys[0]
    ensures Chain(steps).error.None?
    decreases |steps|
  {
    if |steps| > 0 {
      var init := steps[..|steps| - 1];
      ChainSingleKeys(init);
      assert forall j :: 0 <= j < |init| ==> init[j] == steps[j];
    }
  }

  /** Requests of which none is a retain. */
  predicate NoRetain(ops: seq<Op>) {
    forall i :: 0 <= i < |ops| ==> !ops[i].RetainValues?
  }

  lemma NoRetainAppend(a: seq<Op>, b: seq<Op>)
    requires NoRetain(a) && NoRetain(b)
    ensures NoRetain(a + b)
  {
    forall i | 0 <= i < |a + b|
      ensures !(a + b)[i].RetainValues?
    {
      if i >= |a| {
        assert (a + b)[i] == b[i - |a|];
      }
    }
  }

  lemma NoRetainChain(steps: seq<Step>)
    requires forall j :: 0 <= j < |steps| ==> NoRetain(steps[j].ops)
    ensures NoRetain(Chain(steps).ops)
  {
    ChainMembers(steps);
    forall i | 0 <= i < |Chain(steps).ops|
      ensures !Chain(steps).ops[i].RetainValues?
    {
      var x := Chain(steps).ops[i];
      assert x in Chain(steps).ops;
      var j :| 0 <= j < |steps| && x in steps[j].ops;
    }
  }

  lemma BracketInjective(a: string, b: string)
    requires Bracket(a) == Bracket(b)
    ensures a == b
  {
    ElemKeyInjective(a, b);
  }

  /** The retain that ends a successful callback: an element of the
      container is live afterwards iff its key was listed, provided every
      listed element was inserted and nothing in the batch cleared it. */
  lemma SyncRetained(st: StoreState, c: Path, s: Step, k: string)
    requires s.error.None?
    requires forall i :: 0 <= i < |s.ops| ==> !PrunesPath(s.ops[i], c + [Elem(k)])
    requires Bracket(k) in s.keys ==> InsertObject(c + [Elem(k)]) in s.ops
    ensures LiveAt(Run(st, Finish(c, s).ops), c + [Elem(k)]) <==> Bracket(k) in s.keys
  {
    var retain := RetainValues(c, s.keys, Elements);
    RunSnoc(st, s.ops, retain);
    RetainElement(Run(st, s.ops), c, s.keys, Elements, k);
    LiveAfter(st, s.ops, c + [Elem(k)]);
  }

  /** A callback that raised leaves every live object live. */
  lemma SyncFailedKeeps(st: StoreState, c: Path, s: Step, q: Path)
    requires s.error.Some? && NoRetain(s.ops)
    ensures LiveAt(st, q) ==> LiveAt(Run(st, Finish(c, s).ops), q)
  {
    LiveAfter(st, s.ops, q);
  }

  /** A sync in which some step raised ends without a retain, so every
      live object stays live. */
  lemma FailedKeeps(st: StoreState, c: Path, steps: seq<Step>, i: nat, q: Path)
    requires i < |steps| && steps[i].error.Some?
    requires forall j :: 0 <= j < |steps| ==> NoRetain(steps[j].ops)
    ensures Finish(c, Chain(steps)).outcome.Fail?
    ensures LiveAt(st, q) ==> LiveAt(Run(st, Finish(c, Chain(steps)).ops), q)
  {
    ChainMembers(steps);
    NoRetainChain(steps);
    SyncFailedKeeps(st, c, Chain(steps), q);
  }

  /** An object some step of a successful sync inserts stays live, unless it
      is an element of the container. */
  lemma InsertedLive(st: StoreState, c: Path, steps: seq<Step>, i: nat, q: Path)
    requires forall j :: 0 <= j < |steps| ==> steps[j].error.None? && NoRetain(steps[j].ops)
    requires i < |steps| && InsertObject(q) in steps[i].ops
    requires !(|q| == |c| + 1 && q[..|c|] == c && q[|c|].Elem?)
    ensures LiveAt(Run(st, Finish(c, Chain(steps)).ops), q)
  {
    ChainMembers(steps);
    NoRetainChain(steps);
    var s := Chain(steps);
    LiveAfter(st, s.ops, q);
    RunSnoc(st, s.ops, RetainValues(c, s.keys, Elements));
    RetainKeepsOthers(Run(st, s.ops), c, s.keys, q);
  }

  /** Steps of a keyed sync: each succeeds, sends no retain, lists the
      bracketed name of its element and inserts that element. */
  predicate Keyed(c: Path, steps: seq<Step>, names: seq<string>) {
    && |steps| == |names|
    && forall j :: 0 <= j < |steps| ==>
         && steps[j].error.None? && NoRetain(steps[j].ops) && steps[j].keys == [Bracket(names[j])]
         && InsertObject(c + [Elem(names[j])]) in steps[j].ops
  }

  /** After a keyed sync an element of the container is live iff its name
      was one of the records'. */
  lemma KeyedRetained(st: StoreState, c: Path, steps: seq<Step>, names: seq<string>, k: string)
    requires Keyed(c, steps, names)
    ensures Finish(c, Chain(steps)).outcome == Pass
    ensures LiveAt(Run(st, Finish(c, Chain(steps)).ops), c + [Elem(k)]) <==> k in names
  {
    var s := Chain(steps);
    ChainMembers(steps);
    NoRetainChain(steps);
    if Bracket(k) in s.keys {
      var j :| 0 <= j < |steps| && Bracket(k) in steps[j].keys;
      BracketInjective(k, names[j]);
      assert InsertObject(c + [Elem(k)]) in steps[j].ops;
    }
    SyncRetained(st, c, s, k);
    if k in names {
      var j :| 0 <= j < |names| && names[j] == k;
      assert Bracket(k) in steps[j].keys;
    }
  }

  // ---------------------------------------------------------------------
  // Regions and sections
  // ---------------------------------------------------------------------

  lemma RangeFieldsNoRetain(p: Path, addr: Address, r: RangeRecord, withOffset: bool)
    ensures NoRetain(RangeFields(p, addr, r, withOffset))
  {
    var a := OptSet(p, "_offset", if withOffset then Some(VAddr(addr)) else None);
    var b := RangeAttrs(p, addr, r);
    var c := OptSet(p, "File", FileVal(r.file));
    NoRetainAppend(a, b);
    NoRetainAppend(a + b, c);
    NoRetainAppend(a + b + c, Shown(p, RangeDisplay(r.base, r.size, r.protection)));
  }

  /** A range record sends no retain and lists its bracketed base; it
      raises iff its base does not parse, and otherwise inserts its object. */
  lemma RangeStepFacts(c: Path, pid: Val, m: MemoryMapper, r: RangeRecord, withOffset: bool)
    ensures var s := RangeStep(c, pid, m, r, withOffset);
      && NoRetain(s.ops)
      && s.keys == [Bracket(r.base)]
      && (s.error.None? <==> ParseInt0(r.base).Ok?)
      && (s.error.None? ==> InsertObject(c + [Elem(r.base)]) in s.ops)
  {
    var s := RangeStep(c, pid, m, r, withOffset);
    var p := c + [Elem(r.base)];
    var parsed := ParseInt0(r.base);
    if parsed.Ok? {
      var addr := Map(m, pid, parsed.value).1;
      RangeFieldsNoRetain(p, addr, r, withOffset);
      NoRetainAppend([CreateObject(p)], RangeFields(p, addr, r, withOffset));
      assert s.ops[|s.ops| - 1] == InsertObject(p);
    }
  }

  /** The base of each record, in order. */
  function Bases(rs: seq<RangeRecord>): (names: seq<string>)
    ensures |names| == |rs| && forall i :: 0 <= i < |rs| ==> names[i] == rs[i].base
  {
    seq(|rs|, i requires 0 <= i < |rs| => rs[i].base)
  }

  /** Regions and sections alike: when every base parses, the callback
      succeeds and an element of the container is live afterwards iff some
      record has that base. */
  lemma RangesRetained(st: StoreState, c: Path, pid: Val, m: MemoryMapper, rs: seq<RangeRecord>, withOffset: bool, k: string)
    requires forall i :: 0 <= i < |rs| ==> ParseInt0(rs[i].base).Ok?
    ensures var e := Finish(c, Chain(RangeSteps(c, pid, m, rs, withOffset)));
      && e.outcome == Pass
      && (LiveAt(Run(st, e.ops), c + [Elem(k)]) <==> exists i :: 0 <= i < |rs| && rs[i].base == k)
  {
    var steps := RangeSteps(c, pid, m, rs, withOffset);
    forall j | 0 <= j < |steps|
      ensures steps[j].error.None? && NoRetain(steps[j].ops) && steps[j].keys == [Bracket(Bases(rs)[j])]
      ensures InsertObject(c + [Elem(Bases(rs)[j])]) in steps[j].ops
    {
      RangeStepFacts(c, pid, m, rs[j], withOffset);
    }
    KeyedRetained(st, c, steps, Bases(rs), k);
  }

  /** A base that does not parse ends the callback before the retain, so
      stale regions survive. */
  lemma RangesFailedKeep(st: StoreState, c: Path, pid: Val, m: MemoryMapper, rs: seq<RangeRecord>, withOffset: bool, i: nat, q: Path)
    requires i < |rs| && ParseInt0(rs[i].base).Err?
    ensures var e := Finish(c, Chain(RangeSteps(c, pid, m, rs, withOffset)));
      && e.outcome.Fail?
      && (LiveAt(st, q) ==> LiveAt(Run(st, e.ops), q))
  {
    var steps := RangeSteps(c, pid, m, rs, withOffset);
    forall j | 0 <= j < |steps|
      ensures NoRetain(steps[j].ops) && (steps[j].error.None? <==> ParseInt0(rs[j].base).Ok?)
    {
      RangeStepFacts(c, pid, m, rs[j], withOffset);
    }
    FailedKeeps(st, c, steps, i, q);
  }

  /** A reply without records still ends in a retain, of nothing: an error
      reported by the script clears every region. */
  lemma ErrorReplyClearsRegions(st: StoreState, sid: Val, pid: Val, m: MemoryMapper, description: string, k: string)
    ensures var e := RegionsSync(sid, pid, m, ValuesOf(ErrorMessage(description)));
      e.outcome == Pass && !LiveAt(Run(st, e.ops), RegionsPath(sid, pid) + [Elem(k)])
  {
    var e := RegionsSync(sid, pid, m, ValuesOf(ErrorMessage(description)));
    assert RangeSteps(RegionsPath(sid, pid), pid, m, [], true) == [];
    assert e.ops == [] + [RetainValues(RegionsPath(sid, pid), [], Elements)];
    RunSnoc(st, [], RetainValues(RegionsPath(sid, pid), [], Elements));
    RetainElement(st, RegionsPath(sid, pid), [], Elements, k);
  }

  /** A sync without records sends only the retain, of nothing. */
  lemma EmptySync(c: Path, steps: seq<Step>)
    requires |steps| == 0
    ensures Finish(c, Chain(steps)).ops == [RetainValues(c, [], Elements)]
    ensures Finish(c, Chain(steps)).outcome == Pass
  {
  }

  /** The sections of two different modules are different containers, so
      clearing one leaves the other's elements alone. */
  lemma SectionsApart(st: StoreState, sid: Val, pid: Val, a: string, b: string, k: string)
    requires a != b
    ensures var q := SectionsPath(sid, pid, b) + [Elem(k)];
      LiveAt(Apply(st, RetainValues(SectionsPath(sid, pid, a), [], Elements)), q) <==> LiveAt(st, q)
  {
    var c := SectionsPath(sid, pid, a);
    var q := SectionsPath(sid, pid, b) + [Elem(k)];
    var n := |ModulesPath(sid, pid)|;
    assert q[n] == Elem(b) && c[n] == Elem(a);
    RetainKeepsOthers(st, c, [], q);
  }

  /** Without a payload the sections callback formats the empty dictionary
      as the module path, so it clears the sections of a module keyed `{}`
      and leaves those of every real module as they were. */
  lemma SectionsWithoutPayload(st: StoreState, sid: Val, pid: Val, m: MemoryMapper, reply: Message<RangeRecord>, modpath: string, k: string)
    requires !(reply.SendMessage? && reply.payload.Some?) && modpath != "{}"
    ensures DataOf(reply) == Ok("{}")
    ensures var e := SectionsSync(sid, pid, "{}", m, ValuesOf(reply));
      && e.ops == [RetainValues(SectionsPath(sid, pid, "{}"), [], Elements)]
      && (LiveAt(Run(st, e.ops), SectionsPath(sid, pid, modpath) + [Elem(k)])
          <==> LiveAt(st, SectionsPath(sid, pid, modpath) + [Elem(k)]))
  {
    var c := SectionsPath(sid, pid, "{}");
    var retain := RetainValues(c, [], Elements);
    EmptySync(c, RangeSteps(c, pid, m, ValuesOf(reply), false));
    RunSnoc(st, [], retain);
    assert [] + [retain] == [retain];
    SectionsApart(st, sid, pid, "{}", modpath, k);
  }

  // ---------------------------------------------------------------------
  // Modules
  // ---------------------------------------------------------------------

  /** The module's containers are created and inserted, one per part. */
  lemma {:induction false} PartOpsFacts(p: Path, parts: seq<string>)
    ensures NoRetain(PartOps(p, parts))
    ensures forall part :: part in parts ==> InsertObject(p + [Attr(part)]) in PartOps(p, parts)
    decreases |parts|
  {
    if |parts| > 0 {
      var init := parts[..|parts| - 1];
      var last := parts[|parts| - 1];
      PartOpsFacts(p, init);
      NoRetainAppend(PartOps(p, init), [CreateObject(p + [Attr(last)]), InsertObject(p + [Attr(last)])]);
      assert parts == init + [last];
    }
  }

  /** The module object's attributes: no retain, and the object is inserted
      last. */
  lemma ModuleAttrsFacts(p: Path, addr: Address, r: ModuleRecord)
    ensures NoRetain([CreateObject(p)] + ModuleAttrs(p, addr, r))
    ensures InsertObject(p) in [CreateObject(p)] + ModuleAttrs(p, addr, r)
  {
    var attrs := ModuleAttrs(p, addr, r);
    forall k | 0 <= k < |attrs|
      ensures !attrs[k].RetainValues?
    {
    }
    NoRetainAppend([CreateObject(p)], attrs);
    assert ([CreateObject(p)] + attrs)[8] == InsertObject(p);
  }

  lemma ModuleStepFacts(sid: Val, pid: Val, m: MemoryMapper, r: ModuleRecord)
    ensures var s := ModuleStep(sid, pid, m, r);
      var p := ModulesPath(sid, pid) + [Elem(r.path)];
      && NoRetain(s.ops)
      && s.keys == [Bracket(r.path)]
      && (s.error.None? <==> ParseInt0(r.base).Ok?)
      && (s.error.None? ==> InsertObject(p) in s.ops)
  {
    var s := ModuleStep(sid, pid, m, r);
    var p := ModulesPath(sid, pid) + [Elem(r.path)];
    var parsed := ParseInt0(r.base);
    if parsed.Ok? {
      var addr := Map(m, pid, parsed.value).1;
      var head := [CreateObject(p)] + ModuleAttrs(p, addr, r);
      ModuleAttrsFacts(p, addr, r);
      PartOpsFacts(p, ModuleParts);
      NoRetainAppend(head, PartOps(p, ModuleParts));
      assert s.ops == head + PartOps(p, ModuleParts);
    }
  }

  /** A module whose base parses inserts its five containers. */
  lemma ModuleStepParts(sid: Val, pid: Val, m: MemoryMapper, r: ModuleRecord, part: string)
    requires ParseInt0(r.base).Ok? && part in ModuleParts
    ensures InsertObject(ModulesPath(sid, pid) + [Elem(r.path), Attr(part)]) in ModuleStep(sid, pid, m, r).ops
  {
    var p := ModulesPath(sid, pid) + [Elem(r.path)];
    PartOpsFacts(p, ModuleParts);
    assert p + [Attr(part)] == ModulesPath(sid, pid) + [Elem(r.path), Attr(part)];
  }

  /** The path of each module record, in order. */
  function ModulePaths(rs: seq<ModuleRecord>): (names: seq<string>)
    ensures |names| == |rs| && forall i :: 0 <= i < |rs| ==> names[i] == rs[i].path
  {
    seq(|rs|, i requires 0 <= i < |rs| => rs[i].path)
  }

  /** When every base parses, a module is live after the sync iff some
      record has its path. */
  lemma ModulesRetained(st: StoreState, sid: Val, pid: Val, m: MemoryMapper, rs: seq<ModuleRecord>, k: string)
    requires forall i :: 0 <= i < |rs| ==> ParseInt0(rs[i].base).Ok?
    ensures var e := ModulesSync(sid, pid, m, rs);
      && e.outcome == Pass
      && (LiveAt(Run(st, e.ops), ModulesPath(sid, pid) + [Elem(k)]) <==> exists i :: 0 <= i < |rs| && rs[i].path == k)
  {
    var c := ModulesPath(sid, pid);
    var steps := ModuleSteps(sid, pid, m, rs);
    forall j | 0 <= j < |steps|
      ensures steps[j].error.None? && NoRetain(steps[j].ops) && steps[j].keys == [Bracket(ModulePaths(rs)[j])]
      ensures InsertObject(c + [Elem(ModulePaths(rs)[j])]) in steps[j].ops
    {
      ModuleStepFacts(sid, pid, m, rs[j]);
    }
    KeyedRetained(st, c, steps, ModulePaths(rs), k);
  }

  /** Each module of a successful sync has its five containers live. */
  lemma ModulePartsLive(st: StoreState, sid: Val, pid: Val, m: MemoryMapper, rs: seq<ModuleRecord>, i: nat, part: string)
    requires forall j :: 0 <= j < |rs| ==> ParseInt0(rs[j].base).Ok?
    requires i < |rs| && part in ModuleParts
    ensures LiveAt(Run(st, ModulesSync(sid, pid, m, rs).ops), ModulesPath(sid, pid) + [Elem(rs[i].path), Attr(part)])
  {
    var c := ModulesPath(sid, pid);
    var steps := ModuleSteps(sid, pid, m, rs);
    var q := c + [Elem(rs[i].path), Attr(part)];
    forall j | 0 <= j < |steps|
      ensures steps[j].error.None? && NoRetain(steps[j].ops)
    {
      ModuleStepFacts(sid, pid, m, rs[j]);
    }
    ModuleStepParts(sid, pid, m, rs[i], part);
    assert |q| == |c| + 2;
    InsertedLive(st, c, steps, i, q);
  }

  /** A base that does not parse ends the modules callback before the
      retain. */
  lemma ModulesFailedKeep(st: StoreState, sid: Val, pid: Val, m: MemoryMapper, rs: seq<ModuleRecord>, i: nat, q: Path)
    requires i < |rs| && ParseInt0(rs[i].base).Err?
    ensures var e := ModulesSync(sid, pid, m, rs);
      e.outcome.Fail? && (LiveAt(st, q) ==> LiveAt(Run(st, e.ops), q))
  {
    var steps := ModuleSteps(sid, pid, m, rs);
    forall j | 0 <= j < |steps|
      ensures NoRetain(steps[j].ops) && (steps[j].error.None? <==> ParseInt0(rs[j].base).Ok?)
    {
      ModuleStepFacts(sid, pid, m, rs[j]);
    }
    FailedKeeps(st, ModulesPath(sid, pid), steps, i, q);
  }

  // ---------------------------------------------------------------------
  // Threads
  // ---------------------------------------------------------------------

  lemma {:induction false} RawSetsFacts(p: Path, ctx: seq<(string, string)>)
    ensures NoRetain(RawSets(p, ctx))
    ensures |RawSets(p, ctx)| == |ctx|
    ensures forall i :: 0 <= i < |ctx| ==> RawSets(p, ctx)[i] == SetValue(p, ctx[i].0, VStr(ctx[i].1))
    decreases |ctx|
  {
    if |ctx| > 0 {
      var init := ctx[..|ctx| - 1];
      RawSetsFacts(p, init);
      var last := [SetValue(p, ctx[|ctx| - 1].0, VStr(ctx[|ctx| - 1].1))];
      NoRetainAppend(RawSets(p, init), last);
      assert forall i :: 0 <= i < |init| ==> init[i] == ctx[i];
    }
  }

  lemma ThreadRegsNoRetain(p: Path, regs: Path, m: RegisterMapper, ctx: seq<(string, string)>)
    ensures NoRetain(ThreadRegs(p, regs, m, ctx))
  {
    RawSetsFacts(regs, ctx);
    NoRetainAppend(RawSets(regs, ctx),
      [PutRegisters(Render(regs), MapRegisters(m, ctx)), CreateObject(p + [Attr("Stack")]), InsertObject(p + [Attr("Stack")])]);
  }

  lemma ThreadShownNoRetain(p: Path, regs: Path, i: int, px: string, r: ThreadRecord)
    ensures NoRetain(ThreadShown(p, regs, i, px, r))
    ensures |ThreadShown(p, regs, i, px, r)| == 7 && ThreadShown(p, regs, i, px, r)[3] == InsertObject(p)
  {
    var shown := ThreadShown(p, regs, i, px, r);
    forall k | 0 <= k < 7
      ensures !shown[k].RetainValues?
    {
    }
  }

  lemma ThreadShownFacts(p: Path, regs: Path, i: int, px: string, r: ThreadRecord)
    ensures NoRetain(ThreadHead(p, r) + ThreadShown(p, regs, i, px, r))
    ensures InsertObject(p) in ThreadHead(p, r) + ThreadShown(p, regs, i, px, r)
  {
    var head := ThreadHead(p, r);
    var shown := ThreadShown(p, regs, i, px, r);
    assert NoRetain(head);
    ThreadShownNoRetain(p, regs, i, px, r);
    NoRetainAppend(head, shown);
    assert (head + shown)[6] == shown[3];
  }

  /** The thread is selected before anything can raise, so the step always
      notes it; with a formattable process id and a register mapper it
      succeeds and inserts the thread. */
  lemma ThreadStepFacts(sid: Val, pid: Val, rm: Option<RegisterMapper>, i: int, r: ThreadRecord)
    ensures var s := ThreadStep(sid, pid, rm, i, r);
      && NoRetain(s.ops)
      && s.keys == [Bracket(Dec(r.id))]
      && s.notes == [("tid", VInt(r.id))]
      && (s.error.None? <==> FormatHex(pid).Ok? && rm.Some?)
      && (s.error.None? ==> InsertObject(ThreadsPath(sid, pid) + [Elem(Dec(r.id))]) in s.ops)
  {
    var s := ThreadStep(sid, pid, rm, i, r);
    var p := ThreadPath(sid, pid, VInt(r.id));
    var regs := RegsPath(sid, pid, VInt(r.id));
    var head := ThreadHead(p, r);
    assert NoRetain(head);
    var px := FormatHex(pid);
    if px.Ok? {
      ThreadShownFacts(p, regs, i, px.value, r);
      if rm.Some? {
        ThreadRegsNoRetain(p, regs, rm.value, r.context);
        NoRetainAppend(head + ThreadShown(p, regs, i, px.value, r), ThreadRegs(p, regs, rm.value, r.context));
      }
    }
  }

  /** What a thread record writes to `current_state`, and when it raises. */
  lemma ThreadStepOutcome(sid: Val, pid: Val, rm: Option<RegisterMapper>, i: int, r: ThreadRecord)
    ensures ThreadStep(sid, pid, rm, i, r).notes == [("tid", VInt(r.id))]
    ensures ThreadStep(sid, pid, rm, i, r).error.None? <==> FormatHex(pid).Ok? && rm.Some?
  {
  }

  /** With a formattable process id and a register mapper, no thread
      record raises and each selects its own thread, so by `SyncLastNote`
      the thread selected after the sync is the last one listed. */
  lemma ThreadStepsOutcome(sid: Val, pid: Val, rm: Option<RegisterMapper>, rs: seq<ThreadRecord>)
    requires FormatHex(pid).Ok? && rm.Some?
    ensures forall j :: 0 <= j < |rs| ==>
      ThreadSteps(sid, pid, rm, rs)[j].notes == [("tid", VInt(rs[j].id))]
      && ThreadSteps(sid, pid, rm, rs)[j].error.None?
  {
    forall j | 0 <= j < |rs|
      ensures ThreadSteps(sid, pid, rm, rs)[j].notes == [("tid", VInt(rs[j].id))]
      ensures ThreadSteps(sid, pid, rm, rs)[j].error.None?
    {
      ThreadStepOutcome(sid, pid, rm, j, rs[j]);
    }
  }

  /** The decimal id of each thread record, in order. */
  function ThreadIds(rs: seq<ThreadRecord>): (names: seq<string>)
    ensures |names| == |rs| && forall i :: 0 <= i < |rs| ==> names[i] == Dec(rs[i].id)
  {
    seq(|rs|, i requires 0 <= i < |rs| => Dec(rs[i].id))
  }

  /** With a formattable process id and a register mapper, a thread is live
      after the sync iff some record has its id. */
  lemma ThreadsRetained(st: StoreState, sid: Val, pid: Val, rm: Option<RegisterMapper>, rs: seq<ThreadRecord>, k: string)
    requires FormatHex(pid).Ok? && rm.Some?
    ensures var e := ThreadsSync(sid, pid, rm, rs);
      && e.outcome == Pass
      && (LiveAt(Run(st, e.ops), ThreadsPath(sid, pid) + [Elem(k)]) <==> exists i :: 0 <= i < |rs| && Dec(rs[i].id) == k)
  {
    var c := ThreadsPath(sid, pid);
    var steps := ThreadSteps(sid, pid, rm, rs);
    forall j | 0 <= j < |steps|
      ensures steps[j].error.None? && NoRetain(steps[j].ops) && steps[j].keys == [Bracket(ThreadIds(rs)[j])]
      ensures InsertObject(c + [Elem(ThreadIds(rs)[j])]) in steps[j].ops
    {
      ThreadStepFacts(sid, pid, rm, j, rs[j]);
    }
    KeyedRetained(st, c, steps, ThreadIds(rs), k);
  }

  /** When no step before the last raises, the last step's one write to
      `current_state` is what the sync leaves under that key. */
  lemma SyncLastNote(cs: map<string, Val>, c: Path, steps: seq<Step>, key: string, v: Val)
    requires |steps| > 0 && steps[|steps| - 1].notes == [(key, v)]
    requires forall j :: 0 <= j < |steps| - 1 ==> steps[j].error.None?
    ensures var after := ApplyNotes(cs, Finish(c, Chain(steps)).notes);
      key in after && after[key] == v
  {
    var init := steps[..|steps| - 1];
    ChainMembers(init);
    assert Chain(steps).notes == Chain(init).notes + [(key, v)];
    ApplyNotesSnoc(cs, Chain(init).notes, key, v);
  }

  /** A process id that cannot be formatted in hexadecimal, or a trace
      without a register mapper, ends a non-empty threads callback before
      the retain. */
  lemma ThreadsFailedKeep(st: StoreState, sid: Val, pid: Val, rm: Option<RegisterMapper>, rs: seq<ThreadRecord>, q: Path)
    requires |rs| > 0 && (FormatHex(pid).Err? || rm.None?)
    ensures var e := ThreadsSync(sid, pid, rm, rs);
      e.outcome.Fail? && (LiveAt(st, q) ==> LiveAt(Run(st, e.ops), q))
  {
    var steps := ThreadSteps(sid, pid, rm, rs);
    forall j | 0 <= j < |steps|
      ensures NoRetain(steps[j].ops) && steps[j].error.Some?
    {
      ThreadStepFacts(sid, pid, rm, j, rs[j]);
    }
    FailedKeeps(st, ThreadsPath(sid, pid), steps, 0, q);
  }

  // ---------------------------------------------------------------------
  // Frames
  // ---------------------------------------------------------------------

  lemma FrameFieldsNoRetain(p: Path, f: FrameRecord)
    ensures NoRetain(FrameFields(p, f))
  {
    var a := OptSet(p, "Name", StrVal(f.name));
    var b := OptSet(p, "_func", StrVal(f.moduleName)) + OptSet(p, "Module", StrVal(f.moduleName));
    var c := OptSet(p, "File", StrVal(f.fileName));
    var d := OptSet(p, "Line #", IntVal(f.lineNumber)) + OptSet(p, "Column #", IntVal(f.column));
    NoRetainAppend(OptSet(p, "_func", StrVal(f.moduleName)), OptSet(p, "Module", StrVal(f.moduleName)));
    NoRetainAppend(OptSet(p, "Line #", IntVal(f.lineNumber)), OptSet(p, "Column #", IntVal(f.column)));
    NoRetainAppend(a, b);
    NoRetainAppend(a + b, c);
    NoRetainAppend(a + b + c, d);
  }

  lemma FrameStepFacts(sid: Val, pid: Val, tid: Val, m: MemoryMapper, level: int, f: FrameRecord)
    ensures var s := FrameStep(sid, pid, tid, m, level, f);
      && NoRetain(s.ops)
      && s.keys == [Bracket(Dec(level))]
      && (s.error.None? <==> ParseInt0(f.address).Ok?)
      && (s.error.None? ==> InsertObject(FramesPath(sid, pid, tid) + [Elem(Dec(level))]) in s.ops)
  {
    var s := FrameStep(sid, pid, tid, m, level, f);
    var p := FramesPath(sid, pid, tid) + [Elem(Dec(level))];
    var parsed := ParseInt0(f.address);
    if parsed.Ok? {
      var head := [CreateObject(p), SetValue(p, "_pc", VAddr(Map(m, pid, parsed.value).1))];
      FrameFieldsNoRetain(p, f);
      NoRetainAppend(head, FrameFields(p, f));
      NoRetainAppend(head + FrameFields(p, f), Shown(p, FrameDisplay(level, f)));
      assert s.ops[|s.ops| - 1] == InsertObject(p);
    }
  }

  /** The levels `0` to `n - 1` in decimal. */
  function Levels(n: nat): (names: seq<string>)
    ensures |names| == n && forall i :: 0 <= i < n ==> names[i] == Dec(i)
  {
    seq(n, i requires 0 <= i < n => Dec(i))
  }

  /** When every address parses, a frame is live after the sync iff its
      level is below the number of records. */
  lemma FramesRetained(st: StoreState, sid: Val, pid: Val, tid: Val, m: MemoryMapper, fs: seq<FrameRecord>, k: string)
    requires forall i :: 0 <= i < |fs| ==> ParseInt0(fs[i].address).Ok?
    ensures var e := FramesSync(sid, pid, tid, m, fs);
      && e.outcome == Pass
      && (LiveAt(Run(st, e.ops), FramesPath(sid, pid, tid) + [Elem(k)]) <==> exists i :: 0 <= i < |fs| && Dec(i) == k)
  {
    var c := FramesPath(sid, pid, tid);
    var steps := FrameSteps(sid, pid, tid, m, fs);
    forall j | 0 <= j < |steps|
      ensures steps[j].error.None? && NoRetain(steps[j].ops) && steps[j].keys == [Bracket(Levels(|fs|)[j])]
      ensures InsertObject(c + [Elem(Levels(|fs|)[j])]) in steps[j].ops
    {
      FrameStepFacts(sid, pid, tid, m, j, fs[j]);
    }
    KeyedRetained(st, c, steps, Levels(|fs|), k);
  }

  /** When every address parses, the retain lists the keys `[0]` to
      `[n-1]`, in order. */
  lemma FramesKeys(sid: Val, pid: Val, tid: Val, m: MemoryMapper, fs: seq<FrameRecord>)
    requires forall i :: 0 <= i < |fs| ==> ParseInt0(fs[i].address).Ok?
    ensures var e := FramesSync(sid, pid, tid, m, fs);
      && |e.ops| > 0
      && e.ops[|e.ops| - 1] == RetainValues(FramesPath(sid, pid, tid), seq(|fs|, i requires 0 <= i < |fs| => Bracket(Dec(i))), Elements)
  {
    var steps := FrameSteps(sid, pid, tid, m, fs);
    forall j | 0 <= j < |steps|
      ensures steps[j].error.None? && steps[j].keys == [Bracket(Dec(j))]
    {
      FrameStepFacts(sid, pid, tid, m, j, fs[j]);
    }
    ChainSingleKeys(steps);
    var keys := seq(|fs|, i requires 0 <= i < |fs| => Bracket(Dec(i)));
    var c := Chain(steps);
    assert c.keys == keys by {
      forall j | 0 <= j < |fs|
        ensures c.keys[j] == keys[j]
      {
        assert c.keys[j] == steps[j].keys[0];
      }
    }
    assert FramesSync(sid, pid, tid, m, fs) == Finish(FramesPath(sid, pid, tid), c);
  }

  /** A present field as a one-word list, an absent one as none. */
  function Present(s: Option<string>): seq<string> {
    if s.Some? then [s.value] else []
  }

  /** The words of a frame's display: `#level`, the address, then each
      present field in the order name, module, file, line, column. */
  function FrameWords(level: int, f: FrameRecord): (ws: seq<string>)
    ensures |ws| >= 2 && ws[0] == "#" + Dec(level) && ws[1] == f.address
  {
    ["#" + Dec(level), f.address]
    + Present(f.name) + Present(f.moduleName) + Present(f.fileName)
    + Present(if f.lineNumber.Some? then Some(Dec(f.lineNumber.value)) else None)
    + Present(if f.column.Some? then Some(Dec(f.column.value)) else None)
  }

  lemma {:induction false} JoinSpaceSnoc(ws: seq<string>, w: string)
    requires |ws| > 0
    ensures JoinSpace(ws + [w]) == JoinSpace(ws) + " " + w
    decreases |ws|
  {
    if |ws| == 1 {
      assert ws + [w] == [ws[0], w];
      assert [ws[0], w][1..] == [w];
    } else {
      assert (ws + [w])[1..] == ws[1..] + [w];
      JoinSpaceSnoc(ws[1..], w);
    }
  }

  lemma JoinOpt(ws: seq<string>, o: Option<string>)
    requires |ws| > 0
    ensures JoinSpace(ws) + Opt(o) == JoinSpace(ws + Present(o))
  {
    if o.Some? {
      JoinSpaceSnoc(ws, o.value);
    } else {
      assert ws + Present(o) == ws;
    }
  }

  /** `compute_frame_display` joins exactly the words of `FrameWords` with
      single spaces. */
  lemma FrameDisplayWords(level: int, f: FrameRecord)
    ensures FrameDisplay(level, f) == JoinSpace(FrameWords(level, f))
  {
    var line := if f.lineNumber.Some? then Some(Dec(f.lineNumber.value)) else None;
    var column := if f.column.Some? then Some(Dec(f.column.value)) else None;
    var w0 := ["#" + Dec(level), f.address];
    assert w0[1..] == [f.address];
    assert JoinSpace(w0) == "#" + Dec(level) + " " + f.address;
    var w1 := w0 + Present(f.name);
    JoinOpt(w0, f.name);
    var w2 := w1 + Present(f.moduleName);
    JoinOpt(w1, f.moduleName);
    var w3 := w2 + Present(f.fileName);
    JoinOpt(w2, f.fileName);
    var w4 := w3 + Present(line);
    JoinOpt(w3, line);
    JoinOpt(w4, column);
  }

  lemma DecNoSpace(n: int)
    ensures NoSpace(Dec(n))
  {
    NatDigitsNoSpace(if n < 0 then -n else n, 10);
  }

  predicate AllNoSpace(ws: seq<string>) {
    forall i :: 0 <= i < |ws| ==> NoSpace(ws[i])
  }

  lemma AllNoSpaceAppend(a: seq<string>, o: seq<string>)
    requires AllNoSpace(a)
    requires |o| <= 1 && (|o| == 1 ==> NoSpace(o[0]))
    ensures AllNoSpace(a + o)
  {
  }

  /** When no field holds a space, splitting a frame's display at spaces
      gives back the level, the address and the present fields, in order. */
  lemma FrameDisplaySplit(level: int, f: FrameRecord)
    requires NoSpace(f.address)
    requires f.name.Some? ==> NoSpace(f.name.value)
    requires f.moduleName.Some? ==> NoSpace(f.moduleName.value)
    requires f.fileName.Some? ==> NoSpace(f.fileName.value)
    ensures SplitSpace(FrameDisplay(level, f)) == FrameWords(level, f)
  {
    FrameDisplayWords(level, f);
    DecNoSpace(level);
    if f.lineNumber.Some? {
      DecNoSpace(f.lineNumber.value);
    }
    if f.column.Some? {
      DecNoSpace(f.column.value);
    }
    var line := if f.lineNumber.Some? then Some(Dec(f.lineNumber.value)) else None;
    var column := if f.column.Some? then Some(Dec(f.column.value)) else None;
    var w := ["#" + Dec(level), f.address];
    assert NoSpace("#" + Dec(level));
    assert AllNoSpace(w);
    AllNoSpaceAppend(w, Present(f.name));
    w := w + Present(f.name);
    AllNoSpaceAppend(w, Present(f.moduleName));
    w := w + Present(f.moduleName);
    AllNoSpaceAppend(w, Present(f.fileName));
    w := w + Present(f.fileName);
    AllNoSpaceAppend(w, Present(line));
    w := w + Present(line);
    AllNoSpaceAppend(w, Present(column));
    w := w + Present(column);
    assert w == FrameWords(level, f);
    SplitJoin(w);
  }

  // ---------------------------------------------------------------------
  // Register batches
  // ---------------------------------------------------------------------

  /** Mapping a context is mapping its parts one after the other. */
  lemma {:induction false} MapRegistersAppend(m: RegisterMapper, a: seq<(string, string)>, b: seq<(string, string)>)
    ensures MapRegisters(m, a + b) == MapRegisters(m, a) + MapRegisters(m, b)
    decreases |b|
  {
    if |b| > 0 {
      var b' := b[..|b| - 1];
      assert (a + b)[..|a + b| - 1] == a + b';
      assert (a + b)[|a + b| - 1] == b[|b| - 1];
      MapRegistersAppend(m, a, b');
    } else {
      assert a + b == a;
    }
  }

  /** A register that does not map is skipped; the ones after it are still
      mapped and put. */
  lemma MapRegistersSkip(m: RegisterMapper, a: seq<(string, string)>, e: (string, string), b: seq<(string, string)>)
    requires MapOne(m, e).None?
    ensures MapRegisters(m, a + [e] + b) == MapRegisters(m, a) + MapRegisters(m, b)
  {
    MapRegistersAppend(m, a + [e], b);
    assert MapRegisters(m, a + [e]) == MapRegisters(m, a) by {
      assert (a + [e])[..|a + [e]| - 1] == a;
    }
  }

  lemma {:induction false} MappedSetsAppend(p: Path, m: RegisterMapper, a: seq<(string, string)>, b: seq<(string, string)>)
    ensures MappedSets(p, m, a + b) == MappedSets(p, m, a) + MappedSets(p, m, b)
    decreases |b|
  {
    if |b| > 0 {
      var b' := b[..|b| - 1];
      assert (a + b)[..|a + b| - 1] == a + b';
      assert (a + b)[|a + b| - 1] == b[|b| - 1];
      MappedSetsAppend(p, m, a, b');
    } else {
      assert a + b == a;
    }
  }

  /** In `put_reg_callback` a register that does not map gets no raw value
      either. */
  lemma MappedSetsSkip(p: Path, m: RegisterMapper, a: seq<(string, string)>, e: (string, string), b: seq<(string, string)>)
    requires MapOne(m, e).None?
    ensures MappedSets(p, m, a + [e] + b) == MappedSets(p, m, a) + MappedSets(p, m, b)
  {
    MappedSetsAppend(p, m, a + [e], b);
    assert MappedSets(p, m, a + [e]) == MappedSets(p, m, a) by {
      assert (a + [e])[..|a + [e]| - 1] == a;
    }
  }

  /** In `put_reg_callback` there is one raw value per register put, and in
      the threads callback one per register of the context. */
  lemma {:induction false} RegisterCounts(p: Path, m: RegisterMapper, ctx: seq<(string, string)>)
    ensures |MappedSets(p, m, ctx)| == |MapRegisters(m, ctx)| <= |ctx|
    ensures |RawSets(p, ctx)| == |ctx|
    decreases |ctx|
  {
    if |ctx| > 0 {
      RegisterCounts(p, m, ctx[..|ctx| - 1]);
    }
  }

  // ---------------------------------------------------------------------
  // Loaded classes
  // ---------------------------------------------------------------------

  /** The methods of a class are created and inserted in its methods
      container, nothing else. */
  lemma {:induction false} MethodOpsFacts(mp: Path, ms: seq<string>)
    ensures forall i :: 0 <= i < |MethodOps(mp, ms)| ==>
      var x := MethodOps(mp, ms)[i];
      (x.CreateObject? || x.InsertObject?) && |x.path| == |mp| + 1
    decreases |ms|
  {
    if |ms| > 0 {
      var init := ms[..|ms| - 1];
      MethodOpsFacts(mp, init);
      var n := |MethodOps(mp, init)|;
      var ops := MethodOps(mp, ms);
      assert ops == MethodOps(mp, init) + [CreateObject(mp + [Elem(ms[|ms| - 1])]), InsertObject(mp + [Elem(ms[|ms| - 1])])];
      forall i | 0 <= i < |ops|
        ensures (ops[i].CreateObject? || ops[i].InsertObject?) && |ops[i].path| == |mp| + 1
      {
        if i < n {
          assert ops[i] == MethodOps(mp, init)[i];
        }
      }
    }
  }

  lemma {:induction false} MethodKeysFacts(ms: seq<string>, k: string)
    ensures Bracket(k) in MethodKeys(ms) <==> k in ms
    decreases |ms|
  {
    if |ms| > 0 {
      var init := ms[..|ms| - 1];
      MethodKeysFacts(init, k);
      assert ms == init + [ms[|ms| - 1]];
      if Bracket(k) == Bracket(ms[|ms| - 1]) {
        BracketInjective(k, ms[|ms| - 1]);
      }
    }
  }

  /** Every retain in `ops` is on a container strictly below `c`, so none
      can clear an element of `c`. */
  predicate RetainsBelow(ops: seq<Op>, c: Path) {
    forall i :: 0 <= i < |ops| && ops[i].RetainValues? ==> |ops[i].container| > |c|
  }

  /** The only object of length `n` that `ops` inserts is `p`. */
  predicate InsertsAtDepth(ops: seq<Op>, n: nat, p: Path) {
    forall i :: 0 <= i < |ops| && ops[i].InsertObject? && |ops[i].path| == n ==> ops[i].path == p
  }

  lemma ShapeAppend(a: seq<Op>, b: seq<Op>, c: Path, p: Path)
    requires RetainsBelow(a, c) && RetainsBelow(b, c)
    requires InsertsAtDepth(a, |c| + 1, p) && InsertsAtDepth(b, |c| + 1, p)
    ensures RetainsBelow(a + b, c) && InsertsAtDepth(a + b, |c| + 1, p)
  {
    forall i | |a| <= i < |a + b|
      ensures (a + b)[i] == b[i - |a|]
    {
    }
  }

  /** The class object's own requests: no retain, and the one insert is
      of the object itself. */
  lemma ClassHeadFacts(p: Path, name: string, path: string)
    ensures NoRetain(ClassHead(p, name, path))
    ensures InsertObject(p) in ClassHead(p, name, path)
    ensures forall n: nat :: InsertsAtDepth(ClassHead(p, name, path), n, p)
  {
    assert ClassHead(p, name, path)[4] == InsertObject(p);
  }

  /** One class record: it never raises, inserts the class under its key,
      lists that key followed by the bracketed method names, and retains
      only its own methods container. */
  lemma ClassStepFacts(sid: Val, pid: Val, r: ClassRecord)
    ensures var s := ClassStep(sid, pid, r);
      && s.error.None?
      && RetainsBelow(s.ops, ClassesPath(sid, pid))
      && InsertObject(ClassesPath(sid, pid) + [Elem(ClassKey(r))]) in s.ops
      && s.keys == [Bracket(ClassKey(r))] + (if r.methods.Some? then MethodKeys(r.methods.value) else [])
      && InsertsAtDepth(s.ops, |ClassesPath(sid, pid)| + 1, ClassesPath(sid, pid) + [Elem(ClassKey(r))])
  {
    var c := ClassesPath(sid, pid);
    var key := ClassKey(r);
    var p := c + [Elem(key)];
    var name := if r.name.Some? then r.name.value else "";
    var path := if r.path.Some? then r.path.value else "";
    var head := ClassHead(p, name, path);
    ClassHeadFacts(p, name, path);
    assert RetainsBelow(head, c);
    if r.methods.Some? {
      var mp := MethodsPath(sid, pid, key);
      var ms := MethodOps(mp, r.methods.value);
      MethodOpsFacts(mp, r.methods.value);
      assert |mp| == |c| + 2;
      ShapeAppend(head, ms, c, p);
      ShapeAppend(head + ms, [RetainValues(mp, [], Elements)], c, p);
      assert InsertObject(p) in head + ms + [RetainValues(mp, [], Elements)];
    }
  }

  /** As written, a class that lists methods has them created, inserted and
      then cleared again at once: its own retain keeps no method. */
  lemma ClassStepClearsMethods(st: StoreState, sid: Val, pid: Val, r: ClassRecord, m: string)
    requires r.methods.Some?
    ensures !LiveAt(Run(st, ClassStep(sid, pid, r).ops), MethodsPath(sid, pid, ClassKey(r)) + [Elem(m)])
  {
    var mp := MethodsPath(sid, pid, ClassKey(r));
    var s := ClassStep(sid, pid, r);
    var before := s.ops[..|s.ops| - 1];
    assert s.ops == before + [RetainValues(mp, [], Elements)];
    RunSnoc(st, before, RetainValues(mp, [], Elements));
    RetainElement(Run(st, before), mp, [], Elements, m);
  }

  /** Every class record of a sync, one by one. */
  lemma ClassStepsFacts(sid: Val, pid: Val, cs: seq<ClassRecord>)
    ensures var steps := ClassSteps(sid, pid, cs);
      forall j :: 0 <= j < |steps| ==>
        && steps[j].error.None?
        && RetainsBelow(steps[j].ops, ClassesPath(sid, pid))
        && steps[j].keys == [Bracket(ClassKey(cs[j]))] + (if cs[j].methods.Some? then MethodKeys(cs[j].methods.value) else [])
  {
    forall j | 0 <= j < |cs|
      ensures ClassSteps(sid, pid, cs)[j] == ClassStep(sid, pid, cs[j])
    {
    }
    forall r | r in cs
      ensures var s := ClassStep(sid, pid, r);
        s.error.None? && RetainsBelow(s.ops, ClassesPath(sid, pid))
        && s.keys == [Bracket(ClassKey(r))] + (if r.methods.Some? then MethodKeys(r.methods.value) else [])
    {
      ClassStepFacts(sid, pid, r);
    }
  }

  /** No class record raises, and none clears an element of the classes
      container. */
  lemma ClassChainPrunes(sid: Val, pid: Val, cs: seq<ClassRecord>, q: Path)
    requires |q| == |ClassesPath(sid, pid)| + 1
    ensures var s := Chain(ClassSteps(sid, pid, cs));
      s.error.None? && forall i :: 0 <= i < |s.ops| ==> !PrunesPath(s.ops[i], q)
  {
    var steps := ClassSteps(sid, pid, cs);
    var s := Chain(steps);
    ClassStepsFacts(sid, pid, cs);
    ChainMembers(steps);
    forall i | 0 <= i < |s.ops|
      ensures !PrunesPath(s.ops[i], q)
    {
      assert s.ops[i] in s.ops;
      var j :| 0 <= j < |steps| && s.ops[i] in steps[j].ops;
      var n :| 0 <= n < |steps[j].ops| && steps[j].ops[n] == s.ops[i];
    }
  }

  /** One class record inserts an element of the classes container iff it
      has that key, and lists a key iff it has it or lists a method of that
      name. */
  lemma ClassStepMembers(sid: Val, pid: Val, r: ClassRecord, k: string)
    ensures InsertObject(ClassesPath(sid, pid) + [Elem(k)]) in ClassStep(sid, pid, r).ops <==> ClassKey(r) == k
    ensures Bracket(k) in ClassStep(sid, pid, r).keys <==> ClassKey(r) == k || (r.methods.Some? && k in r.methods.value)
  {
    var c := ClassesPath(sid, pid);
    var q := c + [Elem(k)];
    var s := ClassStep(sid, pid, r);
    ClassStepFacts(sid, pid, r);
    if InsertObject(q) in s.ops {
      var n :| 0 <= n < |s.ops| && s.ops[n] == InsertObject(q);
      assert q[|c|] == Elem(k);
    }
    if Bracket(k) in s.keys && Bracket(k) == Bracket(ClassKey(r)) {
      BracketInjective(k, ClassKey(r));
    }
    if r.methods.Some? {
      MethodKeysFacts(r.methods.value, k);
    }
  }

  /** An element of the classes container is inserted iff a record has its
      key. */
  lemma ClassChainInserts(sid: Val, pid: Val, cs: seq<ClassRecord>, k: string)
    ensures InsertObject(ClassesPath(sid, pid) + [Elem(k)]) in Chain(ClassSteps(sid, pid, cs)).ops
        <==> exists i :: 0 <= i < |cs| && ClassKey(cs[i]) == k
  {
    var q := ClassesPath(sid, pid) + [Elem(k)];
    var steps := ClassSteps(sid, pid, cs);
    ChainMembers(steps);
    if InsertObject(q) in Chain(steps).ops {
      var j :| 0 <= j < |steps| && InsertObject(q) in steps[j].ops;
      ClassStepMembers(sid, pid, cs[j], k);
    }
    if exists i :: 0 <= i < |cs| && ClassKey(cs[i]) == k {
      var j :| 0 <= j < |cs| && ClassKey(cs[j]) == k;
      ClassStepMembers(sid, pid, cs[j], k);
      assert InsertObject(q) in steps[j].ops;
    }
  }

  /** A key is listed iff a record has it or lists a method of that name. */
  lemma ClassChainKeys(sid: Val, pid: Val, cs: seq<ClassRecord>, k: string)
    ensures Bracket(k) in Chain(ClassSteps(sid, pid, cs)).keys <==>
      (exists i :: 0 <= i < |cs| && ClassKey(cs[i]) == k)
      || exists i :: 0 <= i < |cs| && cs[i].methods.Some? && k in cs[i].methods.value
  {
    var steps := ClassSteps(sid, pid, cs);
    ChainMembers(steps);
    if Bracket(k) in Chain(steps).keys {
      var j :| 0 <= j < |steps| && Bracket(k) in steps[j].keys;
      ClassStepMembers(sid, pid, cs[j], k);
    } else {
      forall j | 0 <= j < |cs|
        ensures ClassKey(cs[j]) != k && !(cs[j].methods.Some? && k in cs[j].methods.value)
      {
        ClassStepsFacts(sid, pid, cs);
        ClassStepMembers(sid, pid, cs[j], k);
      }
    }
  }

  /** After a classes sync, an element of the classes container is live
      iff some record has that key, or it was live before and some record
      lists a method of that name: the method names end up in the list the
      container is retained with. */
  lemma ClassesRetained(st: StoreState, sid: Val, pid: Val, cs: seq<ClassRecord>, k: string)
    ensures ClassesSync(sid, pid, cs).outcome == Pass
    ensures LiveAt(Run(st, ClassesSync(sid, pid, cs).ops), ClassesPath(sid, pid) + [Elem(k)])
        <==> ((exists i :: 0 <= i < |cs| && ClassKey(cs[i]) == k)
              || (LiveAt(st, ClassesPath(sid, pid) + [Elem(k)])
                  && exists i :: 0 <= i < |cs| && cs[i].methods.Some? && k in cs[i].methods.value))
  {
    var c := ClassesPath(sid, pid);
    var s := Chain(ClassSteps(sid, pid, cs));
    ClassChainPrunes(sid, pid, cs, c + [Elem(k)]);
    ClassChainInserts(sid, pid, cs, k);
    ClassChainKeys(sid, pid, cs, k);
    LiveAfter(st, s.ops, c + [Elem(k)]);
    RunSnoc(st, s.ops, RetainValues(c, s.keys, Elements));
    RetainElement(Run(st, s.ops), c, s.keys, Elements, k);
  }
}
