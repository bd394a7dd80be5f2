# ghidra-frida tracer core in Dafny

This project models the part of the ghidra-frida tracer that decides what
the tracer writes into a Ghidra trace. It covers three source files.

- `arch.py` resolves the Ghidra language and compiler from the target's
  architecture, endianness and OS/ABI. It also supplies the memory mapper and
  the register mappers.
- `commands.py` holds the session state machine. That is the `State` object
  with its client, trace and transaction, and the commands that drive it.
  It also holds the pure helpers `quantize_pages`, `compute_name`,
  `compute_frame_display` and the retain-switch parser. It also holds the
  sync callbacks, which turn a decoded Frida reply into object creations,
  insertions and one `retain_values`.
- `util.py` holds the module-level `current_state` selection dictionary and
  the `conv_map` convenience variables.

How the project is laid out:

- `wrappers.dfy` (`Wrappers`) has `Option`, `Result`, `Outcome` and the Python
  exceptions the model raises.
- `pytext.dfy` (`PyText`) models the Python builtins the core depends on:
  `int(s)`, `int(s, 0)`, `str(n)`, `hex(n)`, `'{:x}'`, `s.split(" ")` and
  `re.split(r'/|\\', s)[-1]`.
- `store.dfy` models values and the trace store.
  - `TraceValues` holds the values the tracer writes.
  - `TraceStore` models the remote store as the sequence of requests the
    client sends (`Trace.requests`). `Run` replays that sequence over an
    abstract map from object path to a live flag.
  - `RetainValues` follows the docstring of `ghidra_trace_retain_values`.
    Every element or attribute of the container whose key is not listed
    is cleared.
- `util.dfy` (`Util`) has `Globals`, a class with the two dictionaries as
  fields.
- `arch.dfy` (`Arch`, `ArchScenarios`) is pure functions over the tables,
  plus concrete scenario lemmas.
- `session.dfy` (`Session`) holds the following:
  - the `State` class and the trace start, stop and restart;
  - the transaction commands;
  - `putmem` and its cursor `MemCursor`;
  - `retain_values`;
  - the pure helpers.
- `sync.dfy` (`Sync`) covers the sync callbacks. Each callback is an
  imperative method over the `Trace` and `Globals` objects. It is proved
  against a function that describes one record as a `Step`. A `Step` holds
  the requests sent, the `current_state` writes, the keys appended and the
  exception raised. The steps are chained, and then the one final retain is
  added.
- `syncfacts.dfy` (`SyncFacts`) has the lemmas about what a sync leaves live
  in the store.

The following source behaviours are kept as written:

- An error reply reads as `{}`, so the callback retains the empty key list
  and clears the container.
- A record whose address does not parse raises mid-batch. The retain is then
  never reached, so nothing is cleared.
- The classes callback appends each method key to the class key list. It also
  retains every `Methods` container with an empty list.
- `current_state` holds module paths and bases in the same dictionary as the
  `sid`/`pid`/`tid`/`fid` selection.

## Model

| member | source | states |
|---|---|---|
| Arch.EndianTagOfSetting | src/main/py/ghidrafrida/arch.py:112-116 | the endian tag is `:BE:` exactly when the `endian` variable is `big`; every other setting, `auto` included, gives `:LE:` |
| Arch.GetOsabi | src/main/py/ghidrafrida/arch.py:119-128 | a set `osabi` variable is returned verbatim; `auto`/`default` falls back to the platform and fails exactly when no platform is available |
| Arch.MatchingMembers | src/main/py/ghidrafrida/arch.py:146-147 | the filtered candidates are exactly the table entries that contain the endian tag |
| Arch.InsertByRank | src/main/py/ghidrafrida/arch.py:146-149 | inserting into the ranked list keeps the multiset of candidates and puts the least-ranked first |
| Arch.SortByRank | src/main/py/ghidrafrida/arch.py:146-149 | the stable sort keyed `0` for `:default`, else by length, is a permutation of its input |
| Arch.SortSorted | src/main/py/ghidrafrida/arch.py:146-149 | the sorted list is ordered by rank |
| Arch.FirstLeast | src/main/py/ghidrafrida/arch.py:146-151 | the chosen index has least rank and precedes every other entry of that rank (stable tie-break) |
| Arch.SortHead | src/main/py/ghidrafrida/arch.py:146-151 | the head of the sorted list is the first least-ranked candidate |
| Arch.ComputeLanguage | src/main/py/ghidrafrida/arch.py:131-153 | a non-`auto` language is returned verbatim; otherwise the result carries the endian tag and is a table entry for the arch or the `DATA` fallback |
| Arch.LanguageChoice | src/main/py/ghidrafrida/arch.py:140-153 | with matching candidates the result is the first least-ranked one; with none, or an unknown arch, it is `DATA<tag>64:default` |
| Arch.ComputeCompiler | src/main/py/ghidrafrida/arch.py:156-171 | an override wins; a language absent from `compiler_map` gives `default`; otherwise the exact OS/ABI entry, then the `None` wildcard, then `default`; a failed OS/ABI query is propagated |
| Arch.ComputeLcsp | src/main/py/ghidrafrida/arch.py:174-177 | fails iff the compiler of the computed language cannot be resolved, with that error; otherwise the pair is the computed language and its compiler |
| Arch.Map | src/main/py/ghidrafrida/arch.py:185-187 | the mapped base and address space are the default space |
| Arch.MapBack | src/main/py/ghidrafrida/arch.py:189-195 | mapping back fails with ValueError exactly when the space is not the default one |
| Arch.MapRoundTrip | src/main/py/ghidrafrida/arch.py:185-195 | `map_back(map(p, x).addr) == x` |
| Arch.MemoryMapperIsFlat | src/main/py/ghidrafrida/arch.py:198-204 | every language gets the `ram` mapper, whose base always equals the address space, so the overlay branches of the callbacks are dead |
| Arch.NewDefaultRegisterMapper | src/main/py/ghidrafrida/arch.py:209-213 | the constructor accepts exactly `big` and `little` and raises ValueError otherwise |
| Arch.BigEndianRoundTrip | src/main/py/ghidrafrida/arch.py:218-225 | the byte encoding of a value below 256^n reads back as that value |
| Arch.MapValueBytes | src/main/py/ghidrafrida/arch.py:218-225 | `map_value` succeeds exactly for 0 <= v < 2^64, giving 8 big-endian bytes of v under the mapped name whatever the byte order; otherwise ValueError |
| Arch.IntelMapName | src/main/py/ghidrafrida/arch.py:239-247 | the x86-64 mapper sends None to `UNKNOWN`, `efl` to `rflags`, `zmmN` to `ymmN` and leaves every other name |
| Arch.TruncateYmm | src/main/py/ghidrafrida/arch.py:249-253 | a ymm value longer than 32 bytes keeps exactly its last 32 bytes; any other value is unchanged |
| Arch.IntelNameBackNotInverse | src/main/py/ghidrafrida/arch.py:255-257 | `map_name_back` gives `eflags` for `rflags` and None for all else, so it does not invert `map_name` |
| Arch.ComputeRegisterMapper | src/main/py/ghidrafrida/arch.py:263-274 | `x86:LE:64:default` gets the x86-64 mapper; otherwise a `:BE:` tag gives the big mapper, an `:LE:` tag the little one, and neither a KeyError |
| ArchScenarios.AutoLanguage | src/main/py/ghidrafrida/arch.py:140-151 | for a tabled arch with matches, the result is the first least-ranked match |
| ArchScenarios.X64Language | src/main/py/ghidrafrida/arch.py:131-151 | `x64` with automatic endianness resolves to `x86:LE:64:default` |
| ArchScenarios.X64Linux | src/main/py/ghidrafrida/arch.py:131-177 | `x64` on linux resolves to the pair `x86:LE:64:default`/`gcc` |
| ArchScenarios.X86Compilers | src/main/py/ghidrafrida/arch.py:88-93 | x86 gives windows→`windows`, Cygwin→`Visual Studio`, an unknown OS/ABI→`default` |
| ArchScenarios.CompilerOverrides | src/main/py/ghidrafrida/arch.py:156-171 | the `osabi` and `ghidra-compiler` overrides win; an untabled language gives `default`; a failed platform query raises |
| ArchScenarios.TableEntries | src/main/py/ghidrafrida/arch.py:22-82 | the table entries for `aarch64`, `i8086`, `z80`, `sparc:v9b` and the absence of `Unknown` |
| ArchScenarios.Aarch64Little | src/main/py/ghidrafrida/arch.py:140-151 | `aarch64`/little resolves to `AARCH64:LE:64:v8A` |
| ArchScenarios.Aarch64Big | src/main/py/ghidrafrida/arch.py:140-151 | `aarch64`/big resolves to `AARCH64:BE:64:v8A` |
| ArchScenarios.I8086 | src/main/py/ghidrafrida/arch.py:140-151 | `i8086` resolves to `x86:LE:16:Real Mode` (shorter id wins) |
| ArchScenarios.Z80 | src/main/py/ghidrafrida/arch.py:140-151 | `z80` resolves to `z80:LE:16:default` (`:default` wins) |
| ArchScenarios.SparcFallback | src/main/py/ghidrafrida/arch.py:150-153 | `sparc:v9b` little has no matching entry and falls back to `DATA:LE:64:default` |
| ArchScenarios.UnknownFallback | src/main/py/ghidrafrida/arch.py:144-145 | an untabled arch falls back to `DATA<tag>64:default` with the requested endianness |
| ArchScenarios.DataCompiler | src/main/py/ghidrafrida/arch.py:84-86 | both DATA languages get `pointer64` through the `None` wildcard |
| ArchScenarios.RegisterMapperX64 | src/main/py/ghidrafrida/arch.py:263-274 | `x86:LE:64:default` gets the x86-64 mapper |
| ArchScenarios.RegisterMapperLittle | src/main/py/ghidrafrida/arch.py:263-274 | `x86:LE:32:default` gets the little-endian default mapper |
| ArchScenarios.RegisterMapperBig | src/main/py/ghidrafrida/arch.py:263-274 | `DATA:BE:64:default` gets the big-endian default mapper |
| ArchScenarios.RegisterMapperUntagged | src/main/py/ghidrafrida/arch.py:268-274 | a language with neither tag raises KeyError |
| Session.State.RequireClient | src/main/py/ghidrafrida/commands.py:115-118 | succeeds iff a client is set, returning it; otherwise raises `Not connected` |
| Session.State.RequireNoClient | src/main/py/ghidrafrida/commands.py:120-122 | passes iff no client is set; otherwise raises `Already connected` |
| Session.State.RequireTrace | src/main/py/ghidrafrida/commands.py:128-131 | succeeds iff a trace is active, returning it; otherwise raises `No trace active` |
| Session.State.RequireNoTrace | src/main/py/ghidrafrida/commands.py:133-135 | passes iff no trace is active; otherwise raises `Trace already started` |
| Session.State.RequireTx | src/main/py/ghidrafrida/commands.py:142-145 | succeeds iff a transaction is open, returning it; otherwise raises `No transaction` |
| Session.State.RequireNoTx | src/main/py/ghidrafrida/commands.py:147-149 | passes iff no transaction is open; otherwise raises `Transaction already started` |
| Session.State.constructor | src/main/py/ghidrafrida/commands.py:110-111 | a new state has no client, trace or transaction, and `_ghidra_tracing` is `false` |
| Session.State.ResetTx | src/main/py/ghidrafrida/commands.py:151-152 | clears only the transaction |
| Session.State.ResetTrace | src/main/py/ghidrafrida/commands.py:137-140 | clears trace and transaction and sets `_ghidra_tracing` to `false` |
| Session.State.ResetClient | src/main/py/ghidrafrida/commands.py:124-126 | clears client, trace and transaction |
| Session.State.Connect | src/main/py/ghidrafrida/commands.py:158-181 | connecting fails iff a client is already set, leaving it; otherwise the new client is recorded |
| Session.State.Disconnect | src/main/py/ghidrafrida/commands.py:218-222 | fails iff there is no client, changing nothing; otherwise client, trace and transaction are reset and `_ghidra_tracing` is set to `false` |
| Session.State.TxStart | src/main/py/ghidrafrida/commands.py:378-384 | fails with an open transaction, then without a trace, changing nothing; otherwise opens the transaction and sends one start request, so at most one is tracked |
| Session.State.TxEnd | src/main/py/ghidrafrida/commands.py:387-406 | ends the open transaction with one end request and clears it; fails without one, changing nothing |
| Session.State.TxCommit | src/main/py/ghidrafrida/commands.py:387-393 | fails iff no transaction; otherwise commits and clears it |
| Session.State.TxAbort | src/main/py/ghidrafrida/commands.py:396-406 | fails iff no transaction; otherwise aborts and clears it |
| Session.State.StartTrace | src/main/py/ghidrafrida/commands.py:231-245 | a failed language/compiler resolution leaves no trace; otherwise the trace is created with the resolved pair, the root object written and `_ghidra_tracing` set to `true`; a missing register mapper leaves the trace created but rootless |
| Session.State.Start | src/main/py/ghidrafrida/commands.py:248-254 | fails without a client or with a running trace; otherwise a failed language/compiler resolution fails with its error and leaves no trace, a failed register mapper leaves the trace created but rootless, and on success a fresh trace named by `compute_name` is created with the resolved pair and mappers, holds just the root requests, and `_ghidra_tracing` is set to `true` |
| Session.State.Stop | src/main/py/ghidrafrida/commands.py:257-261 | fails iff no trace, changing nothing; otherwise closes it, resets trace and transaction and sets `_ghidra_tracing` to `false` |
| Session.State.Restart | src/main/py/ghidrafrida/commands.py:264-272 | fails without a client; otherwise closes any running trace and clears the transaction, then has the outcomes of `StartTrace`: no trace on a failed resolution, a rootless trace on a failed register mapper, and on success a fresh rooted trace with the resolved pair and `_ghidra_tracing` set to `true` |
| Session.CreateRoot | src/main/py/ghidrafrida/commands.py:240-243 | the root object is written inside its own transaction, which is closed again |
| Session.RootRequestsClose | src/main/py/ghidrafrida/commands.py:240-243 | replaying the root requests leaves no transaction open and the root object present, holding just its `_display` value |
| Session.ComputeNameShape | src/main/py/ghidrafrida/commands.py:225-228 | no program gives `frida/noname`; otherwise `frida/` then the longest separator-free suffix of the program path |
| Session.QuantizePages | src/main/py/ghidrafrida/commands.py:447-448 | the start is the page multiple at or below `start`, the end the page multiple at or above `end` |
| Session.QuantizeIdempotent | src/main/py/ghidrafrida/commands.py:447-448 | quantizing twice equals quantizing once |
| Session.ClampLength | src/main/py/ghidrafrida/commands.py:514-515 | a length below 4096 becomes 4096 and any other is kept; a non-number raises TypeError |
| Session.MemCursor.Putmem | src/main/py/ghidrafrida/commands.py:492-505 | None does nothing; an integer or a parsable `int(s, 0)` text becomes the last address with the given length; anything else raises and keeps the cursor |
| Session.PutmemCommand | src/main/py/ghidrafrida/commands.py:508-516 | without a transaction it raises and keeps the cursor; on success the recorded length is at least a page, and exactly the clamped length for integer inputs |
| Session.SwitchKind | src/main/py/ghidrafrida/commands.py:757-766 | a token is a switch exactly when it is one of the three spellings, which name distinct kinds |
| Session.ParseRetainKeys | src/main/py/ghidrafrida/commands.py:754-768 | a leading switch sets the kind and is dropped; any other leading `--` token raises `Invalid argument`; otherwise `elements` with every token kept |
| Session.RetainArgsRoundTrip | src/main/py/ghidrafrida/commands.py:754-768 | a kind switch followed by space-free keys parses back to that kind and those keys |
| Session.RetainKeysDefault | src/main/py/ghidrafrida/commands.py:754-768 | keys without a switch parse as `elements` with all of them kept |
| Session.RetainValuesCommand | src/main/py/ghidrafrida/commands.py:738-769 | without a transaction it raises; a bad switch raises and sends nothing; otherwise exactly one retain of the parsed keys and kind is sent |
| Util.GetOr | src/main/py/src/ghidrafrida/util.py:316-344 | a selection reads the stored value, or None when the key is absent |
| Util.LookupKey | src/main/py/src/ghidrafrida/util.py:372-374 | reading a dictionary key succeeds iff it is present, raising KeyError naming it otherwise |
| Util.ConvLookup | src/main/py/src/ghidrafrida/util.py:385-391 | a variable never set, or set to None, reads `auto`; any other reading is the stored value |
| Util.ConvSetGet | src/main/py/src/ghidrafrida/util.py:385-395 | after setting `id` to v, `id` reads v (or `auto` for None) and every other id reads as before |
| Util.ParseAndEval | src/main/py/src/ghidrafrida/util.py:377-379 | an integer is returned as is; a non-numeric value raises TypeError |
| Util.ParseAndEvalDecimal | src/main/py/src/ghidrafrida/util.py:377-379 | the decimal text of n evaluates to n, while `0x10` raises |
| Util.Globals.constructor | src/main/py/src/ghidrafrida/util.py:42-46 | the initial state is the initial selection and no convenience variable is set |
| Util.InitialSelection | src/main/py/src/ghidrafrida/util.py:42-46 | sid starts as `local` and pid/tid/fid as None |
| Util.Globals.SelectSession | src/main/py/src/ghidrafrida/util.py:347-349 | only `sid` changes and `selected_session` then returns the id |
| Util.Globals.SelectProcess | src/main/py/src/ghidrafrida/util.py:352-354 | only `pid` changes and `selected_process` then returns the id |
| Util.Globals.SelectThread | src/main/py/src/ghidrafrida/util.py:357-359 | only `tid` changes and `selected_thread` then returns the id |
| Util.Globals.SelectFrame | src/main/py/src/ghidrafrida/util.py:362-364 | only `fid` changes and `selected_frame` then returns the id |
| Util.SelectKeepsOthers | src/main/py/src/ghidrafrida/util.py:316-364 | selecting one of sid/pid/tid/fid leaves the other three selections as they were |
| Util.Globals.PutModuleAddress | src/main/py/src/ghidrafrida/util.py:367-374 | only that path's entry changes and reading it back gives the stored address |
| Util.Globals.SetConvenienceVariable | src/main/py/src/ghidrafrida/util.py:394-395 | only that id changes and a non-None value reads back as itself |
| PyText.DecRoundTrip | src/main/py/src/ghidrafrida/util.py:377-379 | `int(str(n)) == n` for every integer |
| PyText.DecInjective | src/main/py/ghidrafrida/commands.py:1814 | distinct integers give distinct decimal texts, so frame and thread keys never collide |
| PyText.DecRoundTrip0 | src/main/py/ghidrafrida/commands.py:501-502 | `int(str(n), 0) == n` for every integer |
| PyText.PyHexRoundTrip | src/main/py/ghidrafrida/commands.py:1184 | `int(hex(n), 0) == n` for every integer |
| PyText.JoinSplit | src/main/py/ghidrafrida/commands.py:754 | `" ".join(s.split(" ")) == s` and no part holds a space |
| PyText.SplitJoin | src/main/py/ghidrafrida/commands.py:754 | splitting the space-join of space-free words gives back those words |
| PyText.LastComponentShape | src/main/py/ghidrafrida/commands.py:228 | the last `/`-or-`\` component is a separator-free suffix preceded by a separator or the start |
| TraceStore.RetainElement | src/main/py/ghidrafrida/commands.py:738-752 | after a retain, an element of the container is live iff it was live and its key is listed |
| TraceStore.RetainKeepsOthers | src/main/py/ghidrafrida/commands.py:738-752 | an element retain changes nothing outside the container's own elements |
| TraceStore.LiveAfter | src/main/py/ghidrafrida/commands.py:1178-1199 | with nothing pruning a path, it is live after the requests iff it was live or was inserted |
| Sync.ValuesOf | src/main/py/ghidrafrida/commands.py:1669-1680 | a reply carrying a payload yields its records; any other reply yields none |
| Sync.DataOf | src/main/py/ghidrafrida/commands.py:1683-1689 | a payload's `data` field is returned; a payload without one raises KeyError; no payload reads `{}` |
| Sync.FormatHex | src/main/py/ghidrafrida/commands.py:1705-1711 | `'{:x}'` formats integers and booleans and raises for every other value |
| Sync.Finish | src/main/py/ghidrafrida/commands.py:1201-1202 | a batch that did not raise ends with one retain of its keys; one that raised sends no retain and fails |
| Sync.PutRegionsCallback | src/main/py/ghidrafrida/commands.py:1168-1202 | sends exactly the requests and `current_state` writes of the region records, then retains their keys, using the selection before the call |
| Sync.PutSectionsCallback | src/main/py/ghidrafrida/commands.py:1417-1451 | a reply without `data` raises and changes nothing; otherwise the section records are written under the module path and retained |
| Sync.PutModulesCallback | src/main/py/ghidrafrida/commands.py:1314-1351 | sends exactly the requests and `current_state` writes of the module records, then retains their keys |
| Sync.PutThreadsCallback | src/main/py/ghidrafrida/commands.py:1714-1759 | sends exactly the thread records' requests, selecting each thread in turn, then retains their keys |
| Sync.FindContext | src/main/py/ghidrafrida/commands.py:578-584 | a context is found iff some record's id equals the selected thread, and it is the context of the first such record |
| Sync.FindThread | src/main/py/ghidrafrida/commands.py:578-584 | the loop finds the first record whose id equals the selected thread |
| Sync.PutRegCallback | src/main/py/ghidrafrida/commands.py:572-600 | sends nothing when the selected thread is absent; otherwise the register container, the raw text of the registers that map, and one `put_registers` of the mapped values |
| Sync.PutFramesCallback | src/main/py/ghidrafrida/commands.py:1794-1835 | sends exactly the frame records' requests, level by level, then retains their keys |
| Sync.PutClassesCallback | src/main/py/ghidrafrida/commands.py:1862-1902 | sends exactly the class records' requests, method containers retained empty, then retains the class and method keys |
| SyncFacts.ChainMembers | src/main/py/ghidrafrida/commands.py:1174-1202 | a batch sends and lists only what its records do, raises iff one record raises, and otherwise sends and lists all of it |
| SyncFacts.SyncRetained | src/main/py/ghidrafrida/commands.py:1201-1202 | after a batch that did not raise, an element is live iff its key was listed, given that listing implies insertion |
| SyncFacts.FailedKeeps | src/main/py/ghidrafrida/commands.py:1184 | when a record raises, the batch fails and nothing that was live is cleared |
| SyncFacts.KeyedRetained | src/main/py/ghidrafrida/commands.py:1174-1202 | when every record inserts its own keyed element, exactly the listed keys stay live |
| SyncFacts.RangeStepFacts | src/main/py/ghidrafrida/commands.py:1177-1199 | a region record lists `[base]`, raises iff its base does not parse, and otherwise inserts its object |
| SyncFacts.RangesRetained | src/main/py/ghidrafrida/commands.py:1168-1202 | after a region sync whose bases all parse, a region is live iff some record has that base |
| SyncFacts.RangesFailedKeep | src/main/py/ghidrafrida/commands.py:1184 | a base that does not parse fails the region sync without clearing anything |
| SyncFacts.ErrorReplyClearsRegions | src/main/py/ghidrafrida/commands.py:1669-1680 | an error reply clears every region |
| SyncFacts.SectionsApart | src/main/py/ghidrafrida/commands.py:1450-1451 | retaining one module's sections never touches another module's sections |
| SyncFacts.SectionsWithoutPayload | src/main/py/ghidrafrida/commands.py:1683-1689 | a reply without payload writes only a retain under the `{}` module path and leaves every real module's sections as they were |
| SyncFacts.ModuleStepFacts | src/main/py/ghidrafrida/commands.py:1321-1349 | a module record lists `[path]`, raises iff its base does not parse, and otherwise inserts its object |
| SyncFacts.ModuleStepParts | src/main/py/ghidrafrida/commands.py:1345-1349 | a parsed module record inserts each of its five sub-containers |
| SyncFacts.ModulesRetained | src/main/py/ghidrafrida/commands.py:1314-1351 | after a module sync whose bases all parse, a module is live iff some record has that path |
| SyncFacts.ModulePartsLive | src/main/py/ghidrafrida/commands.py:1345-1351 | after such a sync every sub-container of every module is live |
| SyncFacts.ModulesFailedKeep | src/main/py/ghidrafrida/commands.py:1332 | a base that does not parse fails the module sync without clearing anything |
| SyncFacts.ThreadStepFacts | src/main/py/ghidrafrida/commands.py:1720-1757 | a thread record selects its tid, lists `[tid]`, raises iff the pid cannot be hex-formatted or there is no register mapper, and otherwise inserts its object |
| SyncFacts.ThreadStepsOutcome | src/main/py/ghidrafrida/commands.py:1720-1757 | with a formattable pid and a mapper, every thread record selects its own tid and none raises |
| SyncFacts.SyncLastNote | src/main/py/ghidrafrida/commands.py:1724 | after a batch whose last record writes a selection, that selection holds the last record's value |
| SyncFacts.ThreadsRetained | src/main/py/ghidrafrida/commands.py:1714-1759 | after a successful thread sync, a thread is live iff some record has that id |
| SyncFacts.ThreadsFailedKeep | src/main/py/ghidrafrida/commands.py:1714-1759 | with an unformattable pid or no mapper, the thread sync fails without clearing anything |
| SyncFacts.RawSetsFacts | src/main/py/ghidrafrida/commands.py:1748-1755 | the threads callback stores the raw text of every register, in order |
| SyncFacts.MapRegistersSkip | src/main/py/ghidrafrida/commands.py:592-600 | a register that fails to map is skipped and the ones around it are still mapped |
| SyncFacts.MappedSetsSkip | src/main/py/ghidrafrida/commands.py:592-600 | `put_reg_callback` stores no raw text for a register that fails to map, and still stores the others |
| SyncFacts.RegisterCounts | src/main/py/ghidrafrida/commands.py:592-600 | `put_reg_callback` stores as many raw values as it maps, never more than the context holds |
| SyncFacts.FrameStepFacts | src/main/py/ghidrafrida/commands.py:1800-1832 | a frame record at level i lists `[i]`, raises iff its address does not parse, and otherwise inserts its object |
| SyncFacts.FramesRetained | src/main/py/ghidrafrida/commands.py:1794-1835 | after a frame sync whose addresses all parse, a frame is live iff its level is below the record count |
| SyncFacts.FramesKeys | src/main/py/ghidrafrida/commands.py:1794-1835 | that sync retains exactly the keys `[0]` to `[n-1]`, in order |
| SyncFacts.FrameDisplayWords | src/main/py/ghidrafrida/commands.py:1779-1791 | the frame display is `#level`, the address and the present fields in the order name, module, file, line, column, joined by spaces |
| SyncFacts.FrameDisplaySplit | src/main/py/ghidrafrida/commands.py:1779-1791 | when no field holds a space, splitting the display gives back exactly those words |
| SyncFacts.MethodKeysFacts | src/main/py/ghidrafrida/commands.py:1890-1896 | the method keys listed are exactly the bracketed method names |
| SyncFacts.ClassStepFacts | src/main/py/ghidrafrida/commands.py:1868-1899 | a class record never raises, inserts its object, lists its key and then its method keys, and retains only below the classes container |
| SyncFacts.ClassStepClearsMethods | src/main/py/ghidrafrida/commands.py:1889-1898 | after a class with methods is written, none of its methods is live, since the container is retained with an empty list |
| SyncFacts.ClassChainKeys | src/main/py/ghidrafrida/commands.py:1862-1902 | a key is listed iff it is a class key or a method name of some class |
| SyncFacts.ClassesRetained | src/main/py/ghidrafrida/commands.py:1862-1902 | after a class sync, a class element is live iff some record has that key, or it was live and some class lists a method of that name |

## Left out

- Sockets, `ghidra_trace_connect`/`listen` address parsing, `Client`
  construction and the schema file read are not modelled. They are network
  and file I/O. `Session.State.Connect` takes an already-built client.
- The Frida side is not modelled. That covers `run_script`, `run_script_with_data`,
  `load_permanent_script`, the script text and the JSON decoding of replies.
  Each callback takes the decoded reply as a value, and the selection is
  read from `Globals`.
- `_Worker`, `DbgExecutor`, `GhidraDbg` and the engine-thread checks are not
  modelled. They are concurrency.
- `get_arch` and the device query of `get_osabi` are not modelled. The
  architecture is a parameter, and the platform is an `Option` parameter.
  A missing platform stands for the failed query, whose unbound `params`
  raises.
- The real store is replaced by an abstract live flag per path. That covers
  `put_bytes`, the register values, `create_overlay_space`, lifespans,
  snapshots and value storage. The requests are still recorded.
- `batch()` is left out. The model sends requests in order without
  batching.
- Values keep no typed schema.
- The `_display` strings that are only printed are not modelled. Those are
  `Tabular`, `print_values` and `repl`.
- `put_mem_callback`'s hexdump parsing and `write_mem` are not modelled.
  `Session.MemCursor.Putmem` stops after recording `last_address` and
  `last_length`.
- The kernel-region, heap, kernel-module, import, export, symbol and
  dependency callbacks are not modelled. They repeat the region/section
  loop over other record shapes.
- The class-loader callback and the hook commands are not modelled. They
  reference undefined names.
- `ghidra_util_wait_stopped` is not modelled. It is a timed spin.
- The `put_*` command wrappers are not modelled. Each of them checks
  `require_tx` and then runs the script. Their transaction check is modelled
  for `retain_values` and `putmem`.
- The dead overlay branches of the callbacks (`base != addr.space`) are left
  out. `Arch.MemoryMapperIsFlat` proves that the only mapper never takes
  them.
- Exceptions that Python raises from a missing dictionary key inside a
  record are not modelled. Records are datatypes with their optional fields
  as `Option`.
- PyText.Strip, PyText.ParseInt: whitespace and digits are the ASCII
  ones (whitespace includes the separators 0x1C to 0x1F, as in Python). Python's `str.strip` and `int()` also accept Unicode whitespace and
  digits, which the replies of the Frida scripts never contain.
- Session.PutmemCommand: states the recorded address and length only for
  integer inputs. Textual addresses are stated by `Session.MemCursor.Putmem`.
- SyncFacts.SyncLastNote: the thread left selected after a thread sync is
  stated through this lemma together with `SyncFacts.ThreadStepsOutcome`,
  not as one lemma about `Sync.ThreadsSync`.
- Sync.PutRegCallback, Sync.PutFramesCallback, Sync.PutClassesCallback: do
  not state that `current_state` is unchanged. These callbacks never write
  it.
