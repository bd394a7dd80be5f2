/** Resolution of the Ghidra language and compiler for a target, and the
    mappers that translate the target's addresses and registers into the
    trace's terms.  Everything here is table lookup and string tests; the
    device queries (the target's architecture and platform) are inputs. */
module Arch {
  import opened Wrappers
  import opened PyText
  import opened TraceValues

  // ---------------------------------------------------------------------
  // Tables
  // ---------------------------------------------------------------------

  /** The table of candidate Ghidra languages for each architecture name,
      as a lookup: `None` for a name the table does not list. */
  function LanguageMap(arch: string): Option<seq<string>> {
    match arch
    case "aarch64" => Some(["AARCH64:BE:64:v8A", "AARCH64:LE:64:AppleSilicon", "AARCH64:LE:64:v8A"])
    case "aarch64:ilp32" => Some(["AARCH64:BE:32:ilp32", "AARCH64:LE:32:ilp32", "AARCH64:LE:64:AppleSilicon"])
    case "arm_any" => Some(["ARM:BE:32:v8", "ARM:BE:32:v8T", "ARM:LE:32:v8", "ARM:LE:32:v8T"])
    case "armv2" => Some(["ARM:BE:32:v4", "ARM:LE:32:v4"])
    case "armv2a" => Some(["ARM:BE:32:v4", "ARM:LE:32:v4"])
    case "armv3" => Some(["ARM:BE:32:v4", "ARM:LE:32:v4"])
    case "armv3m" => Some(["ARM:BE:32:v4", "ARM:LE:32:v4"])
    case "armv4" => Some(["ARM:BE:32:v4", "ARM:LE:32:v4"])
    case "armv4t" => Some(["ARM:BE:32:v4t", "ARM:LE:32:v4t"])
    case "armv5" => Some(["ARM:BE:32:v5", "ARM:LE:32:v5"])
    case "armv5t" => Some(["ARM:BE:32:v5t", "ARM:LE:32:v5t"])
    case "armv5tej" => Some(["ARM:BE:32:v5t", "ARM:LE:32:v5t"])
    case "armv6" => Some(["ARM:BE:32:v6", "ARM:LE:32:v6"])
    case "armv6-m" => Some(["ARM:BE:32:Cortex", "ARM:LE:32:Cortex"])
    case "armv6k" => Some(["ARM:BE:32:Cortex", "ARM:LE:32:Cortex"])
    case "armv6kz" => Some(["ARM:BE:32:Cortex", "ARM:LE:32:Cortex"])
    case "armv6s-m" => Some(["ARM:BE:32:Cortex", "ARM:LE:32:Cortex"])
    case "armv7" => Some(["ARM:BE:32:v7", "ARM:LE:32:v7"])
    case "armv7e-m" => Some(["ARM:LE:32:Cortex"])
    case "armv8-a" => Some(["ARM:BE:32:v8", "ARM:LE:32:v8"])
    case "armv8-m.base" => Some(["ARM:BE:32:v8", "ARM:LE:32:v8"])
    case "armv8-m.main" => Some(["ARM:BE:32:v8", "ARM:LE:32:v8"])
    case "armv8-r" => Some(["ARM:BE:32:v8", "ARM:LE:32:v8"])
    case "armv8.1-m.main" => Some(["ARM:BE:32:v8", "ARM:LE:32:v8"])
    case "avr:107" => Some(["avr8:LE:24:xmega"])
    case "avr:31" => Some(["avr8:LE:16:default"])
    case "avr:51" => Some(["avr8:LE:16:atmega256"])
    case "avr:6" => Some(["avr8:LE:16:atmega256"])
    case "hppa2.0w" => Some(["pa-risc:BE:32:default"])
    case "i386" => Some(["x86:LE:32:default"])
    case "i386:intel" => Some(["x86:LE:32:default"])
    case "i386:x86-64" => Some(["x86:LE:64:default"])
    case "i386:x86-64:intel" => Some(["x86:LE:64:default"])
    case "i8086" => Some(["x86:LE:16:Protected Mode", "x86:LE:16:Real Mode"])
    case "iwmmxt" => Some(["ARM:BE:32:v7", "ARM:BE:32:v8", "ARM:BE:32:v8T", "ARM:LE:32:v7", "ARM:LE:32:v8", "ARM:LE:32:v8T"])
    case "m68hc12" => Some(["HC-12:BE:16:default"])
    case "m68k" => Some(["68000:BE:32:default"])
    case "m68k:68020" => Some(["68000:BE:32:MC68020"])
    case "m68k:68030" => Some(["68000:BE:32:MC68030"])
    case "m9s12x" => Some(["HCS-12:BE:24:default", "HCS-12X:BE:24:default"])
    case "mips:4000" => Some(["MIPS:BE:32:default", "MIPS:LE:32:default"])
    case "mips:5000" => Some(["MIPS:BE:64:64-32addr", "MIPS:BE:64:default", "MIPS:LE:64:64-32addr", "MIPS:LE:64:default"])
    case "mips:micromips" => Some(["MIPS:BE:32:micro"])
    case "msp:430X" => Some(["TI_MSP430:LE:16:default"])
    case "powerpc:403" => Some(["PowerPC:BE:32:4xx", "PowerPC:LE:32:4xx"])
    case "powerpc:MPC8XX" => Some(["PowerPC:BE:32:MPC8270", "PowerPC:BE:32:QUICC", "PowerPC:LE:32:QUICC"])
    case "powerpc:common" => Some(["PowerPC:BE:32:default", "PowerPC:LE:32:default"])
    case "powerpc:common64" => Some(["PowerPC:BE:64:64-32addr", "PowerPC:BE:64:default", "PowerPC:LE:64:64-32addr", "PowerPC:LE:64:default"])
    case "powerpc:e500" => Some(["PowerPC:BE:32:e500", "PowerPC:LE:32:e500"])
    case "powerpc:e500mc" => Some(["PowerPC:BE:64:A2ALT", "PowerPC:LE:64:A2ALT"])
    case "powerpc:e500mc64" => Some(["PowerPC:BE:64:A2-32addr", "PowerPC:BE:64:A2ALT-32addr", "PowerPC:LE:64:A2-32addr", "PowerPC:LE:64:A2ALT-32addr"])
    case "riscv:rv32" => Some(["RISCV:LE:32:RV32G", "RISCV:LE:32:RV32GC", "RISCV:LE:32:RV32I", "RISCV:LE:32:RV32IC", "RISCV:LE:32:RV32IMC", "RISCV:LE:32:default"])
    case "riscv:rv64" => Some(["RISCV:LE:64:RV64G", "RISCV:LE:64:RV64GC", "RISCV:LE:64:RV64I", "RISCV:LE:64:RV64IC", "RISCV:LE:64:default"])
    case "sh4" => Some(["SuperH4:BE:32:default", "SuperH4:LE:32:default"])
    case "sparc:v9b" => Some(["sparc:BE:32:default", "sparc:BE:64:default"])
    case "x86" => Some(["x86:LE:32:default"])
    case "x64" => Some(["x86:LE:64:default"])
    case "xscale" => Some(["ARM:BE:32:v6", "ARM:LE:32:v6"])
    case "z80" => Some(["z80:LE:16:default", "z8401x:LE:16:default"])
    case _ => None
  }

  /** Compiler recommendations for a language, keyed by OS/ABI; the `None`
      key applies to any OS/ABI not listed. */
  const Data64CompilerMap: map<Option<string>, string> := map[None := "pointer64"]

  const X86CompilerMap: map<Option<string>, string> := map[
    Some("linux") := "gcc",
    Some("windows") := "windows",
    Some("Cygwin") := "Visual Studio"
  ]

  const CompilerMap: map<string, map<Option<string>, string>> := map[
    "DATA:BE:64:default" := Data64CompilerMap,
    "DATA:LE:64:default" := Data64CompilerMap,
    "x86:LE:32:default" := X86CompilerMap,
    "x86:LE:64:default" := X86CompilerMap
  ]

  /** The values of the convenience variables the resolution consults, as
      `get_convenience_variable` returns them (`"auto"` when unset). */
  datatype Settings = Settings(language: string, compiler: string, endian: string, osabi: string)

  // ---------------------------------------------------------------------
  // Endianness and OS/ABI
  // ---------------------------------------------------------------------

  function GetEndian(parm: string): string {
    if parm != "auto" then parm else "little"
  }

  /** The tag a language id carries for an endianness. */
  function EndianTag(endian: string): string {
    if endian == "big" then ":BE:" else ":LE:"
  }

  /** Only an explicit `big` selects big-endian languages; `auto` means little. */
  lemma EndianTagOfSetting(parm: string)
    ensures EndianTag(GetEndian(parm)) == ":BE:" <==> parm == "big"
    ensures EndianTag(GetEndian(parm)) == ":LE:" <==> parm != "big"
  {
  }

  /** The OS/ABI: the variable unless it is `auto` or `default`, else the
      platform the target reports.  When the target could not be asked the
      source reads an unbound local, which raises. */
  function GetOsabi(parm: string, platform: Option<string>): (r: Result<string>)
    ensures r.Err? <==> (parm == "auto" || parm == "default") && platform.None?
    ensures r.Ok? && parm != "auto" && parm != "default" ==> r.value == parm
  {
    if parm != "auto" && parm != "default" then Ok(parm)
    else if platform.Some? then Ok(platform.value)
    else Err(NameError("params"))
  }

  // ---------------------------------------------------------------------
  // Language
  // ---------------------------------------------------------------------

  /** The fallback language for an endian tag. */
  function DataLanguage(tag: string): string {
    "DATA" + tag + "64:default"
  }

  /** The candidates carrying the endian tag, in table order. */
  function Matching(langs: seq<string>, tag: string): seq<string>
    decreases |langs|
  {
    if |langs| == 0 then []
    else if Contains(langs[0], tag) then [langs[0]] + Matching(langs[1..], tag)
    else Matching(langs[1..], tag)
  }

  /** The filter keeps exactly the candidates that carry the tag. */
  lemma {:induction false} MatchingMembers(langs: seq<string>, tag: string)
    ensures forall l :: l in Matching(langs, tag) <==> l in langs && Contains(l, tag)
    decreases |langs|
  {
    if |langs| > 0 {
      MatchingMembers(langs[1..], tag);
      assert langs == [langs[0]] + langs[1..];
    }
  }

  /** The sort key: `:default` variants first, then shorter ids. */
  function Rank(l: string): nat {
    if EndsWith(l, ":default") then 0 else |l|
  }

  predicate RankSorted(s: seq<string>) {
    forall i, j :: 0 <= i < j < |s| ==> Rank(s[i]) <= Rank(s[j])
  }

  /** Places `x` after every element of `t` that does not rank above it, so
      that equal ranks keep their order. */
  function InsertByRank(x: string, t: seq<string>): (r: seq<string>)
    ensures multiset(r) == multiset(t) + multiset{x}
    ensures r[0] == if |t| == 0 || Rank(x) < Rank(t[0]) then x else t[0]
    decreases |t|
  {
    if |t| == 0 then [x]
    else if Rank(x) < Rank(t[0]) then [x] + t
    else
      assert t == [t[0]] + t[1..];
      [t[0]] + InsertByRank(x, t[1..])
  }

  predicate RankedAtLeast(s: seq<string>, b: nat) {
    forall i :: 0 <= i < |s| ==> b <= Rank(s[i])
  }

  lemma {:induction false} InsertAtLeast(x: string, t: seq<string>, b: nat)
    requires RankedAtLeast(t, b) && b <= Rank(x)
    ensures RankedAtLeast(InsertByRank(x, t), b)
    decreases |t|
  {
    if |t| > 0 && Rank(x) >= Rank(t[0]) {
      InsertAtLeast(x, t[1..], b);
    }
  }

  lemma ConsSorted(a: string, rest: seq<string>)
    requires RankSorted(rest) && RankedAtLeast(rest, Rank(a))
    ensures RankSorted([a] + rest)
  {
    var r := [a] + rest;
    forall i, j | 0 <= i < j < |r|
      ensures Rank(r[i]) <= Rank(r[j])
    {
      assert r[j] == rest[j - 1];
      if i > 0 {
        assert r[i] == rest[i - 1];
      }
    }
  }

  lemma {:induction false} InsertSorted(x: string, t: seq<string>)
    requires RankSorted(t)
    ensures RankSorted(InsertByRank(x, t))
    decreases |t|
  {
    if |t| > 0 {
      if Rank(x) < Rank(t[0]) {
        assert RankedAtLeast(t, Rank(x)) by {
          forall i | 0 <= i < |t| ensures Rank(x) <= Rank(t[i]) {
            assert Rank(t[0]) <= Rank(t[i]);
          }
        }
        ConsSorted(x, t);
      } else {
        assert RankSorted(t[1..]) by {
          forall i, j | 0 <= i < j < |t| - 1 ensures Rank(t[1..][i]) <= Rank(t[1..][j]) {
            assert Rank(t[i + 1]) <= Rank(t[j + 1]);
          }
        }
        assert RankedAtLeast(t[1..], Rank(t[0])) by {
          forall i | 0 <= i < |t| - 1 ensures Rank(t[0]) <= Rank(t[1..][i]) {
            assert Rank(t[0]) <= Rank(t[i + 1]);
          }
        }
        InsertSorted(x, t[1..]);
        InsertAtLeast(x, t[1..], Rank(t[0]));
        ConsSorted(t[0], InsertByRank(x, t[1..]));
      }
    }
  }

  /** Python's `sorted(langs, key=Rank)`: a stable sort by rank. */
  function SortByRank(s: seq<string>): (r: seq<string>)
    ensures multiset(r) == multiset(s)
    decreases |s|
  {
    if |s| == 0 then []
    else
      var init := s[..|s| - 1];
      assert s == init + [s[|s| - 1]];
      InsertByRank(s[|s| - 1], SortByRank(init))
  }

  /** The sort orders by rank. */
  lemma {:induction false} SortSorted(s: seq<string>)
    ensures RankSorted(SortByRank(s))
    decreases |s|
  {
    if |s| > 0 {
      SortSorted(s[..|s| - 1]);
      InsertSorted(s[|s| - 1], SortByRank(s[..|s| - 1]));
    }
  }

  /** The first position of least rank. */
  function FirstLeast(s: seq<string>): (i: nat)
    requires |s| > 0
    ensures i < |s|
    ensures forall j :: 0 <= j < |s| ==> Rank(s[i]) <= Rank(s[j])
    ensures forall j :: 0 <= j < i ==> Rank(s[i]) < Rank(s[j])
    decreases |s|
  {
    if |s| == 1 then 0
    else
      var m := FirstLeast(s[..|s| - 1]);
      if Rank(s[|s| - 1]) < Rank(s[m]) then |s| - 1 else m
  }

  /** The head of the stable sort is the first candidate of least rank. */
  lemma {:induction false} SortHead(s: seq<string>)
    requires |s| > 0
    ensures SortByRank(s)[0] == s[FirstLeast(s)]
    decreases |s|
  {
    if |s| > 1 {
      var init := s[..|s| - 1];
      SortHead(init);
      assert init[FirstLeast(init)] == s[FirstLeast(init)];
    }
  }

  /** `compute_ghidra_language`, with the target's architecture as input. */
  function ComputeLanguage(language: string, arch: string, endian: string): (r: string)
    ensures language != "auto" ==> r == language
    ensures language == "auto" ==>
      Contains(r, EndianTag(GetEndian(endian)))
      && ((LanguageMap(arch).Some? && r in LanguageMap(arch).value) || r == DataLanguage(EndianTag(GetEndian(endian))))
  {
    if language != "auto" then language
    else
      var tag := EndianTag(GetEndian(endian));
      if LanguageMap(arch).None? then
        DataLanguageTagged(tag);
        DataLanguage(tag)
      else
        var matched := SortByRank(Matching(LanguageMap(arch).value, tag));
        if |matched| > 0 then
          assert matched[0] in multiset(matched);
          MatchingMembers(LanguageMap(arch).value, tag);
          matched[0]
        else
          DataLanguageTagged(tag);
          DataLanguage(tag)
  }

  lemma DataLanguageTagged(tag: string)
    requires tag == ":BE:" || tag == ":LE:"
    ensures Contains(DataLanguage(tag), tag)
  {
    var d := DataLanguage(tag);
    assert d[4..8] == tag;
    assert OccursAt(d, tag, 4);
  }

  /** An automatic language is the first candidate of least rank among
      those with the right endian tag, or `DATA` when there is none. */
  lemma LanguageChoice(arch: string, endian: string)
    ensures var tag := EndianTag(GetEndian(endian));
      var r := ComputeLanguage("auto", arch, endian);
      if LanguageMap(arch).Some? && |Matching(LanguageMap(arch).value, tag)| > 0 then
        var m := Matching(LanguageMap(arch).value, tag);
        r == m[FirstLeast(m)]
      else r == DataLanguage(tag)
  {
    var tag := EndianTag(GetEndian(endian));
    if LanguageMap(arch).Some? && |Matching(LanguageMap(arch).value, tag)| > 0 {
      SortHead(Matching(LanguageMap(arch).value, tag));
    }
  }

  // ---------------------------------------------------------------------
  // Compiler
  // ---------------------------------------------------------------------

  /** `compute_ghidra_compiler`, with the target's platform as input. */
  function ComputeCompiler(s: Settings, lang: string, platform: Option<string>): (r: Result<string>)
    ensures s.compiler != "auto" ==> r == Ok(s.compiler)
    ensures s.compiler == "auto" && lang !in CompilerMap ==> r == Ok("default")
    ensures s.compiler == "auto" && lang in CompilerMap ==>
      match GetOsabi(s.osabi, platform)
      case Err(e) => r == Err(e)
      case Ok(osabi) =>
        var compMap := CompilerMap[lang];
        && (Some(osabi) in compMap ==> r == Ok(compMap[Some(osabi)]))
        && (Some(osabi) !in compMap && None in compMap ==> r == Ok(compMap[None]))
        && (Some(osabi) !in compMap && None !in compMap ==> r == Ok("default"))
  {
    if s.compiler != "auto" then Ok(s.compiler)
    else if lang !in CompilerMap then Ok("default")
    else
      var compMap := CompilerMap[lang];
      var osabi :- GetOsabi(s.osabi, platform);
      if Some(osabi) in compMap then Ok(compMap[Some(osabi)])
      else if None in compMap then Ok(compMap[None])
      else Ok("default")
  }

  /** `compute_ghidra_lcsp`: the language, then the compiler for it. */
  function ComputeLcsp(s: Settings, arch: string, platform: Option<string>): (r: Result<(string, string)>)
    ensures var lang := ComputeLanguage(s.language, arch, s.endian);
      && (r.Ok? <==> ComputeCompiler(s, lang, platform).Ok?)
      && (r.Ok? ==> r.value == (lang, ComputeCompiler(s, lang, platform).value))
      && (r.Err? ==> r.error == ComputeCompiler(s, lang, platform).error)
  {
    var lang := ComputeLanguage(s.language, arch, s.endian);
    var comp :- ComputeCompiler(s, lang, platform);
    Ok((lang, comp))
  }

  // ---------------------------------------------------------------------
  // Memory mapper
  // ---------------------------------------------------------------------

  /** Maps every offset into one default address space. */
  datatype MemoryMapper = DefaultMemoryMapper(defaultSpace: string)

  const DefaultMemory := DefaultMemoryMapper("ram")

  /** Language-specific memory mappers: none are defined. */
  const MemoryMappers: map<string, MemoryMapper> := map[]

  function Map(m: MemoryMapper, proc: Val, offset: int): (r: (string, Address))
    ensures r.0 == r.1.space == m.defaultSpace
  {
    (m.defaultSpace, Address(m.defaultSpace, offset))
  }

  function MapBack(m: MemoryMapper, proc: Val, a: Address): (r: Result<int>)
    ensures r.Err? <==> a.space != m.defaultSpace
    ensures r.Err? ==> r.error.ValueError?
  {
    if a.space == m.defaultSpace then Ok(a.offset)
    else Err(ValueError("Address is not in process"))
  }

  /** `map_back` undoes `map`. */
  lemma MapRoundTrip(m: MemoryMapper, proc: Val, offset: int)
    ensures MapBack(m, proc, Map(m, proc, offset).1) == Ok(offset)
  {
  }

  function ComputeMemoryMapper(lang: string): MemoryMapper {
    LookupOr(MemoryMappers, lang, DefaultMemory)
  }

  /** `m[k]` when `k` is a key of `m`, else `d`. */
  function LookupOr<K, V>(m: map<K, V>, k: K, d: V): V {
    if k !in m then d else m[k]
  }

  /** Every language gets the flat `ram` mapper, which never names an
      overlay space: the base it returns is its address's space. */
  lemma MemoryMapperIsFlat(lang: string, proc: Val, offset: int)
    ensures ComputeMemoryMapper(lang) == DefaultMemory
    ensures var (base, addr) := Map(ComputeMemoryMapper(lang), proc, offset);
      base == addr.space == "ram" && addr.offset == offset
  {
  }

  // ---------------------------------------------------------------------
  // Register mappers
  // ---------------------------------------------------------------------

  datatype RegisterMapper = DefaultRegisterMapper(byteOrder: string) | IntelX86_64RegisterMapper

  /** The default mapper's constructor accepts only `big` and `little`. */
  function NewDefaultRegisterMapper(byteOrder: string): (r: Result<RegisterMapper>)
    ensures r.Ok? <==> byteOrder == "big" || byteOrder == "little"
    ensures r.Ok? ==> r.value == DefaultRegisterMapper(byteOrder)
    ensures r.Err? ==> r.error.ValueError?
  {
    if byteOrder in ["big", "little"] then Ok(DefaultRegisterMapper(byteOrder))
    else Err(ValueError("Invalid byte_order: " + byteOrder))
  }

  function ByteOrder(m: RegisterMapper): string {
    match m
    case DefaultRegisterMapper(b) => b
    case IntelX86_64RegisterMapper => "little"
  }

  function MapName(m: RegisterMapper, name: Option<string>): (r: Option<string>)
  {
    match m
    case DefaultRegisterMapper(_) => name
    case IntelX86_64RegisterMapper =>
      if name.None? then Some("UNKNOWN")
      else if name.value == "efl" then Some("rflags")
      else if StartsWith(name.value, "zmm") then Some("ymm" + name.value[3..])
      else name
  }

  function MapNameBack(m: RegisterMapper, name: string): Option<string> {
    match m
    case DefaultRegisterMapper(_) => Some(name)
    case IntelX86_64RegisterMapper => if name == "rflags" then Some("eflags") else None
  }

  const TwoTo64: int := 0x1_0000_0000_0000_0000

  /** `value.to_bytes(n, "big")`. */
  function BigEndian(value: nat, n: nat): (r: seq<byte>)
    ensures |r| == n
    decreases n
  {
    if n == 0 then [] else BigEndian(value / 256, n - 1) + [(value % 256) as byte]
  }

  /** `int.from_bytes(b, "big")`. */
  function FromBigEndian(b: seq<byte>): nat
    decreases |b|
  {
    if |b| == 0 then 0 else FromBigEndian(b[..|b| - 1]) * 256 + b[|b| - 1] as nat
  }

  function Pow256(n: nat): (r: nat)
    ensures r > 0
  {
    if n == 0 then 1 else 256 * Pow256(n - 1)
  }

  /** The big-endian bytes of a value that fits read back as the value. */
  lemma {:induction false} BigEndianRoundTrip(value: nat, n: nat)
    requires value < Pow256(n)
    ensures FromBigEndian(BigEndian(value, n)) == value
    decreases n
  {
    if n > 0 {
      var q, d := value / 256, value % 256;
      assert value == q * 256 + d;
      assert q < Pow256(n - 1);
      BigEndianRoundTrip(q, n - 1);
      var b := BigEndian(value, n);
      assert b[..|b| - 1] == BigEndian(q, n - 1);
    }
  }

  /** Keeps the last 32 bytes of a `ymm` value longer than that. */
  function TruncateYmm(rv: RegVal): (r: RegVal)
    ensures r.name == rv.name
    ensures StartsWith(rv.name, "ymm") && |rv.bytes| > 32 ==>
      |r.bytes| == 32 && forall i :: 0 <= i < 32 ==> r.bytes[i] == rv.bytes[|rv.bytes| - 32 + i]
    ensures !(StartsWith(rv.name, "ymm") && |rv.bytes| > 32) ==> r == rv
  {
    if StartsWith(rv.name, "ymm") && |rv.bytes| > 32 then RegVal(rv.name, rv.bytes[|rv.bytes| - 32..])
    else rv
  }

  /** `map_value`: eight big-endian bytes under the mapped name; a value
      outside [0, 2^64) cannot be converted and raises. */
  function MapValue(m: RegisterMapper, name: string, value: int): (r: Result<RegVal>)
  {
    if 0 <= value < TwoTo64 then
      var rv := RegVal(MapName(m, Some(name)).value, BigEndian(value, 8));
      if m.IntelX86_64RegisterMapper? then Ok(TruncateYmm(rv)) else Ok(rv)
    else Err(ValueError("Cannot convert " + name + "'s value"))
  }

  /** Whatever the byte order, a value converts iff it lies in [0, 2^64),
      into eight bytes that read back big-endian as the value, under the
      mapped name; the x86-64 mapper's `ymm` truncation never applies to
      eight bytes. */
  lemma MapValueBytes(m: RegisterMapper, name: string, value: int)
    ensures MapValue(m, name, value).Ok? <==> 0 <= value < TwoTo64
    ensures MapValue(m, name, value).Err? ==> MapValue(m, name, value).error.ValueError?
    ensures MapValue(m, name, value).Ok? ==>
      var rv := MapValue(m, name, value).value;
      rv.name == MapName(m, Some(name)).value && |rv.bytes| == 8 && FromBigEndian(rv.bytes) == value
  {
    if 0 <= value < TwoTo64 {
      assert Pow256(8) == TwoTo64;
      BigEndianRoundTrip(value, 8);
    }
  }

  /** The x86-64 renames: `None` becomes `UNKNOWN`, `efl` becomes `rflags`,
      `zmmN` becomes `ymmN`, and any other name is kept. */
  lemma IntelMapName(name: string)
    ensures MapName(IntelX86_64RegisterMapper, None) == Some("UNKNOWN")
    ensures name == "efl" ==> MapName(IntelX86_64RegisterMapper, Some(name)) == Some("rflags")
    ensures StartsWith(name, "zmm") ==> MapName(IntelX86_64RegisterMapper, Some(name)) == Some("ymm" + name[3..])
    ensures name != "efl" && !StartsWith(name, "zmm") ==> MapName(IntelX86_64RegisterMapper, Some(name)) == Some(name)
  {
    if StartsWith(name, "zmm") {
      assert name[0] == 'z' != "efl"[0];
    }
  }

  /** `map_name_back` does not undo `map_name` on x86-64: it knows only
      `rflags`, which it sends to `eflags` rather than back to `efl`. */
  lemma IntelNameBackNotInverse(name: string)
    ensures MapNameBack(IntelX86_64RegisterMapper, MapName(IntelX86_64RegisterMapper, Some("efl")).value) == Some("eflags")
    ensures name != "rflags" ==> MapNameBack(IntelX86_64RegisterMapper, name).None?
    ensures MapNameBack(IntelX86_64RegisterMapper, MapName(IntelX86_64RegisterMapper, Some("rax")).value) != Some("rax")
  {
  }

  /** The two module-level default mappers, built through the checking
      constructor. */
  const DefaultBeRegisterMapper := NewDefaultRegisterMapper("big")
  const DefaultLeRegisterMapper := NewDefaultRegisterMapper("little")

  const RegisterMappers: map<string, RegisterMapper> := map["x86:LE:64:default" := IntelX86_64RegisterMapper]

  function ComputeRegisterMapper(lang: string): (r: Result<RegisterMapper>)
    ensures lang == "x86:LE:64:default" ==> r == Ok(IntelX86_64RegisterMapper)
    ensures lang != "x86:LE:64:default" ==>
      (Contains(lang, ":BE:") ==> r == Ok(DefaultRegisterMapper("big")))
      && (!Contains(lang, ":BE:") && Contains(lang, ":LE:") ==> r == Ok(DefaultRegisterMapper("little")))
      && (!Contains(lang, ":BE:") && !Contains(lang, ":LE:") ==> r == Err(KeyError(lang)))
  {
    if lang !in RegisterMappers && Contains(lang, ":BE:") then DefaultBeRegisterMapper
    else if lang !in RegisterMappers && Contains(lang, ":LE:") then DefaultLeRegisterMapper
    else if lang in RegisterMappers then Ok(RegisterMappers[lang])
    else Err(KeyError(lang))
  }
}

module ArchScenarios {
  import opened Wrappers
  import opened PyText
  import opened Arch

  const AutoSettings := Settings("auto", "auto", "auto", "auto")

  /** The language an unset `ghidra-language` resolves to when the table
      lists `candidates` for the architecture. */
  lemma AutoLanguage(arch: string, endian: string, candidates: seq<string>, matched: seq<string>)
    requires LanguageMap(arch) == Some(candidates)
    requires Matching(candidates, EndianTag(GetEndian(endian))) == matched
    requires |matched| > 0
    ensures ComputeLanguage("auto", arch, endian) == matched[FirstLeast(matched)]
  {
    LanguageChoice(arch, endian);
  }

  lemma X64Language()
    ensures ComputeLanguage("auto", "x64", "auto") == "x86:LE:64:default"
  {
    var l := "x86:LE:64:default";
    assert LanguageMap("x64") == Some([l]);
    assert Matching([l], ":LE:") == [l] by {
      assert OccursAt(l, ":LE:", 3);
    }
    AutoLanguage("x64", "auto", [l], [l]);
  }

  /** `x64`, little-endian, on Linux: `x86:LE:64:default` with `gcc`. */
  lemma X64Linux()
    ensures ComputeLcsp(AutoSettings, "x64", Some("linux")) == Ok(("x86:LE:64:default", "gcc"))
  {
    X64Language();
    assert ComputeCompiler(AutoSettings, "x86:LE:64:default", Some("linux")) == Ok("gcc");
  }

  /** The x86 compiler table: `windows` for Windows, `Visual Studio` for
      Cygwin, and `default` for a platform it does not list. */
  lemma X86Compilers()
    ensures ComputeCompiler(AutoSettings, "x86:LE:64:default", Some("windows")) == Ok("windows")
    ensures ComputeCompiler(AutoSettings, "x86:LE:32:default", Some("Cygwin")) == Ok("Visual Studio")
    ensures ComputeCompiler(AutoSettings, "x86:LE:64:default", Some("freebsd")) == Ok("default")
  {
    assert Some("freebsd") !in X86CompilerMap;
  }

  /** An explicit `osabi` wins over the platform, and a language without
      compiler recommendations gets `default` without asking the target. */
  lemma CompilerOverrides()
    ensures ComputeCompiler(Settings("auto", "auto", "auto", "windows"), "x86:LE:64:default", Some("linux")) == Ok("windows")
    ensures ComputeCompiler(AutoSettings, "ARM:LE:32:v8", None) == Ok("default")
    ensures ComputeCompiler(Settings("auto", "clang", "auto", "auto"), "x86:LE:64:default", None) == Ok("clang")
    ensures ComputeCompiler(AutoSettings, "x86:LE:64:default", None).Err?
  {
    assert "ARM:LE:32:v8" !in CompilerMap;
  }

  /** The table's entries for the architectures below. */
  lemma TableEntries()
    ensures LanguageMap("aarch64") == Some(["AARCH64:BE:64:v8A", "AARCH64:LE:64:AppleSilicon", "AARCH64:LE:64:v8A"])
    ensures LanguageMap("i8086") == Some(["x86:LE:16:Protected Mode", "x86:LE:16:Real Mode"])
    ensures LanguageMap("z80") == Some(["z80:LE:16:default", "z8401x:LE:16:default"])
    ensures LanguageMap("sparc:v9b") == Some(["sparc:BE:32:default", "sparc:BE:64:default"])
    ensures LanguageMap("Unknown") == None
  {
  }

  /** Which `aarch64` candidates carry which tag. */
  lemma Aarch64Tags()
    ensures Matching(["AARCH64:BE:64:v8A", "AARCH64:LE:64:AppleSilicon", "AARCH64:LE:64:v8A"], ":LE:")
         == ["AARCH64:LE:64:AppleSilicon", "AARCH64:LE:64:v8A"]
    ensures Matching(["AARCH64:BE:64:v8A", "AARCH64:LE:64:AppleSilicon", "AARCH64:LE:64:v8A"], ":BE:")
         == ["AARCH64:BE:64:v8A"]
  {
    var be, apple, v8 := "AARCH64:BE:64:v8A", "AARCH64:LE:64:AppleSilicon", "AARCH64:LE:64:v8A";
    assert be[7..11] == ":BE:" && apple[7..11] == ":LE:" && v8[7..11] == ":LE:";
    assert OccursAt(be, ":BE:", 7);
    assert OccursAt(apple, ":LE:", 7);
    assert OccursAt(v8, ":LE:", 7);
    NotContainsChar(be, ":LE:", 1);
    NotContainsChar(apple, ":BE:", 1);
    NotContainsChar(v8, ":BE:", 1);
    assert [be, apple, v8][1..] == [apple, v8];
    assert [apple, v8][1..] == [v8];
  }

  /** `aarch64`, little-endian: the shorter `AARCH64:LE:64:v8A` wins over
      `AARCH64:LE:64:AppleSilicon`. */
  lemma Aarch64Little()
    ensures ComputeLanguage("auto", "aarch64", "little") == "AARCH64:LE:64:v8A"
  {
    var be, apple, v8 := "AARCH64:BE:64:v8A", "AARCH64:LE:64:AppleSilicon", "AARCH64:LE:64:v8A";
    TableEntries();
    Aarch64Tags();
    RankByLength(apple);
    RankByLength(v8);
    AutoLanguage("aarch64", "little", [be, apple, v8], [apple, v8]);
  }

  /** `aarch64`, big-endian: its one big-endian candidate. */
  lemma Aarch64Big()
    ensures ComputeLanguage("auto", "aarch64", "big") == "AARCH64:BE:64:v8A"
  {
    var be, apple, v8 := "AARCH64:BE:64:v8A", "AARCH64:LE:64:AppleSilicon", "AARCH64:LE:64:v8A";
    TableEntries();
    Aarch64Tags();
    AutoLanguage("aarch64", "big", [be, apple, v8], [be]);
  }

  /** A candidate whose last character is not `t` is ranked by its length. */
  lemma RankByLength(l: string)
    requires |l| > 0 && l[|l| - 1] != 't'
    ensures Rank(l) == |l|
  {
    assert !EndsWith(l, ":default") by {
      if |l| >= 8 {
        assert l[|l| - 8..][7] == l[|l| - 1];
      }
    }
  }

  lemma I8086Tags()
    ensures Matching(["x86:LE:16:Protected Mode", "x86:LE:16:Real Mode"], ":LE:")
         == ["x86:LE:16:Protected Mode", "x86:LE:16:Real Mode"]
  {
    var pm, rm := "x86:LE:16:Protected Mode", "x86:LE:16:Real Mode";
    assert pm[3..7] == ":LE:" && rm[3..7] == ":LE:";
    assert OccursAt(pm, ":LE:", 3);
    assert OccursAt(rm, ":LE:", 3);
    assert [pm, rm][1..] == [rm];
  }

  /** `i8086`: neither candidate is a `:default`, so the shorter
      `x86:LE:16:Real Mode` wins. */
  lemma I8086()
    ensures ComputeLanguage("auto", "i8086", "auto") == "x86:LE:16:Real Mode"
  {
    var pm, rm := "x86:LE:16:Protected Mode", "x86:LE:16:Real Mode";
    TableEntries();
    I8086Tags();
    RankByLength(pm);
    RankByLength(rm);
    AutoLanguage("i8086", "auto", [pm, rm], [pm, rm]);
  }

  lemma Z80Tags()
    ensures Matching(["z80:LE:16:default", "z8401x:LE:16:default"], ":LE:")
         == ["z80:LE:16:default", "z8401x:LE:16:default"]
  {
    var a, b := "z80:LE:16:default", "z8401x:LE:16:default";
    assert a[3..7] == ":LE:" && b[6..10] == ":LE:";
    assert OccursAt(a, ":LE:", 3);
    assert OccursAt(b, ":LE:", 6);
    assert [a, b][1..] == [b];
  }

  /** `z80`: both candidates are `:default` variants, and the tie keeps
      table order. */
  lemma Z80()
    ensures ComputeLanguage("auto", "z80", "auto") == "z80:LE:16:default"
  {
    var a, b := "z80:LE:16:default", "z8401x:LE:16:default";
    TableEntries();
    Z80Tags();
    assert Rank(a) == 0 && Rank(b) == 0 by {
      assert a[|a| - 8..] == ":default" && b[|b| - 8..] == ":default";
    }
    AutoLanguage("z80", "auto", [a, b], [a, b]);
  }

  lemma SparcTags()
    ensures Matching(["sparc:BE:32:default", "sparc:BE:64:default"], ":LE:") == []
  {
    var a, b := "sparc:BE:32:default", "sparc:BE:64:default";
    NotContainsChar(a, ":LE:", 1);
    NotContainsChar(b, ":LE:", 1);
    assert [a, b][1..] == [b];
  }

  /** `sparc:v9b` has only big-endian candidates, so a little-endian target
      falls back to `DATA:LE:64:default`. */
  lemma SparcFallback()
    ensures ComputeLanguage("auto", "sparc:v9b", "auto") == "DATA:LE:64:default"
  {
    TableEntries();
    SparcTags();
    LanguageChoice("sparc:v9b", "auto");
  }

  /** An architecture the table does not know gets `DATA` too. */
  lemma UnknownFallback()
    ensures ComputeLanguage("auto", "Unknown", "big") == "DATA:BE:64:default"
  {
    TableEntries();
    LanguageChoice("Unknown", "big");
  }

  /** The `DATA` languages' compiler is `pointer64`, whatever the platform. */
  lemma DataCompiler(platform: Option<string>)
    requires platform.Some?
    ensures ComputeCompiler(AutoSettings, "DATA:LE:64:default", platform) == Ok("pointer64")
    ensures ComputeCompiler(AutoSettings, "DATA:BE:64:default", platform) == Ok("pointer64")
  {
  }

  /** The x86-64 language gets the x86-64 register mapper. */
  lemma RegisterMapperX64()
    ensures ComputeRegisterMapper("x86:LE:64:default") == Ok(IntelX86_64RegisterMapper)
  {
  }

  lemma RegisterMapperLittle()
    ensures ComputeRegisterMapper("x86:LE:32:default") == Ok(DefaultRegisterMapper("little"))
  {
    var l := "x86:LE:32:default";
    assert l[3..7] == ":LE:";
    NotContainsChar(l, ":BE:", 1);
    assert OccursAt(l, ":LE:", 3);
  }

  lemma RegisterMapperBig()
    ensures ComputeRegisterMapper("DATA:BE:64:default") == Ok(DefaultRegisterMapper("big"))
  {
    var l := "DATA:BE:64:default";
    assert l[4..8] == ":BE:";
    assert OccursAt(l, ":BE:", 4);
  }

  /** A language with neither tag has no register mapper. */
  lemma RegisterMapperUntagged()
    ensures ComputeRegisterMapper("pa-risc") == Err(KeyError("pa-risc"))
  {
    NotContainsChar("pa-risc", ":BE:", 0);
    NotContainsChar("pa-risc", ":LE:", 0);
  }
}
