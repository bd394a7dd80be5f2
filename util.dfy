/** The tracer's module-level dictionaries: the current selection (session,
    process, thread, frame) together with whatever else the sync code
    stores there, and the convenience variables that override the
    architecture resolution. */
module Util {
  import opened Wrappers
  import opened PyText
  import opened TraceValues

  /** What `current_state` holds before anything is selected. */
  const InitialState: map<string, Val> :=
    map["sid" := VStr("local"), "pid" := VNone, "tid" := VNone, "fid" := VNone]

  /** A dictionary lookup that answers `None` for a missing key, as the
      `selected_*` getters do by catching the lookup error. */
  function GetOr(m: map<string, Val>, key: string): (v: Val)
    ensures key in m ==> v == m[key]
    ensures key !in m ==> v == VNone
  {
    if key in m then m[key] else VNone
  }

  /** A plain dictionary lookup: a missing key raises `KeyError`. */
  function LookupKey(m: map<string, Val>, key: string): (r: Result<Val>)
    ensures r.Ok? <==> key in m
    ensures r.Ok? ==> r.value == m[key]
    ensures r.Err? ==> r.error == KeyError(key)
  {
    if key in m then Ok(m[key]) else Err(KeyError(key))
  }

  /** `get_convenience_variable` on a given dictionary: `"auto"` stands for
      a variable that was never set or was set to `None`. */
  function ConvLookup(conv: map<string, Option<string>>, id: string): (v: string)
    ensures v != "auto" ==> id in conv && conv[id] == Some(v)
    ensures (id !in conv || conv[id].None?) ==> v == "auto"
  {
    if id !in conv then "auto"
    else if conv[id].None? then "auto"
    else conv[id].value
  }

  /** Setting a variable to a value makes the getter return it; setting it to
      `None` makes it read as `"auto"` again; other variables keep theirs. */
  lemma ConvSetGet(conv: map<string, Option<string>>, id: string, v: Option<string>, other: string)
    requires other != id
    ensures v.Some? ==> ConvLookup(conv[id := v], id) == v.value
    ensures v.None? ==> ConvLookup(conv[id := v], id) == "auto"
    ensures ConvLookup(conv[id := v], other) == ConvLookup(conv, other)
  {
  }

  /** `parse_and_eval`: Python's `int(expr)`. A string must be a decimal
      literal; an integer (or a bool) passes through; anything else is a
      type error. */
  function ParseAndEval(expr: Val): (r: Result<int>)
    ensures expr.VInt? ==> r == Ok(expr.i)
    ensures expr.VNone? || expr.VAddr? || expr.VRange? ==> r.Err? && r.error.TypeError?
  {
    match expr
    case VInt(n) => Ok(n)
    case VBool(b) => Ok(if b then 1 else 0)
    case VStr(s) => ParseInt(s)
    case _ => Err(TypeError("int() argument must be a string or a number"))
  }

  /** A decimal rendering evaluates back to its integer, while a
      hexadecimal literal is refused. */
  lemma ParseAndEvalDecimal(n: int)
    ensures ParseAndEval(VStr(Dec(n))) == Ok(n)
    ensures ParseAndEval(VStr("0x10")).Err?
  {
    DecRoundTrip(n);
    var s := "0x10";
    assert Strip(s) == s;
    assert SignSplit(s) == (false, s);
    assert !Grouped(s, 10, false) by {
      assert !IsDigitIn(s[1], 10);
      if Grouped(s, 10, false) {
        GroupedChars(s, 10, false);
        assert false;
      }
    }
  }

  /** The two module-level dictionaries of the tracer. */
  class Globals {
    var currentState: map<string, Val>
    var convMap: map<string, Option<string>>

    constructor ()
      ensures currentState == InitialState && convMap == map[]
    {
      currentState := InitialState;
      convMap := map[];
    }

    function SelectedSession(): Val
      reads this
    {
      GetOr(currentState, "sid")
    }

    function SelectedProcess(): Val
      reads this
    {
      GetOr(currentState, "pid")
    }

    function SelectedThread(): Val
      reads this
    {
      GetOr(currentState, "tid")
    }

    function SelectedFrame(): Val
      reads this
    {
      GetOr(currentState, "fid")
    }

    method SelectSession(id: Val)
      modifies this`currentState
      ensures currentState == old(currentState)["sid" := id]
      ensures SelectedSession() == id
    {
      currentState := currentState["sid" := id];
    }

    method SelectProcess(id: Val)
      modifies this`currentState
      ensures currentState == old(currentState)["pid" := id]
      ensures SelectedProcess() == id
    {
      currentState := currentState["pid" := id];
    }

    method SelectThread(id: Val)
      modifies this`currentState
      ensures currentState == old(currentState)["tid" := id]
      ensures SelectedThread() == id
    {
      currentState := currentState["tid" := id];
    }

    method SelectFrame(id: Val)
      modifies this`currentState
      ensures currentState == old(currentState)["fid" := id]
      ensures SelectedFrame() == id
    {
      currentState := currentState["fid" := id];
    }

    /** A direct store into `current_state`, as the sync callbacks make. */
    method Note(key: string, v: Val)
      modifies this`currentState
      ensures currentState == old(currentState)[key := v]
    {
      currentState := currentState[key := v];
    }

    method PutModuleAddress(path: string, addr: Val)
      modifies this`currentState
      ensures currentState == old(currentState)[path := addr]
      ensures GetModuleAddress(path) == Ok(addr)
    {
      currentState := currentState[path := addr];
    }

    /** `get_module_address`: a path never stored raises `KeyError`. */
    function GetModuleAddress(path: string): Result<Val>
      reads this
    {
      LookupKey(currentState, path)
    }

    function GetConvenienceVariable(id: string): string
      reads this
    {
      ConvLookup(convMap, id)
    }

    method SetConvenienceVariable(id: string, v: Option<string>)
      modifies this`convMap
      ensures convMap == old(convMap)[id := v]
      ensures v.Some? ==> GetConvenienceVariable(id) == v.value
    {
      convMap := convMap[id := v];
    }
  }

  /** Selecting one item leaves the other three selections as they were. */
  lemma SelectKeepsOthers(m: map<string, Val>, key: string, id: Val, other: string)
    requires key in {"sid", "pid", "tid", "fid"} && other in {"sid", "pid", "tid", "fid"} && key != other
    ensures GetOr(m[key := id], key) == id
    ensures GetOr(m[key := id], other) == GetOr(m, other)
  {
  }

  /** Nothing is selected at first but the local session. */
  lemma InitialSelection()
    ensures GetOr(InitialState, "sid") == VStr("local")
    ensures GetOr(InitialState, "pid") == VNone && GetOr(InitialState, "tid") == VNone
    ensures GetOr(InitialState, "fid") == VNone
  {
  }
}
