/**
 * `Emyi\Db\Statement::execute`: before running a prepared statement, each
 * named parameter is bound with a type inferred from its value. Binding stops at
 * the first positional parameter, array values are skipped, and values equal to
 * one of the descriptor's "now" snippets are bound as strings without forcing
 * the bound execution path.
 */
module Statements {
  import opened Wrappers

  /** An array key: an integer (positional parameter) or a string (named parameter). */
  datatype Key = Positional(index: int) | Named(name: string)

  /** A PHP value as `gettype()` classifies it. */
  datatype Value =
    | Null
    | Bool(b: bool)
    | Int(i: int)
    | Float(r: real)
    | Str(s: string)
    | Array(entries: seq<(Key, Value)>)
    | Object(className: string)

  /** The `PDO::PARAM_*` type a parameter is bound with. */
  datatype BindType = ParamBool | ParamNull | ParamInt | ParamStr

  /**
   * The SQL the descriptor gives for the current moment, date, time and
   * timestamp (`getNowExpressionSQL()` and its siblings).
   */
  datatype Markers = Markers(now: string, currentDate: string, currentTime: string, currentTimestamp: string)

  /** `$param === ` one of the four snippets: a string identical to one of them. */
  predicate IsMarker(v: Value, m: Markers)
  {
    v.Str? && (v.s == m.now || v.s == m.currentDate || v.s == m.currentTime || v.s == m.currentTimestamp)
  }

  /** The type switch on `gettype($param)`: arrays get no binding. */
  function TypeOf(v: Value): (t: Option<BindType>)
    ensures t.None? <==> v.Array?
    ensures v.Str? ==> t == Some(ParamStr)
  {
    match v
    case Bool(_) => Some(ParamBool)
    case Int(_) => Some(ParamInt)
    case Float(_) => Some(ParamInt)
    case Array(_) => None
    case Null => Some(ParamNull)
    case Str(_) => Some(ParamStr)
    case Object(_) => Some(ParamStr)
  }

  /** One `bindParam($index, $param, $type)` call. */
  datatype Binding = Binding(name: string, value: Value, bindType: BindType)

  /** How the native statement is executed: with the bound parameters, or with the data array. */
  datatype ExecuteCall = ExecuteBound | ExecuteWith(data: seq<(Key, Value)>)

  /** What the loop over the parameters does: the bindings made, in order, and the final `$bind` flag. */
  datatype Plan = Plan(bindings: seq<Binding>, bind: bool)

  /** The loop of `execute` as a recursive definition over the data array. */
  function PlanOf(data: seq<(Key, Value)>, m: Markers): Plan
  {
    if data == [] || data[0].0.Positional? then Plan([], false)
    else
      var name, v := data[0].0.name, data[0].1;
      var rest := PlanOf(data[1..], m);
      if IsMarker(v, m) then Plan([Binding(name, v, ParamStr)] + rest.bindings, rest.bind)
      else match TypeOf(v)
        case None => Plan(rest.bindings, true)
        case Some(t) => Plan([Binding(name, v, t)] + rest.bindings, true)
  }

  /** `$bind ? parent::execute() : parent::execute($data)`. */
  function CallOf(data: seq<(Key, Value)>, m: Markers): ExecuteCall
  {
    if PlanOf(data, m).bind then ExecuteBound else ExecuteWith(data)
  }

  /** One step of the loop: the plan for a leading named parameter and the plan for the rest. */
  lemma PlanStep(data: seq<(Key, Value)>, m: Markers)
    requires data != [] && data[0].0.Named?
    ensures var name, v, rest := data[0].0.name, data[0].1, PlanOf(data[1..], m);
      PlanOf(data, m)
      == if IsMarker(v, m) then Plan([Binding(name, v, ParamStr)] + rest.bindings, rest.bind)
         else if v.Array? then Plan(rest.bindings, true)
         else Plan([Binding(name, v, TypeOf(v).value)] + rest.bindings, true)
  {
  }

  /** The prepared statement: the parameters bound to it so far and the executions it has run. */
  class Statement {
    /** The hash of the connection the statement belongs to. */
    const hash: string
    var bound: seq<Binding>
    var executions: seq<ExecuteCall>

    constructor(hash: string)
      ensures this.hash == hash && bound == [] && executions == []
    {
      this.hash := hash;
      bound := [];
      executions := [];
    }

    method BindParam(name: string, value: Value, bindType: BindType)
      modifies this
      ensures bound == old(bound) + [Binding(name, value, bindType)]
      ensures executions == old(executions)
    {
      bound := bound + [Binding(name, value, bindType)];
    }

    /**
     * `execute($data)`, with the descriptor's "now" snippets as `m`: binds the
     * parameters the plan names, in order, and runs the native statement on the
     * path the plan's flag selects.
     */
    method Execute(data: seq<(Key, Value)>, m: Markers) returns (call: ExecuteCall)
      modifies this
      ensures bound == old(bound) + PlanOf(data, m).bindings
      ensures call == CallOf(data, m)
      ensures executions == old(executions) + [call]
    {
      var bind := false;
      var acc: seq<Binding> := [];
      var i := 0;
      while i < |data|
        invariant 0 <= i <= |data|
        invariant PlanOf(data, m) == Plan(acc + PlanOf(data[i..], m).bindings, bind || PlanOf(data[i..], m).bind)
        invariant bound == old(bound) + acc
        invariant executions == old(executions)
      {
        var (key, param) := data[i];
        if key.Positional? {
          assert acc + PlanOf(data[i..], m).bindings == acc;
          break;
        }
        PlanStep(data[i..], m);
        assert data[i..][0] == data[i] && data[i..][1..] == data[i + 1..];
        ghost var rest := PlanOf(data[i + 1..], m);
        if IsMarker(param, m) {
          BindParam(key.name, param, ParamStr);
          assert acc + ([Binding(key.name, param, ParamStr)] + rest.bindings)
              == (acc + [Binding(key.name, param, ParamStr)]) + rest.bindings;
          acc := acc + [Binding(key.name, param, ParamStr)];
          i := i + 1;
          continue;
        }
        match TypeOf(param) {
          case Some(t) =>
            BindParam(key.name, param, t);
            assert acc + ([Binding(key.name, param, t)] + rest.bindings)
                == (acc + [Binding(key.name, param, t)]) + rest.bindings;
            acc := acc + [Binding(key.name, param, t)];
          case None =>
        }
        bind := true;
        i := i + 1;
      }
      call := if bind then ExecuteBound else ExecuteWith(data);
      executions := executions + [call];
    }
  }

  // ------------------------------------------------------------ properties

  /** The number of leading named parameters: the loop never looks past them. */
  function NamedPrefix(data: seq<(Key, Value)>): (n: nat)
    ensures n <= |data|
    ensures forall i | 0 <= i < n :: data[i].0.Named?
    ensures n < |data| ==> data[n].0.Positional?
  {
    if data == [] || data[0].0.Positional? then 0
    else
      var n := NamedPrefix(data[1..]);
      assert forall i | 1 <= i < n + 1 :: data[i] == data[1..][i - 1];
      n + 1
  }

  /** Entries from the first positional key on are never bound and never affect the path. */
  lemma {:induction false} PlanStopsAtPositional(data: seq<(Key, Value)>, m: Markers)
    ensures PlanOf(data, m) == PlanOf(data[..NamedPrefix(data)], m)
  {
    if data != [] && data[0].0.Named? {
      PlanStopsAtPositional(data[1..], m);
      assert data[..NamedPrefix(data)][1..] == data[1..][..NamedPrefix(data[1..])];
    }
  }

  /**
   * The statement runs on the bound path exactly when some leading named
   * parameter is not one of the "now" snippets.
   */
  lemma {:induction false} PlanBindFlag(data: seq<(Key, Value)>, m: Markers)
    ensures PlanOf(data, m).bind <==> exists i :: 0 <= i < NamedPrefix(data) && !IsMarker(data[i].1, m)
  {
    if data != [] && data[0].0.Named? {
      PlanBindFlag(data[1..], m);
      var n := NamedPrefix(data[1..]);
      if exists i :: 0 <= i < n && !IsMarker(data[1..][i].1, m) {
        var i :| 0 <= i < n && !IsMarker(data[1..][i].1, m);
        assert data[i + 1] == data[1..][i];
      }
      if exists i :: 0 <= i < n + 1 && !IsMarker(data[i].1, m) {
        var i :| 0 <= i < n + 1 && !IsMarker(data[i].1, m);
        if i > 0 {
          assert data[1..][i - 1] == data[i];
        }
      }
    }
  }

  /** The type a value is bound with: a snippet as a string, anything else by its PHP type. */
  function ExpectedType(v: Value, m: Markers): BindType
    requires !v.Array?
  {
    if IsMarker(v, m) then ParamStr else TypeOf(v).value
  }

  /** Binding a snippet as a string agrees with the type switch: snippets only differ in the path they select. */
  lemma MarkerTypeAgrees(v: Value, m: Markers)
    requires IsMarker(v, m)
    ensures ExpectedType(v, m) == TypeOf(v).value == ParamStr
  {
  }

  /** `b` binds a leading named, non-array parameter of `data` with its expected type. */
  predicate BindsLeading(data: seq<(Key, Value)>, b: Binding, m: Markers)
  {
    exists i :: 0 <= i < NamedPrefix(data) && data[i] == (Named(b.name), b.value)
      && !b.value.Array? && b.bindType == ExpectedType(b.value, m)
  }

  /** Every binding is a leading named, non-array parameter bound with its expected type. */
  lemma {:induction false} PlanBindingsSound(data: seq<(Key, Value)>, m: Markers)
    ensures var p := PlanOf(data, m);
      forall j | 0 <= j < |p.bindings| :: BindsLeading(data, p.bindings[j], m)
  {
    if data != [] && data[0].0.Named? {
      PlanBindingsSound(data[1..], m);
      PlanStep(data, m);
      var p := PlanOf(data, m);
      var rest := PlanOf(data[1..], m);
      var front := if data[0].1.Array? then 0 else 1;
      assert p.bindings[front..] == rest.bindings;
      forall j | 0 <= j < |p.bindings| ensures BindsLeading(data, p.bindings[j], m) {
        var b := p.bindings[j];
        if j < front {
          assert data[0] == (Named(b.name), b.value);
        } else {
          assert b == rest.bindings[j - front];
          var i :| 0 <= i < NamedPrefix(data[1..]) && data[1..][i] == (Named(b.name), b.value)
            && !b.value.Array? && b.bindType == ExpectedType(b.value, m);
          assert data[i + 1] == data[1..][i];
        }
      }
    }
  }

  /** Every leading named, non-array parameter is bound with its expected type. */
  lemma {:induction false} PlanBindingsComplete(data: seq<(Key, Value)>, m: Markers)
    ensures var p := PlanOf(data, m);
      forall i | 0 <= i < NamedPrefix(data) && !data[i].1.Array? ::
        Binding(data[i].0.name, data[i].1, ExpectedType(data[i].1, m)) in p.bindings
  {
    if data != [] && data[0].0.Named? {
      PlanBindingsComplete(data[1..], m);
      PlanStep(data, m);
      var p := PlanOf(data, m);
      var rest := PlanOf(data[1..], m);
      forall i | 0 <= i < NamedPrefix(data) && !data[i].1.Array?
        ensures Binding(data[i].0.name, data[i].1, ExpectedType(data[i].1, m)) in p.bindings
      {
        if i > 0 {
          assert data[1..][i - 1] == data[i];
          assert Binding(data[i].0.name, data[i].1, ExpectedType(data[i].1, m)) in rest.bindings;
        }
      }
    }
  }

  /** When the first parameter is positional, nothing is bound and the data array is passed on. */
  lemma PositionalDataPassedThrough(data: seq<(Key, Value)>, m: Markers)
    requires data != [] && data[0].0.Positional?
    ensures PlanOf(data, m).bindings == [] && CallOf(data, m) == ExecuteWith(data)
  {
  }

  /**
   * Four parameters: an integer, a "now" snippet, an array and a positional
   * value. The first two are bound, the array sets the flag, the positional one
   * ends the loop.
   */
  lemma ExecuteExample(m: Markers)
    ensures var data := [(Named("id"), Int(7)), (Named("at"), Str(m.now)), (Named("tags"), Array([])),
                         (Positional(0), Str("x"))];
      && PlanOf(data, m).bindings == [Binding("id", Int(7), ParamInt), Binding("at", Str(m.now), ParamStr)]
      && CallOf(data, m) == ExecuteBound
  {
    var data := [(Named("id"), Int(7)), (Named("at"), Str(m.now)), (Named("tags"), Array([])),
                 (Positional(0), Str("x"))];
    assert data[3..][0].0.Positional?;
    assert PlanOf(data[3..], m) == Plan([], false);
    assert data[2..][1..] == data[3..];
    assert PlanOf(data[2..], m) == Plan([], true);
    assert data[1..][1..] == data[2..];
    assert PlanOf(data[1..], m) == Plan([Binding("at", Str(m.now), ParamStr)], true);
  }
}
