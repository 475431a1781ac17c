// The tree-walking interpreter: variables live in one table of (declared
// type, value) pairs, `out` prints, an `if` chain runs the first branch whose
// condition holds and then forgets the names that branch declared.
//
// The interpreter's own `evaluate` prints a blank line per expression token
// and then stops as unimplemented, so here the evaluator is a parameter: a
// total function from the variable table and the expression tokens to a
// value. What `out` prints is collected in `output`.

module Interpreter {
  import opened Common
  import opened Lexer
  import opened Parser

  /** `substring`: nothing for an empty or reversed range, otherwise the
      characters from `start` up to but not including `end`. The source
      slices without a bounds check, so a non-empty range must lie inside. */
  function Substring(s: string, start: int, end: int): (r: Option<string>)
    requires end <= start || (0 <= start && end <= |s|)
    ensures r.None? <==> end <= start
    ensures r.Some? ==> |r.value| == end - start
    ensures r.Some? ==> forall k :: 0 <= k < |r.value| ==> r.value[k] == s[start + k]
  {
    if end <= start then None else Some(s[start..end])
  }

  /** Two adjacent non-empty pieces put together are the piece spanning both. */
  lemma SubstringJoins(s: string, a: int, b: int, c: int)
    requires 0 <= a < b < c <= |s|
    ensures Substring(s, a, b).value + Substring(s, b, c).value == Substring(s, a, c).value
  {
    assert s[a..b] + s[b..c] == s[a..c];
  }

  /** A value as the interpreter stores it. Floating point is not modelled:
      a float is kept as the text it prints as. */
  datatype Value = Int(n: int) | String(s: string) | Bool(b: bool) | Float(f: string)

  /** What printing a stored value writes: integers in decimal, booleans as
      `true`/`false`, strings and floats as their text. */
  function Render(v: Value): (r: string)
    ensures v.Int? ==> ParseInt(r) == Some(v.n)
    ensures v.Bool? ==> (r == "true" <==> v.b) && (r == "false" <==> !v.b)
    ensures v.String? ==> r == v.s
  {
    match v
    case Int(n) => ParseIntToString(n); IntToString(n)
    case String(s) => s
    case Bool(b) => if b then "true" else "false"
    case Float(f) => f
  }

  type Table = map<string, (VarTypes, Value)>

  /** The expression evaluator: the value of an expression under a table. */
  type Evaluator = (Table, seq<Token>) -> Value

  /** What the interpreter's statements read and do not change: the
      evaluator and the names of the built-in functions. */
  datatype Context = Context(evaluate: Evaluator, builtins: seq<string>)

  /** The functions `new` registers. */
  const BuiltIns: seq<string> := ["out"]

  /** What the statements change: the variable table and the printed lines. */
  datatype State = State(vars: Table, output: seq<string>)

  /** Each way the source stops with a panic. */
  datatype RunError =
    | NotAProgram                // `new` given something other than a program
    | NotImplemented                // a case the source leaves `unimplemented!`
    | Undefined(name: string)    // reassigning a name that is not in the table
    | NoArgument                 // `out` called without an argument
    | NotPrintable(kind: TokenType) // `out` of a token that is neither a literal nor a name
    | NotBoolean(got: Value)     // an `if` condition that is not a boolean
    | RemovedMissing(name: string)  // a branch-local name already gone at the end of the branch

  // ---------------------------------------------------------------------
  // The statements as functions of the state

  /** `var_assign_template`: the value of the expression is stored under the
      name with the given type, replacing whatever was there; the name is
      reported so that a branch can forget it. `struct` is not implemented. */
  function AssignTemplate(st: State, ev: Evaluator, name: Token, vt: VarTypes, values: seq<Token>): (r: Result<(State, string), RunError>)
    ensures r.Ok? <==> vt != VarTypes.Struct
    ensures r.Ok? ==> r.value.1 == name.value && r.value.0.output == st.output
    ensures r.Ok? ==> name.value in r.value.0.vars && r.value.0.vars[name.value] == (vt, ev(st.vars, values))
    ensures r.Ok? ==> forall m :: m != name.value ==> (m in r.value.0.vars <==> m in st.vars)
    ensures r.Ok? ==> forall m :: m != name.value && m in st.vars ==> r.value.0.vars[m] == st.vars[m]
  {
    if vt == VarTypes.Struct then Err(NotImplemented)
    else Ok((st.(vars := st.vars[name.value := (vt, ev(st.vars, values))]), name.value))
  }

  /** `var_reassignment`: the name must exist; it keeps its declared type and
      takes the new value. No name is added. */
  function Reassign(st: State, ev: Evaluator, name: Token, values: seq<Token>): (r: Result<State, RunError>)
    ensures name.value !in st.vars ==> r == Err(Undefined(name.value))
    ensures r.Ok? <==> name.value in st.vars && st.vars[name.value].0 != VarTypes.Struct
    ensures r.Ok? ==> r.value.vars.Keys == st.vars.Keys && r.value.output == st.output
    ensures r.Ok? ==> r.value.vars[name.value] == (st.vars[name.value].0, ev(st.vars, values))
    ensures r.Ok? ==> forall m :: m in st.vars && m != name.value ==> r.value.vars[m] == st.vars[m]
  {
    if name.value !in st.vars then Err(Undefined(name.value))
    else
      var (s, _) :- AssignTemplate(st, ev, name, st.vars[name.value].0, values);
      Ok(s)
  }

  /** `built_in_funcs`: only `out` exists. It prints its first argument: a
      literal as its text, a defined name as its value. */
  function BuiltIn(st: State, f: Token, args: seq<Token>): (r: Result<State, RunError>)
    ensures r.Ok? <==> f.value == "out" && |args| > 0
                       && (args[0].IsDataType() || (args[0].tokenType == Identifier && args[0].value in st.vars))
    ensures r.Ok? ==> r.value.vars == st.vars && |r.value.output| == |st.output| + 1
                      && r.value.output[..|st.output|] == st.output
    ensures r.Ok? && args[0].IsDataType() ==> r.value.output[|st.output|] == args[0].value
    ensures r.Ok? && !args[0].IsDataType() ==> r.value.output[|st.output|] == Render(st.vars[args[0].value].1)
  {
    if f.value != "out" then Err(NotImplemented)
    else if |args| == 0 then Err(NoArgument)
    else
      var a := args[0];
      if a.IsDataType() then Ok(st.(output := st.output + [a.value]))
      else if a.tokenType == Identifier then
        if a.value in st.vars then Ok(st.(output := st.output + [Render(st.vars[a.value].1)]))
        else Err(NotImplemented)
      else Err(NotPrintable(a.tokenType))
  }

  /** `func_call`: a built-in is run, any other function is not implemented. */
  function Call(st: State, builtins: seq<string>, f: Token, args: seq<Token>): (r: Result<State, RunError>)
    ensures f.value !in builtins ==> r == Err(NotImplemented)
    ensures r.Ok? ==> f.value in builtins && r.value.vars == st.vars
  {
    if f.value in builtins then BuiltIn(st, f, args) else Err(NotImplemented)
  }

  /** `individuals`: one statement. A declaration reports the name it
      declared; the other statements report nothing. */
  function Execute(st: State, ctx: Context, p: Parsed): Result<(State, Option<string>), RunError>
    decreases p, 0
  {
    match p
    case VariableAssignment(name, vt, values) =>
      var (s, n) :- AssignTemplate(st, ctx.evaluate, name, vt, values);
      Ok((s, Some(n)))
    case FuncCall(f, args) =>
      var s :- Call(st, ctx.builtins, f, args);
      Ok((s, None))
    case VariableReassignment(name, values) =>
      var s :- Reassign(st, ctx.evaluate, name, values);
      Ok((s, None))
    case Conditions(bs) =>
      var s :- BranchesFrom(st, ctx, bs, 0);
      Ok((s, None))
    case Program(_) => Err(NotImplemented)
  }

  /** `conditions` from branch `j` on: the first branch whose condition is
      true runs and ends the chain; a false one passes to the next. */
  function BranchesFrom(st: State, ctx: Context, bs: seq<Branch>, j: nat): Result<State, RunError>
    requires j <= |bs|
    decreases bs, |bs| - j
  {
    if j == |bs| then Ok(st)
    else
      var v := ctx.evaluate(st.vars, bs[j].condition);
      if !v.Bool? then Err(NotBoolean(v))
      else if v.b then Enter(st, ctx, bs[j])
      else BranchesFrom(st, ctx, bs, j + 1)
  }

  /** A taken branch: its statements in order, then the names they declared
      are removed from the table. */
  function Enter(st: State, ctx: Context, b: Branch): Result<State, RunError>
    decreases b, 0
  {
    var (s, scope) :- BodyFrom(st, ctx, b.body, 0, []);
    RemoveFrom(s, scope, 0)
  }

  /** The statement loop from statement `i` on, collecting the declared
      names in `scope`. */
  function BodyFrom(st: State, ctx: Context, body: seq<Parsed>, i: nat, scope: seq<string>): Result<(State, seq<string>), RunError>
    requires i <= |body|
    decreases body, |body| - i
  {
    if i == |body| then Ok((st, scope))
    else
      var (s, d) :- Execute(st, ctx, body[i]);
      BodyFrom(s, ctx, body, i + 1, if d.Some? then scope + [d.value] else scope)
  }

  /** The removal loop at the end of a branch from name `k` on. */
  function RemoveFrom(st: State, names: seq<string>, k: nat): Result<State, RunError>
    requires k <= |names|
    decreases |names| - k
  {
    if k == |names| then Ok(st)
    else if names[k] !in st.vars then Err(RemovedMissing(names[k]))
    else RemoveFrom(st.(vars := st.vars - {names[k]}), names, k + 1)
  }

  /** `run`: the statements of the program in order. */
  function RunProgram(st: State, ctx: Context, statements: seq<Parsed>): Result<State, RunError> {
    var (s, _) :- BodyFrom(st, ctx, statements, 0, []);
    Ok(s)
  }

  /** The interpreter's fields after a step are those the function gives, or
      the step failed with the function's error. */
  predicate Gives<T(==)>(o: Result<(State, T), RunError>, r: Result<T, RunError>, now: State) {
    match o
    case Err(e) => r == Err(e)
    case Ok((s, v)) => r == Ok(v) && now == s
  }

  predicate Lands(o: Result<State, RunError>, r: Result<(), RunError>, now: State) {
    match o
    case Err(e) => r == Err(e)
    case Ok(s) => r == Ok(()) && now == s
  }

  // ---------------------------------------------------------------------
  // The interpreter as the source runs it

  class Interpreter {
    const program: seq<Parsed>
    var definedVariable: Table
    const builtInFunction: seq<string>
    const evaluate: Evaluator
    /** The lines `out` has printed. */
    var output: seq<string>

    constructor (statements: seq<Parsed>, ev: Evaluator)
      ensures program == statements && builtInFunction == BuiltIns && evaluate == ev
      ensures definedVariable == map[] && output == []
    {
      program := statements;
      definedVariable := map[];
      builtInFunction := BuiltIns;
      evaluate := ev;
      output := [];
    }

    /** `new`: only a parsed program can be run. */
    static method New(prog: Parsed, ev: Evaluator) returns (r: Result<Interpreter, RunError>)
      ensures r.Err? <==> !prog.Program?
      ensures r.Err? ==> r.error == NotAProgram
      ensures r.Ok? ==> fresh(r.value) && r.value.program == prog.statements && r.value.builtInFunction == BuiltIns
                        && r.value.evaluate == ev && r.value.definedVariable == map[] && r.value.output == []
    {
      if !prog.Program? {
        return Err(NotAProgram);
      }
      var i := new Interpreter(prog.statements, ev);
      return Ok(i);
    }

    function Now(): State
      reads this
    {
      State(definedVariable, output)
    }

    function Ctx(): Context {
      Context(evaluate, builtInFunction)
    }

    method VarAssignTemplate(name: Token, vt: VarTypes, values: seq<Token>) returns (r: Result<string, RunError>)
      modifies this
      ensures Gives(AssignTemplate(old(Now()), evaluate, name, vt, values), r, Now())
    {
      if vt == VarTypes.Struct {
        return Err(NotImplemented);
      }
      var retEval := evaluate(definedVariable, values);
      definedVariable := definedVariable[name.value := (vt, retEval)];
      return Ok(name.value);
    }

    method VarReassignment(name: Token, values: seq<Token>) returns (r: Result<(), RunError>)
      modifies this
      ensures Lands(Reassign(old(Now()), evaluate, name, values), r, Now())
    {
      if name.value !in definedVariable {
        return Err(Undefined(name.value));
      }
      var referredType := definedVariable[name.value].0;
      var stored := VarAssignTemplate(name, referredType, values);
      if stored.Err? {
        return Err(stored.error);
      }
      return Ok(());
    }

    method VarAssignment(name: Token, vt: VarTypes, values: seq<Token>) returns (r: Result<string, RunError>)
      modifies this
      ensures Gives(AssignTemplate(old(Now()), evaluate, name, vt, values), r, Now())
    {
      r := VarAssignTemplate(name, vt, values);
    }

    method BuiltInFuncs(f: Token, args: seq<Token>) returns (r: Result<(), RunError>)
      modifies this
      ensures Lands(BuiltIn(old(Now()), f, args), r, Now())
    {
      if f.value != "out" {
        return Err(NotImplemented);
      }
      if |args| == 0 {
        return Err(NoArgument);
      }
      var argument := args[0];
      if argument.IsDataType() {
        output := output + [argument.value];
      } else if argument.tokenType == Identifier {
        if argument.value !in definedVariable {
          return Err(NotImplemented);
        }
        output := output + [Render(definedVariable[argument.value].1)];
      } else {
        return Err(NotPrintable(argument.tokenType));
      }
      return Ok(());
    }

    method CallFunction(f: Token, args: seq<Token>) returns (r: Result<(), RunError>)
      modifies this
      ensures Lands(Call(old(Now()), builtInFunction, f, args), r, Now())
    {
      if f.value !in builtInFunction {
        return Err(NotImplemented);
      }
      r := BuiltInFuncs(f, args);
    }

    method RunConditions(cond: seq<Branch>) returns (r: Result<(), RunError>)
      modifies this
      decreases cond, 0
      ensures Lands(BranchesFrom(old(Now()), Ctx(), cond, 0), r, Now())
    {
      for j := 0 to |cond|
        invariant BranchesFrom(Now(), Ctx(), cond, j) == BranchesFrom(old(Now()), Ctx(), cond, 0)
      {
        var v := evaluate(definedVariable, cond[j].condition);
        if !v.Bool? {
          return Err(NotBoolean(v));
        }
        if v.b {
          ghost var st0 := Now();
          var body := cond[j].body;
          var scope: seq<string> := [];
          for i := 0 to |body|
            invariant BodyFrom(Now(), Ctx(), body, i, scope) == BodyFrom(st0, Ctx(), body, 0, [])
          {
            var ret := Individuals(body[i]);
            if ret.Err? {
              return Err(ret.error);
            }
            if ret.value.Some? {
              scope := scope + [ret.value.value];
            }
          }
          for k := 0 to |scope|
            invariant RemoveFrom(Now(), scope, k) == Enter(st0, Ctx(), cond[j])
          {
            if scope[k] !in definedVariable {
              return Err(RemovedMissing(scope[k]));
            }
            definedVariable := definedVariable - {scope[k]};
          }
          return Ok(());
        }
      }
      return Ok(());
    }

    method Individuals(part: Parsed) returns (r: Result<Option<string>, RunError>)
      modifies this
      decreases part, 0
      ensures Gives(Execute(old(Now()), Ctx(), part), r, Now())
    {
      match part
      case VariableAssignment(name, vt, values) =>
        var n := VarAssignment(name, vt, values);
        if n.Err? {
          return Err(n.error);
        }
        return Ok(Some(n.value));
      case FuncCall(f, args) =>
        var u := CallFunction(f, args);
        if u.Err? {
          return Err(u.error);
        }
        return Ok(None);
      case VariableReassignment(name, values) =>
        var u := VarReassignment(name, values);
        if u.Err? {
          return Err(u.error);
        }
        return Ok(None);
      case Conditions(bs) =>
        var u := RunConditions(bs);
        if u.Err? {
          return Err(u.error);
        }
        return Ok(None);
      case Program(_) =>
        return Err(NotImplemented);
    }

    method Run() returns (r: Result<(), RunError>)
      modifies this
      ensures Lands(RunProgram(old(Now()), Ctx(), program), r, Now())
    {
      ghost var st0 := Now();
      ghost var scope: seq<string> := [];
      for i := 0 to |program|
        invariant BodyFrom(Now(), Ctx(), program, i, scope) == BodyFrom(st0, Ctx(), program, 0, [])
      {
        var ret := Individuals(program[i]);
        if ret.Err? {
          return Err(ret.error);
        }
        if ret.value.Some? {
          scope := scope + [ret.value.value];
        }
      }
      return Ok(());
    }
  }

  // ---------------------------------------------------------------------
  // An `if` chain runs at most one branch

  /** Branches whose conditions are false are passed over without any
      change: the chain from `i` on behaves as the chain from `j` on. */
  lemma {:induction false} FalseBranchesPass(st: State, ctx: Context, bs: seq<Branch>, i: nat, j: nat)
    requires i <= j <= |bs|
    requires forall k :: i <= k < j ==> ctx.evaluate(st.vars, bs[k].condition) == Value.Bool(false)
    decreases j - i
    ensures BranchesFrom(st, ctx, bs, i) == BranchesFrom(st, ctx, bs, j)
  {
    if i < j {
      FalseBranchesPass(st, ctx, bs, i + 1, j);
    }
  }

  /** The first branch whose condition is true is the one that runs, on the
      table as it was before the chain. */
  lemma FirstTrueBranchRuns(st: State, ctx: Context, bs: seq<Branch>, j: nat)
    requires j < |bs|
    requires forall k :: 0 <= k < j ==> ctx.evaluate(st.vars, bs[k].condition) == Value.Bool(false)
    requires ctx.evaluate(st.vars, bs[j].condition) == Value.Bool(true)
    ensures BranchesFrom(st, ctx, bs, 0) == Enter(st, ctx, bs[j])
  {
    FalseBranchesPass(st, ctx, bs, 0, j);
  }

  /** The branches after the one that runs are never looked at, not even
      their conditions. */
  lemma LaterBranchesIgnored(st: State, ctx: Context, bs: seq<Branch>, j: nat, rest: seq<Branch>)
    requires j < |bs|
    requires forall k :: 0 <= k < j ==> ctx.evaluate(st.vars, bs[k].condition) == Value.Bool(false)
    requires ctx.evaluate(st.vars, bs[j].condition) == Value.Bool(true)
    ensures BranchesFrom(st, ctx, bs[..j + 1] + rest, 0) == BranchesFrom(st, ctx, bs, 0)
  {
    var cs := bs[..j + 1] + rest;
    assert cs[j] == bs[j];
    assert forall k :: 0 <= k < j ==> cs[k] == bs[k];
    FirstTrueBranchRuns(st, ctx, cs, j);
    FirstTrueBranchRuns(st, ctx, bs, j);
  }

  /** When every condition is false the chain changes nothing. */
  lemma NoBranchTaken(st: State, ctx: Context, bs: seq<Branch>)
    requires forall k :: 0 <= k < |bs| ==> ctx.evaluate(st.vars, bs[k].condition) == Value.Bool(false)
    ensures BranchesFrom(st, ctx, bs, 0) == Ok(st)
  {
    FalseBranchesPass(st, ctx, bs, 0, |bs|);
  }

  /** A condition that is not a boolean stops the chain, unless an earlier
      branch was taken. */
  lemma ConditionMustBeBoolean(st: State, ctx: Context, bs: seq<Branch>, j: nat)
    requires j < |bs|
    requires forall k :: 0 <= k < j ==> ctx.evaluate(st.vars, bs[k].condition) == Value.Bool(false)
    requires !ctx.evaluate(st.vars, bs[j].condition).Bool?
    ensures BranchesFrom(st, ctx, bs, 0) == Err(NotBoolean(ctx.evaluate(st.vars, bs[j].condition)))
  {
    FalseBranchesPass(st, ctx, bs, 0, j);
  }

  // ---------------------------------------------------------------------
  // Names declared in a branch do not outlive it

  function Names(s: seq<string>): set<string> {
    set n | n in s
  }

  /** The removal loop takes exactly the listed names out and leaves every
      other entry and the output alone. */
  lemma {:induction false} RemoveAll(st: State, names: seq<string>, k: nat)
    requires k <= |names|
    decreases |names| - k
    ensures var o := RemoveFrom(st, names, k);
      o.Ok? ==> o.value.output == st.output && o.value.vars.Keys == st.vars.Keys - Names(names[k..])
                && forall m :: m in o.value.vars ==> o.value.vars[m] == st.vars[m]
  {
    if k < |names| && names[k] in st.vars {
      RemoveAll(st.(vars := st.vars - {names[k]}), names, k + 1);
      assert Names(names[k..]) == {names[k]} + Names(names[k + 1..]) by {
        assert names[k..] == [names[k]] + names[k + 1..];
      }
    }
  }

  /** A statement adds at most the name it reports, and only appends to the
      output. */
  lemma {:induction false} ExecuteKeys(st: State, ctx: Context, p: Parsed)
    decreases p, 0
    ensures var o := Execute(st, ctx, p);
      o.Ok? ==> st.output <= o.value.0.output
                && o.value.0.vars.Keys <= st.vars.Keys + (if o.value.1.Some? then {o.value.1.value} else {})
  {
    match p
    case VariableAssignment(_, _, _) =>
    case FuncCall(_, _) =>
    case VariableReassignment(_, _) =>
    case Conditions(bs) =>
      BranchesKeys(st, ctx, bs, 0);
    case Program(_) =>
  }

  lemma {:induction false} BranchesKeys(st: State, ctx: Context, bs: seq<Branch>, j: nat)
    requires j <= |bs|
    decreases bs, |bs| - j
    ensures var o := BranchesFrom(st, ctx, bs, j);
      o.Ok? ==> st.output <= o.value.output && o.value.vars.Keys <= st.vars.Keys
  {
    if j < |bs| {
      var v := ctx.evaluate(st.vars, bs[j].condition);
      if v.Bool? {
        if v.b {
          EnterKeys(st, ctx, bs[j]);
        } else {
          BranchesKeys(st, ctx, bs, j + 1);
        }
      }
    }
  }

  /** A taken branch never leaves a new name behind. */
  lemma {:induction false} EnterKeys(st: State, ctx: Context, b: Branch)
    decreases b, 0
    ensures var o := Enter(st, ctx, b);
      o.Ok? ==> st.output <= o.value.output && o.value.vars.Keys <= st.vars.Keys
  {
    BodyKeys(st.vars.Keys, st.output, st, ctx, b.body, 0, []);
    var body := BodyFrom(st, ctx, b.body, 0, []);
    if body.Ok? {
      var (s, scope) := body.value;
      assert scope[0..] == scope;
      RemoveAll(s, scope, 0);
    }
  }

  lemma {:induction false} BodyKeys(keys: set<string>, out: seq<string>, st: State, ctx: Context, body: seq<Parsed>, i: nat, scope: seq<string>)
    requires i <= |body| && st.vars.Keys <= keys + Names(scope) && out <= st.output
    decreases body, |body| - i
    ensures var o := BodyFrom(st, ctx, body, i, scope);
      o.Ok? ==> out <= o.value.0.output && o.value.0.vars.Keys <= keys + Names(o.value.1)
  {
    if i < |body| {
      ExecuteKeys(st, ctx, body[i]);
      var o := Execute(st, ctx, body[i]);
      if o.Ok? {
        var (s, d) := o.value;
        if d.Some? {
          assert Names(scope + [d.value]) == Names(scope) + {d.value};
          BodyKeys(keys, out, s, ctx, body, i + 1, scope + [d.value]);
        } else {
          BodyKeys(keys, out, s, ctx, body, i + 1, scope);
        }
      }
    }
  }

  /** An `if` chain adds no name to the table and only appends output. */
  lemma ConditionsAddNoName(st: State, ctx: Context, bs: seq<Branch>)
    ensures var o := Execute(st, ctx, Conditions(bs));
      o.Ok? ==> o.value.1.None? && o.value.0.vars.Keys <= st.vars.Keys && st.output <= o.value.0.output
  {
    BranchesKeys(st, ctx, bs, 0);
  }

  /** An outer variable reassigned inside a branch keeps its new value after
      the branch. */
  lemma ReassignmentPersists(st: State, ctx: Context, name: Token, values: seq<Token>, condition: seq<Token>, pos: (nat, nat))
    requires name.value in st.vars && st.vars[name.value].0 != VarTypes.Struct
    requires ctx.evaluate(st.vars, condition) == Value.Bool(true)
    ensures BranchesFrom(st, ctx, [Branch([VariableReassignment(name, values)], condition, pos)], 0)
         == Ok(st.(vars := st.vars[name.value := (st.vars[name.value].0, ctx.evaluate(st.vars, values))]))
  {
    var b := Branch([VariableReassignment(name, values)], condition, pos);
    var s := st.(vars := st.vars[name.value := (st.vars[name.value].0, ctx.evaluate(st.vars, values))]);
    assert Execute(st, ctx, b.body[0]) == Ok((s, None));
    assert BodyFrom(st, ctx, b.body, 0, []) == Ok((s, []));
  }

  /** Declaring, inside a branch, a name that already exists outside it
      overwrites the outer variable and then removes it: after the branch the
      name is gone. */
  lemma ShadowingRemovesOuter(st: State, ctx: Context, name: Token, vt: VarTypes, values: seq<Token>, condition: seq<Token>, pos: (nat, nat))
    requires name.value in st.vars && vt != VarTypes.Struct
    requires ctx.evaluate(st.vars, condition) == Value.Bool(true)
    ensures var o := BranchesFrom(st, ctx, [Branch([VariableAssignment(name, vt, values)], condition, pos)], 0);
      o.Ok? && name.value !in o.value.vars && o.value.vars.Keys == st.vars.Keys - {name.value}
  {
    var b := Branch([VariableAssignment(name, vt, values)], condition, pos);
    var s := st.(vars := st.vars[name.value := (vt, ctx.evaluate(st.vars, values))]);
    assert Execute(st, ctx, b.body[0]) == Ok((s, Some(name.value)));
    assert [] + [name.value] == [name.value];
    assert BodyFrom(st, ctx, b.body, 0, []) == BodyFrom(s, ctx, b.body, 1, [name.value]);
    assert RemoveFrom(s, [name.value], 0) == RemoveFrom(s.(vars := s.vars - {name.value}), [name.value], 1);
  }

  /** A branch that declares the same name twice reports it twice, so the
      second removal finds it gone. */
  lemma DoubleDeclarationFails(st: State, ctx: Context, name: Token, vt: VarTypes, v1: seq<Token>, v2: seq<Token>, condition: seq<Token>, pos: (nat, nat))
    requires vt != VarTypes.Struct
    requires ctx.evaluate(st.vars, condition) == Value.Bool(true)
    ensures BranchesFrom(st, ctx, [Branch([VariableAssignment(name, vt, v1), VariableAssignment(name, vt, v2)], condition, pos)], 0)
         == Err(RemovedMissing(name.value))
  {
    var body := [VariableAssignment(name, vt, v1), VariableAssignment(name, vt, v2)];
    var s1 := st.(vars := st.vars[name.value := (vt, ctx.evaluate(st.vars, v1))]);
    var s2 := s1.(vars := s1.vars[name.value := (vt, ctx.evaluate(s1.vars, v2))]);
    assert Execute(st, ctx, body[0]) == Ok((s1, Some(name.value)));
    assert Execute(s1, ctx, body[1]) == Ok((s2, Some(name.value)));
    assert [] + [name.value] == [name.value];
    assert BodyFrom(st, ctx, body, 0, []) == BodyFrom(s1, ctx, body, 1, [name.value]);
    assert [name.value] + [name.value] == [name.value, name.value];
    assert BodyFrom(s1, ctx, body, 1, [name.value]) == Ok((s2, [name.value, name.value]));
    var s3 := s2.(vars := s2.vars - {name.value});
    assert RemoveFrom(s2, [name.value, name.value], 0) == RemoveFrom(s3, [name.value, name.value], 1);
  }

  // ---------------------------------------------------------------------
  // `out`

  /** `out` of a literal prints the literal's text. */
  lemma OutPrintsLiteral(st: State, ctx: Context, f: Token, a: Token, rest: seq<Token>)
    requires f.value == "out" && "out" in ctx.builtins && a.IsDataType()
    ensures Execute(st, ctx, FuncCall(f, [a] + rest)) == Ok((st.(output := st.output + [a.value]), None))
  {
  }

  /** `out` of a defined variable prints its stored value, whatever the
      table: an integer as text that reads back, a boolean as `true` or
      `false`, a string as itself. */
  lemma OutPrintsVariable(st: State, ctx: Context, f: Token, a: Token, rest: seq<Token>)
    requires f.value == "out" && "out" in ctx.builtins
    requires a.tokenType == Identifier && a.value in st.vars
    ensures var o := Execute(st, ctx, FuncCall(f, [a] + rest));
      && o.Ok? && o.value.1 == None && o.value.0.vars == st.vars
      && o.value.0.output == st.output + [Render(st.vars[a.value].1)]
      && (st.vars[a.value].1.Int? ==> ParseInt(o.value.0.output[|st.output|]) == Some(st.vars[a.value].1.n))
      && (st.vars[a.value].1.String? ==> o.value.0.output[|st.output|] == st.vars[a.value].1.s)
  {
    assert !a.IsDataType();
  }

  /** `out` of a declared variable prints the value the declaration stored. */
  lemma DeclareThenPrint(st: State, ctx: Context, name: Token, vt: VarTypes, values: seq<Token>, f: Token, a: Token)
    requires vt != VarTypes.Struct && f.value == "out" && "out" in ctx.builtins
    requires a.tokenType == Identifier && a.value == name.value
    ensures var o := RunProgram(st, ctx, [VariableAssignment(name, vt, values), FuncCall(f, [a])]);
      o.Ok? && o.value.output == st.output + [Render(ctx.evaluate(st.vars, values))]
  {
    var prog := [VariableAssignment(name, vt, values), FuncCall(f, [a])];
    var s1 := st.(vars := st.vars[name.value := (vt, ctx.evaluate(st.vars, values))]);
    var s2 := s1.(output := s1.output + [Render(ctx.evaluate(st.vars, values))]);
    assert Execute(st, ctx, prog[0]) == Ok((s1, Some(name.value)));
    assert Execute(s1, ctx, prog[1]) == Ok((s2, None));
    assert [] + [name.value] == [name.value];
    assert BodyFrom(st, ctx, prog, 0, []) == BodyFrom(s1, ctx, prog, 1, [name.value]);
    assert BodyFrom(s1, ctx, prog, 1, [name.value]) == Ok((s2, [name.value]));
  }

  /** `out` without an argument stops the program. */
  lemma OutNeedsArgument(st: State, ctx: Context, f: Token)
    requires f.value == "out" && "out" in ctx.builtins
    ensures Execute(st, ctx, FuncCall(f, [])) == Err(NoArgument)
  {
  }

  // ---------------------------------------------------------------------
  // A program runs statement after statement

  /** The names collected so far only sit in front of those collected later. */
  lemma {:induction false} ScopeShift(st: State, ctx: Context, body: seq<Parsed>, i: nat, scope: seq<string>)
    requires i <= |body|
    decreases |body| - i
    ensures var o := BodyFrom(st, ctx, body, i, []);
      BodyFrom(st, ctx, body, i, scope) == if o.Err? then o else Ok((o.value.0, scope + o.value.1))
  {
    if i == |body| {
      assert scope + [] == scope;
    } else {
      var e := Execute(st, ctx, body[i]);
      if e.Ok? {
        var (s, d) := e.value;
        if d.Some? {
          ScopeShift(s, ctx, body, i + 1, scope + [d.value]);
          ScopeShift(s, ctx, body, i + 1, [] + [d.value]);
          assert [] + [d.value] == [d.value];
          var o := BodyFrom(s, ctx, body, i + 1, []);
          if o.Ok? {
            assert (scope + [d.value]) + o.value.1 == scope + ([d.value] + o.value.1);
          }
        } else {
          ScopeShift(s, ctx, body, i + 1, scope);
        }
      }
    }
  }

  /** Statements past the end of the first part are the second part. */
  lemma {:induction false} TailRuns(st: State, ctx: Context, a: seq<Parsed>, b: seq<Parsed>, k: nat, scope: seq<string>)
    requires k <= |b|
    decreases |b| - k
    ensures BodyFrom(st, ctx, a + b, |a| + k, scope) == BodyFrom(st, ctx, b, k, scope)
  {
    if k < |b| {
      assert (a + b)[|a| + k] == b[k];
      var e := Execute(st, ctx, b[k]);
      if e.Ok? {
        var (s, d) := e.value;
        TailRuns(s, ctx, a, b, k + 1, if d.Some? then scope + [d.value] else scope);
      }
    }
  }

  lemma {:induction false} HeadRuns(st: State, ctx: Context, a: seq<Parsed>, b: seq<Parsed>, i: nat, scope: seq<string>)
    requires i <= |a|
    decreases |a| - i
    ensures var o := BodyFrom(st, ctx, a, i, scope);
      BodyFrom(st, ctx, a + b, i, scope) == if o.Err? then o else BodyFrom(o.value.0, ctx, a + b, |a|, o.value.1)
  {
    if i < |a| {
      assert (a + b)[i] == a[i];
      var e := Execute(st, ctx, a[i]);
      if e.Ok? {
        var (s, d) := e.value;
        HeadRuns(s, ctx, a, b, i + 1, if d.Some? then scope + [d.value] else scope);
      }
    }
  }

  /** Running two programs one after the other is running them joined. */
  lemma RunJoined(st: State, ctx: Context, a: seq<Parsed>, b: seq<Parsed>)
    ensures var o := RunProgram(st, ctx, a);
      RunProgram(st, ctx, a + b) == if o.Err? then o else RunProgram(o.value, ctx, b)
  {
    HeadRuns(st, ctx, a, b, 0, []);
    var o := BodyFrom(st, ctx, a, 0, []);
    if o.Ok? {
      var (s, scope) := o.value;
      TailRuns(s, ctx, a, b, 0, scope);
      assert |a| + 0 == |a|;
      ScopeShift(s, ctx, b, 0, scope);
    }
  }
}
