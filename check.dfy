/** The SL static checker (src/check.rs): walks a parsed `Program` before it
    runs, keeps a table of declared variables and their types, and rejects
    redeclarations, expressions whose type is not the declared one, branch
    conditions that are not `bool`, and calls with the wrong number or kind
    of arguments.

    The type of an expression is found by `TypeEvaluator`, which has the
    shape of the value evaluator: parenthesised groups are typed
    recursively, then a pass folds every math operator between two operands
    of the same type into that type, then a pass folds every comparison
    into `bool`. The class `Checker` keeps the source's fields and loops; the
    functions `CheckStatement` and its companions compute the same verdicts
    and tables from the table alone, and each method is proved to agree
    with them. */
module Check {
  import opened Common
  import opened Lexer
  import opened Parser

  // ---------------------------------------------------------------------
  // Types the evaluator works on

  /** What a slot of the evaluator holds: one of the four value types, or
      an operator or parenthesis kind. */
  datatype ParseTypes = Int | Float | Bool | String | Math | Comparison | ParenthesisOpen | ParenthesisClose

  predicate IsValueType(k: ParseTypes) {
    k == ParseTypes.Int || k == ParseTypes.Float || k == ParseTypes.Bool || k == ParseTypes.String
  }

  predicate IsParenKind(k: ParseTypes) {
    k == ParseTypes.ParenthesisOpen || k == ParseTypes.ParenthesisClose
  }

  /** `parse_type_to_var_types`: only value types name a variable type. */
  function ParseTypeToVarTypes(k: ParseTypes): (r: Option<VarTypes>)
    ensures r.Some? <==> IsValueType(k)
    ensures r != Some(VarTypes.Struct)
  {
    match k
    case String => Some(VarTypes.Str)
    case Bool => Some(VarTypes.Bool)
    case Int => Some(VarTypes.Int)
    case Float => Some(VarTypes.Float)
    case _ => None
  }

  /** `var_types_to_parse_type`: every type but `Struct` has a slot type,
      and converting back gives the type again. */
  function VarTypesToParseType(vt: VarTypes): (r: Option<ParseTypes>)
    ensures r.Some? <==> vt != VarTypes.Struct
    ensures r.Some? ==> IsValueType(r.value) && ParseTypeToVarTypes(r.value) == Some(vt)
  {
    match vt
    case Bool => Some(ParseTypes.Bool)
    case Int => Some(ParseTypes.Int)
    case Float => Some(ParseTypes.Float)
    case Str => Some(ParseTypes.String)
    case _ => None
  }

  /** The other direction of the round trip. */
  lemma ValueTypeRoundTrip(k: ParseTypes)
    requires IsValueType(k)
    ensures VarTypesToParseType(ParseTypeToVarTypes(k).value) == Some(k)
  {
  }

  /** `token_type_to_parse_type`: literals, operators and parentheses have a
      slot type, and a literal's agrees with the parser's type for it. */
  function TokenTypeToParseType(t: TokenType): (r: Option<ParseTypes>)
    ensures r.Some? <==> (NewToken(t, "").IsDataType() || t == TokenType.ParenthesisOpen || t == TokenType.ParenthesisClose
                          || t == MathOperation || t == ComparisonOperation)
    ensures r.Some? ==> (IsValueType(r.value) <==> NewToken(t, "").IsDataType())
    ensures r.Some? ==> ParseTypeToVarTypes(r.value) == DataTokenTypeToTypes(t)
  {
    match t
    case Integer => Some(ParseTypes.Int)
    case String => Some(ParseTypes.String)
    case FloatingPoint => Some(ParseTypes.Float)
    case Boolean => Some(ParseTypes.Bool)
    case ParenthesisOpen => Some(ParseTypes.ParenthesisOpen)
    case ParenthesisClose => Some(ParseTypes.ParenthesisClose)
    case MathOperation => Some(ParseTypes.Math)
    case ComparisonOperation => Some(ParseTypes.Comparison)
    case _ => None
  }

  /** The declared kind of a function parameter. */
  datatype ArgTypes = Int | Str | Bool | Float | Any | Struct | Variadic(inner: ArgTypes)

  /** A function's parameter kinds and return types. */
  datatype Signature = Signature(params: seq<ArgTypes>, results: seq<VarTypes>)

  /** The functions a new checker knows: `out`, with one parameter of any
      type and no return value. */
  const Builtins: map<string, Signature> := map["out" := Signature([ArgTypes.Any], [])]

  /** One slot of the evaluator: a type and the column and line it came from. */
  datatype Slot = Slot(kind: ParseTypes, x: nat, y: nat)

  /** Why checking stops; the source panics with a message. */
  datatype CheckError =
    | UnknownToken(token: Token)        // an expression token with no slot type
    | UnresolvedName(token: Token)      // an identifier that is neither a variable nor a function
    | StructVariable(token: Token)      // a `Struct` variable inside an expression
    | NoValue                           // an evaluator list with nothing in it
    | MissingOperand                    // an operator at either end of the list
    | Mismatch(before: ParseTypes, after: ParseTypes)  // an operator between two different types
    | EvalLeftover                      // more than one slot left after both passes
    | NotAValue(kind: ParseTypes)       // an expression whose type is an operator kind
    | AlreadyDefined(name: string)      // a declaration of a name already in the table
    | EvenLength                        // an expression with an even number of tokens
    | TypeMismatch(got: VarTypes, declared: VarTypes)  // the expression's type is not the variable's
    | Undefined(name: string)           // a reassignment of a name not in the table
    | NotBool(got: VarTypes)            // a branch condition that is not `bool`
    | RemovedMissing(name: string)      // a branch-local name already gone at the end of the branch
    | UnknownFunction(name: string)     // a call of a function the checker does not know
    | ArgCount(params: nat, given: nat)  // a call with the wrong number of arguments
    | ArgMismatch(expected: ArgTypes, got: VarTypes)  // an argument of the wrong type
    | Unsupported                       // a construct the source leaves `unimplemented!()`
    | NotAProgram                       // `check_program` given something other than a `Program`

  // ---------------------------------------------------------------------
  // The evaluator as functions

  /** The errors the evaluator itself raises, as opposed to those of the
      token conversion before it. */
  predicate IsEvalError(e: CheckError) {
    e.NoValue? || e.MissingOperand? || e.Mismatch? || e.EvalLeftover?
  }

  predicate NoParens(list: seq<Slot>) {
    forall k :: 0 <= k < |list| ==> !IsParenKind(list[k].kind)
  }

  /** The two passes: all math operators, then all comparisons. */
  datatype Tier = MathTier | ComparisonTier

  function Operator(t: Tier): ParseTypes {
    if t == MathTier then ParseTypes.Math else ParseTypes.Comparison
  }

  /** Folds the operator at `i` with its two neighbours, which must have the
      same type. A math operator leaves its right operand in place; a
      comparison leaves a `bool` at the right operand's position. */
  function Fold(t: Tier, list: seq<Slot>, i: int): (r: Result<seq<Slot>, CheckError>)
    requires 0 <= i < |list|
    ensures r.Ok? ==> |r.value| == |list| - 2
    ensures r.Ok? && NoParens(list) ==> NoParens(r.value)
    ensures r.Err? <==> i == 0 || i + 1 >= |list| || list[i - 1].kind != list[i + 1].kind
    ensures r.Err? ==> IsEvalError(r.error)
  {
    if i == 0 || i + 1 >= |list| then Err(MissingOperand)
    else if list[i - 1].kind != list[i + 1].kind then Err(Mismatch(list[i - 1].kind, list[i + 1].kind))
    else if t == MathTier then Ok(list[..i - 1] + list[i + 1..])
    else Ok(list[..i - 1] + [Slot(ParseTypes.Bool, list[i + 1].x, list[i + 1].y)] + list[i + 2..])
  }

  /** One pass, from the top of its `while` loop with the list, the index
      and the count of wrap-arounds. The pass stops when one slot is left,
      or at the iteration after its first wrap-around: after wrapping it
      looks only at slot 0. A math fold resets the count; a comparison fold
      does not. */
  function TierLoop(t: Tier, list: seq<Slot>, idx: int, rounds: int): (r: Result<seq<Slot>, CheckError>)
    requires -1 <= idx && 0 <= rounds <= 1 && (rounds == 1 ==> |list| > 0)
    ensures r.Ok? ==> 1 <= |r.value| <= |list| && (|list| - |r.value|) % 2 == 0
    ensures r.Ok? && NoParens(list) ==> NoParens(r.value)
    ensures r.Err? ==> IsEvalError(r.error)
    decreases |list|, 1 - rounds, |list| - idx
  {
    if |list| == 1 then Ok(list)
    else if rounds == 1 then Ok(list)
    else
      var wrap := idx + 1 >= |list|;
      var i := if wrap then 0 else idx + 1;
      var r := if wrap then 1 else 0;
      if i >= |list| then Err(NoValue)
      else if list[i].kind == Operator(t) then
        var next :- Fold(t, list, i);
        TierLoop(t, next, i, if t == MathTier then 0 else r)
      else TierLoop(t, list, i, r)
  }

  /** The partition loop of `eval` from slot `i` on. `depth` counts open
      parentheses and may go below zero: a `)` that brings it back to zero
      types the gathered slots recursively, every other slot met while it
      is not zero is gathered, and the rest go to `now`. */
  function Group(to: seq<Slot>, i: nat, recurse: seq<Slot>, depth: int, now: seq<Slot>): (r: Result<seq<Slot>, CheckError>)
    requires i <= |to| && |recurse| <= i
    ensures r.Ok? && NoParens(now) ==> NoParens(r.value)
    ensures r.Err? ==> IsEvalError(r.error)
    decreases |to|, 0, |to| - i
  {
    if i == |to| then Ok(now)
    else
      var part := to[i];
      if part.kind == ParseTypes.ParenthesisClose then
        if depth - 1 != 0 then Group(to, i + 1, recurse + [part], depth - 1, now)
        else
          var v :- TypeOf(recurse);
          Group(to, i + 1, [], 0, now + [v])
      else if part.kind == ParseTypes.ParenthesisOpen then
        Group(to, i + 1, if depth != 0 then recurse + [part] else recurse, depth + 1, now)
      else if depth != 0 then Group(to, i + 1, recurse + [part], depth, now)
      else Group(to, i + 1, recurse, depth, now + [part])
  }

  /** `TypeEvaluator::eval`: the type of a list of slots, never a
      parenthesis. */
  function TypeOf(to: seq<Slot>): (r: Result<Slot, CheckError>)
    ensures r.Ok? ==> !IsParenKind(r.value.kind)
    ensures r.Err? ==> IsEvalError(r.error)
    decreases |to|, 1
  {
    var now :- Group(to, 0, [], 0, []);
    Passes(now)
  }

  /** The math pass, the comparison pass, and the check that one slot is
      left. */
  function Passes(now: seq<Slot>): (r: Result<Slot, CheckError>)
    ensures r.Ok? && NoParens(now) ==> !IsParenKind(r.value.kind)
    ensures r.Err? ==> IsEvalError(r.error)
  {
    var l1 :- TierLoop(MathTier, now, -1, 0);
    var l2 :- TierLoop(ComparisonTier, l1, -1, 0);
    if |l2| > 1 then Err(EvalLeftover)
    else if |l2| == 0 then Err(NoValue)
    else Ok(l2[0])
  }

  /** The slot a token of an expression stands for: literals, operators
      and parentheses their own type, a variable its declared type, a
      function without return values nothing at all. */
  function SlotFor(t: Token, vars: map<string, VarTypes>, funcs: map<string, Signature>): (r: Result<seq<Slot>, CheckError>)
    ensures r.Ok? ==> |r.value| <= 1
    ensures r.Ok? && t.tokenType != Identifier ==>
      TokenTypeToParseType(t.tokenType).Some? && r.value == [Slot(TokenTypeToParseType(t.tokenType).value, t.x, t.y)]
    ensures r.Ok? && t.tokenType == Identifier && t.value in vars ==>
      VarTypesToParseType(vars[t.value]).Some? && r.value == [Slot(VarTypesToParseType(vars[t.value]).value, t.x, t.y)]
    ensures t.tokenType == Identifier && t.value !in vars && t.value !in funcs ==> r == Err(UnresolvedName(t))
    ensures r.Err? ==> !r.error.RemovedMissing?
  {
    if t.tokenType != Identifier then
      match TokenTypeToParseType(t.tokenType)
      case None => Err(CheckError.UnknownToken(t))
      case Some(k) => Ok([Slot(k, t.x, t.y)])
    else if t.value in vars then
      match VarTypesToParseType(vars[t.value])
      case None => Err(StructVariable(t))
      case Some(k) => Ok([Slot(k, t.x, t.y)])
    else if t.value in funcs then
      if |funcs[t.value].results| > 0 then Err(CheckError.Unsupported) else Ok([])
    else Err(UnresolvedName(t))
  }

  /** The slot loop of `parse` from token `i` on: the slots so far are
      `acc`, and the first token that has none stops it. */
  function SlotsFrom(ts: seq<Token>, i: nat, acc: seq<Slot>, vars: map<string, VarTypes>, funcs: map<string, Signature>): (r: Result<seq<Slot>, CheckError>)
    requires i <= |ts|
    ensures r.Ok? ==> |acc| <= |r.value| <= |acc| + |ts| - i && r.value[..|acc|] == acc
    ensures r.Err? ==> !r.error.RemovedMissing?
    decreases |ts| - i
  {
    if i == |ts| then Ok(acc)
    else
      var more :- SlotFor(ts[i], vars, funcs);
      SlotsFrom(ts, i + 1, acc + more, vars, funcs)
  }

  /** `TypeEvaluator::parse`: the type of an expression. */
  function TypeOfTokens(ts: seq<Token>, vars: map<string, VarTypes>, funcs: map<string, Signature>): (r: Result<ParseTypes, CheckError>)
    ensures r.Ok? ==> !IsParenKind(r.value)
    ensures r.Err? ==> !r.error.RemovedMissing?
  {
    var slots :- SlotsFrom(ts, 0, [], vars, funcs);
    var s :- TypeOf(slots);
    Ok(s.kind)
  }

  /** The variable type of an expression, as the three checks that call
      the evaluator read it: an operator kind is an error. */
  function ExprType(ts: seq<Token>, vars: map<string, VarTypes>, funcs: map<string, Signature>): (r: Result<VarTypes, CheckError>)
    ensures r.Ok? ==> r.value != VarTypes.Struct
    ensures r.Err? ==> !r.error.RemovedMissing?
  {
    var k :- TypeOfTokens(ts, vars, funcs);
    match ParseTypeToVarTypes(k)
    case None => Err(NotAValue(k))
    case Some(vt) => Ok(vt)
  }

  // ---------------------------------------------------------------------
  // The evaluator as the source runs it

  /** `TypeEvaluator`: the expression and copies of the checker's tables.
      `removed` is carried along but never consulted. */
  datatype TypeEvaluator = TypeEvaluator(toParse: seq<Token>, definedVar: map<string, VarTypes>,
                                         definedFunction: map<string, Signature>, removed: seq<string>)
  {
    /** `eval`: partitions by parenthesis depth, then runs the two passes. */
    method Eval(evaluate: seq<Slot>) returns (r: Result<Slot, CheckError>)
      ensures r == TypeOf(evaluate)
      decreases |evaluate|
    {
      var depth := 0;
      var valuesToEval: seq<Slot> := [];
      var valuesToRecurse: seq<Slot> := [];
      for i := 0 to |evaluate|
        invariant |valuesToRecurse| <= i
        invariant Group(evaluate, i, valuesToRecurse, depth, valuesToEval) == Group(evaluate, 0, [], 0, [])
      {
        var part := evaluate[i];
        if part.kind == ParseTypes.ParenthesisClose {
          depth := depth - 1;
          if depth != 0 {
            valuesToRecurse := valuesToRecurse + [part];
          } else {
            var v := Eval(valuesToRecurse);
            if v.Err? {
              return Err(v.error);
            }
            valuesToEval := valuesToEval + [v.value];
            valuesToRecurse := [];
          }
        } else if part.kind == ParseTypes.ParenthesisOpen {
          if depth != 0 {
            valuesToRecurse := valuesToRecurse + [part];
          }
          depth := depth + 1;
        } else if depth != 0 {
          valuesToRecurse := valuesToRecurse + [part];
        } else {
          valuesToEval := valuesToEval + [part];
        }
      }
      var l1 := RunTier(MathTier, valuesToEval);
      if l1.Err? {
        return Err(l1.error);
      }
      var l2 := RunTier(ComparisonTier, l1.value);
      if l2.Err? {
        return Err(l2.error);
      }
      if |l2.value| > 1 {
        return Err(EvalLeftover);
      } else if |l2.value| == 0 {
        return Err(NoValue);
      }
      return Ok(l2.value[0]);
    }

    /** `parse`: turns the tokens into slots, then types them. */
    method Parse() returns (r: Result<ParseTypes, CheckError>)
      ensures r == TypeOfTokens(toParse, definedVar, definedFunction)
    {
      var toEval: seq<Slot> := [];
      for i := 0 to |toParse|
        invariant SlotsFrom(toParse, i, toEval, definedVar, definedFunction) == SlotsFrom(toParse, 0, [], definedVar, definedFunction)
      {
        var token := toParse[i];
        if token.tokenType != Identifier {
          var k := TokenTypeToParseType(token.tokenType);
          if k.None? {
            return Err(CheckError.UnknownToken(token));
          }
          toEval := toEval + [Slot(k.value, token.x, token.y)];
        } else if token.value in definedVar {
          var k := VarTypesToParseType(definedVar[token.value]);
          if k.None? {
            return Err(StructVariable(token));
          }
          toEval := toEval + [Slot(k.value, token.x, token.y)];
        } else if token.value in definedFunction {
          if |definedFunction[token.value].results| > 0 {
            return Err(CheckError.Unsupported);
          }
          assert toEval + [] == toEval;
        } else {
          return Err(UnresolvedName(token));
        }
      }
      var v := Eval(toEval);
      if v.Err? {
        return Err(v.error);
      }
      return Ok(v.value.kind);
    }
  }

  /** One pass of `eval`'s `while` loops. */
  method RunTier(t: Tier, start: seq<Slot>) returns (r: Result<seq<Slot>, CheckError>)
    ensures r == TierLoop(t, start, -1, 0)
  {
    var values := start;
    var idx := -1;
    var rounds := 0;
    while |values| != 1
      invariant -1 <= idx && 0 <= rounds <= 1 && (rounds == 1 ==> |values| > 0)
      invariant TierLoop(t, values, idx, rounds) == TierLoop(t, start, -1, 0)
      decreases |values|, 1 - rounds, |values| - idx
    {
      idx := idx + 1;
      if rounds == 1 {
        return Ok(values);
      }
      if idx >= |values| {
        idx := 0;
        rounds := rounds + 1;
      }
      if idx >= |values| {
        return Err(NoValue);
      }
      var current := values[idx];
      if current.kind == Operator(t) {
        ghost var before := values;
        if t == MathTier {
          rounds := 0;
        }
        if idx == 0 || idx + 1 >= |values| {
          return Err(MissingOperand);
        }
        if values[idx - 1].kind != values[idx + 1].kind {
          return Err(Mismatch(values[idx - 1].kind, values[idx + 1].kind));
        }
        if t == MathTier {
          values := values[..idx - 1] + values[idx + 1..];
        } else {
          var d := values[idx + 1];
          values := values[..idx - 1] + [Slot(ParseTypes.Bool, d.x, d.y)] + values[idx + 2..];
        }
        assert Fold(t, before, idx) == Ok(values);
      }
    }
    return Ok(values);
  }

  // ---------------------------------------------------------------------
  // The checks as functions of the variable table

  /** `variable_check`: the name is new, the expression has an odd number of
      tokens and its type is the declared one. */
  function CheckDeclaration(vars: map<string, VarTypes>, funcs: map<string, Signature>, name: Token, vt: VarTypes, values: seq<Token>): (r: Result<(string, VarTypes), CheckError>)
    ensures r.Ok? <==> name.value !in vars && |values| % 2 == 1 && ExprType(values, vars, funcs) == Ok(vt)
    ensures r.Ok? ==> r.value == (name.value, vt) && vt != VarTypes.Struct
  {
    if name.value in vars then Err(AlreadyDefined(name.value))
    else if |values| % 2 == 0 then Err(EvenLength)
    else
      var got :- ExprType(values, vars, funcs);
      if got != vt then Err(TypeMismatch(got, vt))
      else Ok((name.value, vt))
  }

  /** `var_reassign_check`: the name is declared, the expression has an odd
      number of tokens and its type is the stored one. */
  function CheckReassignment(vars: map<string, VarTypes>, funcs: map<string, Signature>, name: Token, values: seq<Token>): (r: Result<(), CheckError>)
    ensures r.Ok? <==> name.value in vars && |values| % 2 == 1 && ExprType(values, vars, funcs) == Ok(vars[name.value])
    ensures name.value !in vars ==> r == Err(Undefined(name.value))
  {
    if name.value !in vars then Err(Undefined(name.value))
    else if |values| % 2 == 0 then Err(EvenLength)
    else
      var got :- ExprType(values, vars, funcs);
      if got != vars[name.value] then Err(TypeMismatch(got, vars[name.value]))
      else Ok(())
  }

  /** A value of type `got` passed where `expected` is declared. */
  function MatchArg(expected: ArgTypes, got: VarTypes): (r: Result<(), CheckError>)
    ensures expected == ArgTypes.Any ==> r.Ok?
    ensures expected.Struct? || expected.Variadic? ==> r == Err(CheckError.Unsupported)
    ensures r.Err? && !expected.Struct? && !expected.Variadic? ==> r == Err(ArgMismatch(expected, got))
  {
    match expected
    case Int => if got == VarTypes.Int then Ok(()) else Err(ArgMismatch(expected, got))
    case Str => if got == VarTypes.Str then Ok(()) else Err(ArgMismatch(expected, got))
    case Float => if got == VarTypes.Float then Ok(()) else Err(ArgMismatch(expected, got))
    case Bool => if got == VarTypes.Bool then Ok(()) else Err(ArgMismatch(expected, got))
    case Any => Ok(())
    case _ => Err(CheckError.Unsupported)
  }

  /** `var_types_to_arg_type`: the parameter kind that accepts exactly the
      given type. */
  function VarTypesToArgType(vt: VarTypes): (r: Option<ArgTypes>)
    ensures r.Some? <==> vt != VarTypes.Struct
    ensures r.Some? ==> forall got :: MatchArg(r.value, got).Ok? <==> got == vt
  {
    match vt
    case Bool => Some(ArgTypes.Bool)
    case Int => Some(ArgTypes.Int)
    case Float => Some(ArgTypes.Float)
    case Str => Some(ArgTypes.Str)
    case _ => None
  }

  /** One argument of a call: a literal is checked by its own type, a
      declared variable by its stored type. */
  function CheckArg(vars: map<string, VarTypes>, expected: ArgTypes, given: Token): Result<(), CheckError> {
    if given.IsDataType() then MatchArg(expected, DataTokenTypeToTypes(given.tokenType).value)
    else if given.tokenType == Identifier then
      if given.value in vars then MatchArg(expected, vars[given.value])
      else Err(CheckError.Unsupported)
    else Err(CheckError.Unsupported)
  }

  /** The argument loop of `func_call_check` from argument `i` on. */
  function CheckArgsFrom(vars: map<string, VarTypes>, params: seq<ArgTypes>, args: seq<Token>, i: nat): (r: Result<(), CheckError>)
    requires |params| == |args| && i <= |args|
    ensures r.Ok? <==> forall k :: i <= k < |args| ==> CheckArg(vars, params[k], args[k]).Ok?
    ensures r.Err? ==> !r.error.RemovedMissing?
    decreases |args| - i
  {
    if i == |args| then Ok(())
    else
      var u :- CheckArg(vars, params[i], args[i]);
      CheckArgsFrom(vars, params, args, i + 1)
  }

  /** `func_call_check`: the function is known, the number of arguments is
      its number of parameters, and every argument fits its parameter. */
  function CheckCall(vars: map<string, VarTypes>, funcs: map<string, Signature>, f: Token, args: seq<Token>): (r: Result<(), CheckError>)
    ensures r.Ok? <==> f.value in funcs && |args| == |funcs[f.value].params|
                       && forall k :: 0 <= k < |args| ==> CheckArg(vars, funcs[f.value].params[k], args[k]).Ok?
  {
    if f.value !in funcs then Err(UnknownFunction(f.value))
    else
      var sig := funcs[f.value];
      if |args| != |sig.params| then Err(ArgCount(|sig.params|, |args|))
      else CheckArgsFrom(vars, sig.params, args, 0)
  }

  /** What checking leaves: the variable table and the names dropped from
      it, in the order the checker appends them to `removed`. */
  datatype Checked = Checked(vars: map<string, VarTypes>, dropped: seq<string>)

  /** `individual_check`: a declaration adds its name to the table and
      reports it; the other statements report nothing. */
  function CheckStatement(vars: map<string, VarTypes>, funcs: map<string, Signature>, p: Parsed): Result<(Checked, Option<string>), CheckError>
    decreases p, 0
  {
    match p
    case VariableAssignment(name, vt, values) =>
      var (n, t) :- CheckDeclaration(vars, funcs, name, vt, values);
      Ok((Checked(vars[n := t], []), Some(n)))
    case Conditions(branches) =>
      var c :- CheckBranchesFrom(vars, funcs, branches, 0, []);
      Ok((c, None))
    case FuncCall(f, args) =>
      var u :- CheckCall(vars, funcs, f, args);
      Ok((Checked(vars, []), None))
    case VariableReassignment(name, values) =>
      var u :- CheckReassignment(vars, funcs, name, values);
      Ok((Checked(vars, []), None))
    case Program(_) => Err(CheckError.Unsupported)
  }

  /** `condition_check` from branch `j` on: every branch is checked, each
      against the table the one before it left. */
  function CheckBranchesFrom(vars: map<string, VarTypes>, funcs: map<string, Signature>, bs: seq<Branch>, j: nat, dropped: seq<string>): Result<Checked, CheckError>
    requires j <= |bs|
    decreases bs, |bs| - j
  {
    if j == |bs| then Ok(Checked(vars, dropped))
    else
      var c :- CheckBranch(vars, funcs, bs[j]);
      CheckBranchesFrom(c.vars, funcs, bs, j + 1, dropped + c.dropped)
  }

  /** `individual_conditional_check`: the condition must be `bool`; the body
      is checked; then the names it declared are dropped again. */
  function CheckBranch(vars: map<string, VarTypes>, funcs: map<string, Signature>, b: Branch): Result<Checked, CheckError>
    decreases b, 0
  {
    var t :- ExprType(b.condition, vars, funcs);
    if t != VarTypes.Bool then Err(NotBool(t))
    else
      var (c, local) :- CheckBodyFrom(vars, funcs, b.body, 0, [], []);
      DropFrom(c.vars, local, 0, c.dropped)
  }

  /** The statement loop of a branch body from statement `i` on, collecting
      the names declared directly in it in `local`. */
  function CheckBodyFrom(vars: map<string, VarTypes>, funcs: map<string, Signature>, body: seq<Parsed>, i: nat,
                         dropped: seq<string>, local: seq<string>): Result<(Checked, seq<string>), CheckError>
    requires i <= |body|
    decreases body, |body| - i
  {
    if i == |body| then Ok((Checked(vars, dropped), local))
    else
      var (c, d) :- CheckStatement(vars, funcs, body[i]);
      CheckBodyFrom(c.vars, funcs, body, i + 1, dropped + c.dropped, if d.Some? then local + [d.value] else local)
  }

  /** The removal loop at the end of a branch from name `k` on. */
  function DropFrom(vars: map<string, VarTypes>, names: seq<string>, k: nat, dropped: seq<string>): Result<Checked, CheckError>
    requires k <= |names|
    decreases |names| - k
  {
    if k == |names| then Ok(Checked(vars, dropped))
    else if names[k] !in vars then Err(RemovedMissing(names[k]))
    else DropFrom(vars - {names[k]}, names, k + 1, dropped + [names[k]])
  }

  /** `check_program`: the statements of a `Program`, in order. */
  function CheckProgramOf(vars: map<string, VarTypes>, funcs: map<string, Signature>, p: Parsed): Result<Checked, CheckError> {
    match p
    case Program(statements) =>
      var (c, local) :- CheckBodyFrom(vars, funcs, statements, 0, [], []);
      Ok(c)
    case _ => Err(NotAProgram)
  }

  /** The checker's fields after a step are those the function gives, or the
      step failed with the function's error. */
  predicate Settles(o: Result<(Checked, Option<string>), CheckError>, r: Result<Option<string>, CheckError>,
                       vars: map<string, VarTypes>, removed: seq<string>, before: seq<string>) {
    match o
    case Err(e) => r == Err(e)
    case Ok((c, d)) => r == Ok(d) && vars == c.vars && removed == before + c.dropped
  }

  predicate Lands(o: Result<Checked, CheckError>, r: Result<(), CheckError>,
                  vars: map<string, VarTypes>, removed: seq<string>, before: seq<string>) {
    match o
    case Err(e) => r == Err(e)
    case Ok(c) => r == Ok(()) && vars == c.vars && removed == before + c.dropped
  }

  // ---------------------------------------------------------------------
  // The checker as the source runs it

  class Checker {
    var definedVar: map<string, VarTypes>
    var definedFunction: map<string, Signature>
    var removed: seq<string>

    /** `new`: empty tables, and `out` registered. */
    constructor ()
      ensures definedVar == map[] && definedFunction == Builtins && removed == []
    {
      definedVar := map[];
      definedFunction := Builtins;
      removed := [];
    }

    /** The evaluator over an expression, with copies of the tables. */
    method TypeOfExpression(values: seq<Token>) returns (r: Result<VarTypes, CheckError>)
      ensures r == ExprType(values, definedVar, definedFunction)
    {
      var typeEvaluator := TypeEvaluator(values, definedVar, definedFunction, removed);
      var k := typeEvaluator.Parse();
      if k.Err? {
        return Err(k.error);
      }
      var vt := ParseTypeToVarTypes(k.value);
      if vt.None? {
        return Err(NotAValue(k.value));
      }
      return Ok(vt.value);
    }

    method VariableCheck(name: Token, vt: VarTypes, values: seq<Token>) returns (r: Result<(string, VarTypes), CheckError>)
      ensures r == CheckDeclaration(definedVar, definedFunction, name, vt, values)
    {
      if name.value in definedVar {
        return Err(AlreadyDefined(name.value));
      }
      if |values| % 2 == 0 {
        return Err(EvenLength);
      }
      var got := TypeOfExpression(values);
      if got.Err? {
        return Err(got.error);
      }
      if got.value != vt {
        return Err(TypeMismatch(got.value, vt));
      }
      return Ok((name.value, vt));
    }

    method VarReassignCheck(name: Token, values: seq<Token>) returns (r: Result<(), CheckError>)
      ensures r == CheckReassignment(definedVar, definedFunction, name, values)
    {
      if name.value !in definedVar {
        return Err(Undefined(name.value));
      }
      var varType := definedVar[name.value];
      if |values| % 2 == 0 {
        return Err(EvenLength);
      }
      var got := TypeOfExpression(values);
      if got.Err? {
        return Err(got.error);
      }
      if got.value != varType {
        return Err(TypeMismatch(got.value, varType));
      }
      return Ok(());
    }

    method FuncCallCheck(f: Token, args: seq<Token>) returns (r: Result<(), CheckError>)
      ensures r == CheckCall(definedVar, definedFunction, f, args)
    {
      if f.value !in definedFunction {
        return Err(UnknownFunction(f.value));
      }
      var referredTo := definedFunction[f.value];
      if |args| != |referredTo.params| {
        return Err(ArgCount(|referredTo.params|, |args|));
      }
      for ind := 0 to |args|
        invariant CheckArgsFrom(definedVar, referredTo.params, args, ind) == CheckArgsFrom(definedVar, referredTo.params, args, 0)
      {
        var given := args[ind];
        var expected := referredTo.params[ind];
        var got: VarTypes;
        if given.IsDataType() {
          got := DataTokenTypeToTypes(given.tokenType).value;
        } else if given.tokenType == Identifier {
          if given.value !in definedVar {
            return Err(CheckError.Unsupported);
          }
          got := definedVar[given.value];
        } else {
          return Err(CheckError.Unsupported);
        }
        var m := MatchArg(expected, got);
        if m.Err? {
          return Err(m.error);
        }
      }
      return Ok(());
    }

    method IndividualCheck(p: Parsed) returns (r: Result<Option<string>, CheckError>)
      modifies this
      decreases p, 0
      ensures definedFunction == old(definedFunction)
      ensures Settles(CheckStatement(old(definedVar), definedFunction, p), r, definedVar, removed, old(removed))
    {
      hide ExprType;
      hide CheckDeclaration;
      hide CheckReassignment;
      hide CheckCall;
      match p
      case VariableAssignment(name, vt, values) =>
        var v := VariableCheck(name, vt, values);
        if v.Err? {
          return Err(v.error);
        }
        definedVar := definedVar[v.value.0 := v.value.1];
        return Ok(Some(v.value.0));
      case Conditions(branches) =>
        var c := ConditionCheck(branches);
        if c.Err? {
          return Err(c.error);
        }
        return Ok(None);
      case FuncCall(f, args) =>
        var c := FuncCallCheck(f, args);
        if c.Err? {
          return Err(c.error);
        }
        return Ok(None);
      case VariableReassignment(name, values) =>
        var c := VarReassignCheck(name, values);
        if c.Err? {
          return Err(c.error);
        }
        return Ok(None);
      case Program(_) =>
        return Err(CheckError.Unsupported);
    }

    method ConditionCheck(bs: seq<Branch>) returns (r: Result<(), CheckError>)
      modifies this
      decreases bs, 0
      ensures definedFunction == old(definedFunction)
      ensures Lands(CheckBranchesFrom(old(definedVar), definedFunction, bs, 0, []), r, definedVar, removed, old(removed))
    {
      hide ExprType;
      hide CheckDeclaration;
      hide CheckReassignment;
      hide CheckCall;
      hide CheckBranch;
      hide CheckBodyFrom;
      hide DropFrom;
      hide CheckStatement;
      ghost var dropped: seq<string> := [];
      for j := 0 to |bs|
        invariant definedFunction == old(definedFunction)
        invariant removed == old(removed) + dropped
        invariant CheckBranchesFrom(definedVar, definedFunction, bs, j, dropped)
               == CheckBranchesFrom(old(definedVar), definedFunction, bs, 0, [])
      {
        ghost var o := CheckBranch(definedVar, definedFunction, bs[j]);
        ghost var before := removed;
        assert bs[j] == Branch(bs[j].body, bs[j].condition, bs[j].pos);
        var c := IndividualConditionalCheck(bs[j].body, bs[j].condition, bs[j].pos);
        if c.Err? {
          return Err(c.error);
        }
        dropped := dropped + o.value.dropped;
      }
      return Ok(());
    }

    method IndividualConditionalCheck(body: seq<Parsed>, condition: seq<Token>, pos: (nat, nat)) returns (r: Result<(), CheckError>)
      modifies this
      decreases body, 0
      ensures definedFunction == old(definedFunction)
      ensures Lands(CheckBranch(old(definedVar), definedFunction, Branch(body, condition, pos)), r, definedVar, removed, old(removed))
    {
      hide ExprType;
      hide CheckDeclaration;
      hide CheckReassignment;
      hide CheckCall;
      hide CheckStatement;
      var t := TypeOfExpression(condition);
      if t.Err? {
        return Err(t.error);
      }
      if t.value != VarTypes.Bool {
        return Err(NotBool(t.value));
      }
      ghost var vars0 := definedVar;
      ghost var dropped: seq<string> := [];
      var localScope: seq<string> := [];
      for i := 0 to |body|
        invariant definedFunction == old(definedFunction)
        invariant removed == old(removed) + dropped
        invariant CheckBodyFrom(definedVar, definedFunction, body, i, dropped, localScope)
               == CheckBodyFrom(vars0, definedFunction, body, 0, [], [])
      {
        ghost var o := CheckStatement(definedVar, definedFunction, body[i]);
        var ret := IndividualCheck(body[i]);
        if ret.Err? {
          return Err(ret.error);
        }
        dropped := dropped + o.value.0.dropped;
        if ret.value.Some? {
          localScope := localScope + [ret.value.value];
        }
      }
      for k := 0 to |localScope|
        invariant definedFunction == old(definedFunction)
        invariant removed == old(removed) + dropped
        invariant DropFrom(definedVar, localScope, k, dropped)
               == CheckBranch(vars0, definedFunction, Branch(body, condition, pos))
      {
        var name := localScope[k];
        if name !in definedVar {
          return Err(RemovedMissing(name));
        }
        definedVar := definedVar - {name};
        removed := removed + [name];
        dropped := dropped + [name];
      }
      return Ok(());
    }

    method CheckProgram(p: Parsed) returns (r: Result<(), CheckError>)
      modifies this
      ensures definedFunction == old(definedFunction)
      ensures Lands(CheckProgramOf(old(definedVar), definedFunction, p), r, definedVar, removed, old(removed))
    {
      hide ExprType;
      hide CheckDeclaration;
      hide CheckReassignment;
      hide CheckCall;
      hide CheckStatement;
      if !p.Program? {
        return Err(NotAProgram);
      }
      var statements := p.statements;
      ghost var vars0 := definedVar;
      ghost var dropped: seq<string> := [];
      ghost var local: seq<string> := [];
      for i := 0 to |statements|
        invariant definedFunction == old(definedFunction)
        invariant removed == old(removed) + dropped
        invariant CheckBodyFrom(definedVar, definedFunction, statements, i, dropped, local)
               == CheckBodyFrom(vars0, definedFunction, statements, 0, [], [])
      {
        ghost var o := CheckStatement(definedVar, definedFunction, statements[i]);
        var ret := IndividualCheck(statements[i]);
        if ret.Err? {
          return Err(ret.error);
        }
        dropped := dropped + o.value.0.dropped;
        if ret.value.Some? {
          local := local + [ret.value.value];
        }
      }
      return Ok(());
    }
  }

  // ---------------------------------------------------------------------
  // The evaluator: grouping and single operations

  /** Slots outside any parenthesis are passed on unchanged and in order. */
  lemma {:induction false} GroupPlain(to: seq<Slot>, i: nat, now: seq<Slot>)
    requires i <= |to| && forall k :: i <= k < |to| ==> !IsParenKind(to[k].kind)
    ensures Group(to, i, [], 0, now) == Ok(now + to[i..])
    decreases |to| - i
  {
    if i < |to| {
      GroupPlain(to, i + 1, now + [to[i]]);
      assert now + [to[i]] + to[i + 1..] == now + to[i..];
    } else {
      assert now + to[i..] == now;
    }
  }

  /** Without parentheses, typing is just the two passes. */
  lemma PlainTypeOf(to: seq<Slot>)
    requires NoParens(to)
    ensures TypeOf(to) == Passes(to)
  {
    GroupPlain(to, 0, []);
    assert [] + to[0..] == to;
  }

  /** A `)` before any `(` sends every later slot to the group that is never
      typed, so nothing is left to type. */
  lemma {:induction false} ClosingFirstDrops(to: seq<Slot>, i: nat, recurse: seq<Slot>, depth: int)
    requires 0 < i <= |to| && |recurse| <= i && depth < 0
    requires forall k :: i <= k < |to| ==> !IsParenKind(to[k].kind)
    ensures Group(to, i, recurse, depth, []) == Ok([])
    decreases |to| - i
  {
    if i < |to| {
      ClosingFirstDrops(to, i + 1, recurse + [to[i]], depth);
    }
  }

  lemma OverClosingLosesRest(close: Slot, rest: seq<Slot>)
    requires close.kind == ParseTypes.ParenthesisClose && NoParens(rest)
    ensures TypeOf([close] + rest) == Err(NoValue)
  {
    var to := [close] + rest;
    assert to[0] == close;
    assert forall k :: 1 <= k < |to| ==> to[k] == rest[k - 1];
    ClosingFirstDrops(to, 1, [close], -1);
    assert [] + [close] == [close];
    assert Group(to, 0, [], 0, []) == Group(to, 1, [close], -1, []);
  }

  /** A group in parentheses is replaced by its type, in place. */
  lemma GroupReplaced(pre: seq<Slot>, open: Slot, inner: seq<Slot>, close: Slot, post: seq<Slot>)
    requires NoParens(pre) && NoParens(inner) && NoParens(post)
    requires open.kind == ParseTypes.ParenthesisOpen && close.kind == ParseTypes.ParenthesisClose
    ensures var to := pre + [open] + inner + [close] + post;
      var v := TypeOf(inner);
      Group(to, 0, [], 0, []) == (if v.Err? then Err(v.error) else Ok(pre + [v.value] + post))
  {
    var to := pre + [open] + inner + [close] + post;
    var a := |pre|;
    var b := a + 1 + |inner|;
    assert to[..a] == pre && to[a] == open && to[a + 1..b] == inner && to[b] == close && to[b + 1..] == post;
    assert forall k :: 0 <= k < a ==> to[k] == pre[k];
    assert forall k :: a < k < b ==> to[k] == inner[k - a - 1];
    assert forall k :: b < k < |to| ==> to[k] == post[k - b - 1];
    GroupAround(to, a, b);
  }

  lemma GroupAround(to: seq<Slot>, a: nat, b: nat)
    requires a < b < |to| && to[a].kind == ParseTypes.ParenthesisOpen && to[b].kind == ParseTypes.ParenthesisClose
    requires forall k :: 0 <= k < |to| && k != a && k != b ==> !IsParenKind(to[k].kind)
    ensures var v := TypeOf(to[a + 1..b]);
      Group(to, 0, [], 0, []) == (if v.Err? then Err(v.error) else Ok(to[..a] + [v.value] + to[b + 1..]))
  {
    hide TypeOf;
    var v := TypeOf(to[a + 1..b]);
    var pre := to[..a];
    assert Group(to, a, [], 0, pre) == Group(to, a + 1, [], 1, pre);
    hide Group;
    GroupPrefix(to, 0, a, []);
    assert [] + to[0..a] == pre;
    GroupGather(to, a + 1, b, []);
    assert [] + to[a + 1..b] == to[a + 1..b];
    if v.Ok? {
      GroupPlain(to, b + 1, pre + [v.value]);
    }
  }

  lemma {:induction false} GroupPrefix(to: seq<Slot>, i: nat, j: nat, now: seq<Slot>)
    requires i <= j <= |to| && forall k :: i <= k < j ==> !IsParenKind(to[k].kind)
    ensures Group(to, i, [], 0, now) == Group(to, j, [], 0, now + to[i..j])
    decreases j - i
  {
    if i < j {
      GroupPrefix(to, i + 1, j, now + [to[i]]);
      assert now + [to[i]] + to[i + 1..j] == now + to[i..j];
    } else {
      assert now + to[i..j] == now;
    }
  }

  lemma {:induction false} GroupGather(to: seq<Slot>, i: nat, j: nat, recurse: seq<Slot>)
    requires i <= j < |to| && |recurse| <= i && forall k :: i <= k < j ==> !IsParenKind(to[k].kind)
    requires to[j].kind == ParseTypes.ParenthesisClose
    ensures var v := TypeOf(recurse + to[i..j]);
      forall now :: Group(to, i, recurse, 1, now) == (if v.Err? then Err(v.error) else Group(to, j + 1, [], 0, now + [v.value]))
    decreases j - i
  {
    if i < j {
      GroupGather(to, i + 1, j, recurse + [to[i]]);
      assert recurse + [to[i]] + to[i + 1..j] == recurse + to[i..j];
    } else {
      assert recurse + to[i..j] == recurse;
    }
  }

  lemma MathStep(a: Slot, m: Slot, b: Slot)
    requires IsValueType(a.kind) && IsValueType(b.kind) && m.kind == ParseTypes.Math
    ensures TierLoop(MathTier, [a, m, b], -1, 0) == (if a.kind == b.kind then Ok([b]) else Err(Mismatch(a.kind, b.kind)))
  {
    var l := [a, m, b];
    assert TierLoop(MathTier, l, -1, 0) == TierLoop(MathTier, l, 0, 0);
    if a.kind == b.kind {
      assert l[..0] + l[2..] == [b];
      assert Fold(MathTier, l, 1) == Ok([b]);
      assert TierLoop(MathTier, l, 0, 0) == TierLoop(MathTier, [b], 1, 0);
    }
  }

  /** A math operator between two operands of the same type has that type
      (the right operand's slot); between different types it fails. */
  lemma MathBetween(a: Slot, m: Slot, b: Slot)
    requires IsValueType(a.kind) && IsValueType(b.kind) && m.kind == ParseTypes.Math
    ensures TypeOf([a, m, b]) == (if a.kind == b.kind then Ok(b) else Err(Mismatch(a.kind, b.kind)))
  {
    PlainTypeOf([a, m, b]);
    MathStep(a, m, b);
  }

  lemma ComparisonSkipsMath(l: seq<Slot>)
    requires |l| == 3 && l[1].kind == ParseTypes.Comparison && IsValueType(l[0].kind) && IsValueType(l[2].kind)
    ensures TierLoop(MathTier, l, -1, 0) == Ok(l)
  {
    assert TierLoop(MathTier, l, -1, 0) == TierLoop(MathTier, l, 0, 0);
    assert TierLoop(MathTier, l, 0, 0) == TierLoop(MathTier, l, 1, 0);
    assert TierLoop(MathTier, l, 1, 0) == TierLoop(MathTier, l, 2, 0);
    assert TierLoop(MathTier, l, 2, 0) == TierLoop(MathTier, l, 0, 1);
  }

  /** A comparison between two operands of the same type is a `bool` at the
      right operand's position; between different types it fails. */
  lemma ComparisonBetween(a: Slot, c: Slot, b: Slot)
    requires IsValueType(a.kind) && IsValueType(b.kind) && c.kind == ParseTypes.Comparison
    ensures TypeOf([a, c, b]) == (if a.kind == b.kind then Ok(Slot(ParseTypes.Bool, b.x, b.y)) else Err(Mismatch(a.kind, b.kind)))
  {
    var l := [a, c, b];
    PlainTypeOf(l);
    ComparisonSkipsMath(l);
    assert TierLoop(ComparisonTier, l, -1, 0) == TierLoop(ComparisonTier, l, 0, 0);
    if a.kind == b.kind {
      assert l[..0] + [Slot(ParseTypes.Bool, b.x, b.y)] + l[3..] == [Slot(ParseTypes.Bool, b.x, b.y)];
      assert Fold(ComparisonTier, l, 1) == Ok([Slot(ParseTypes.Bool, b.x, b.y)]);
      assert TierLoop(ComparisonTier, l, 0, 0) == TierLoop(ComparisonTier, [Slot(ParseTypes.Bool, b.x, b.y)], 1, 0);
    }
  }

  // ---------------------------------------------------------------------
  // Finding: a chain of two math operators is rejected

  /** Operands of one value type `k` with a math operator between each two. */
  predicate MathChain(list: seq<Slot>, k: ParseTypes) {
    |list| % 2 == 1 && IsValueType(k)
    && forall i :: 0 <= i < |list| ==> list[i].kind == (if i % 2 == 0 then k else ParseTypes.Math)
  }

  /** As written, the math pass folds `a + b` into `b`, steps past the
      second `+`, wraps around once and stops; the comparison pass changes
      nothing, and three slots are left. */
  lemma ChainOfTwoRejected(l: seq<Slot>, k: ParseTypes)
    requires |l| == 5 && MathChain(l, k)
    ensures TypeOf(l) == Err(EvalLeftover)
  {
    assert NoParens(l);
    PlainTypeOf(l);
    var rest := l[2..];
    assert l[..0] + l[2..] == rest;
    assert Fold(MathTier, l, 1) == Ok(rest);
    assert TierLoop(MathTier, l, -1, 0) == TierLoop(MathTier, l, 0, 0);
    assert TierLoop(MathTier, l, 0, 0) == TierLoop(MathTier, rest, 1, 0);
    assert TierLoop(MathTier, rest, 1, 0) == TierLoop(MathTier, rest, 2, 0);
    assert TierLoop(MathTier, rest, 2, 0) == TierLoop(MathTier, rest, 0, 1);
    assert TierLoop(MathTier, l, -1, 0) == Ok(rest);
    assert TierLoop(ComparisonTier, rest, -1, 0) == TierLoop(ComparisonTier, rest, 0, 0);
    assert TierLoop(ComparisonTier, rest, 0, 0) == TierLoop(ComparisonTier, rest, 1, 0);
    assert TierLoop(ComparisonTier, rest, 1, 0) == TierLoop(ComparisonTier, rest, 2, 0);
    assert TierLoop(ComparisonTier, rest, 2, 0) == TierLoop(ComparisonTier, rest, 0, 1);
  }

  /** The expression `1 + 2 + 3` as the lexer gives it. */
  const SumOfThree: seq<Token> := [
    Token(Integer, "1", 9, 1), Token(MathOperation, "+", 11, 1), Token(Integer, "2", 13, 1),
    Token(MathOperation, "+", 15, 1), Token(Integer, "3", 17, 1)]

  function SumSlots(toks: seq<Token>): seq<Slot>
    requires |toks| == 5
  {
    [Slot(ParseTypes.Int, toks[0].x, toks[0].y), Slot(ParseTypes.Math, toks[1].x, toks[1].y),
     Slot(ParseTypes.Int, toks[2].x, toks[2].y), Slot(ParseTypes.Math, toks[3].x, toks[3].y),
     Slot(ParseTypes.Int, toks[4].x, toks[4].y)]
  }

  lemma SumOfThreeSlots(toks: seq<Token>, vars: map<string, VarTypes>, funcs: map<string, Signature>)
    requires toks == SumOfThree
    ensures SlotsFrom(toks, 0, [], vars, funcs) == Ok(SumSlots(toks)) && MathChain(SumSlots(toks), ParseTypes.Int)
  {
    hide SlotsFrom;
    var s := SumSlots(toks);
    assert s[..0] == [] && s[..5] == s;
    LiteralStep(toks, 0, s, vars, funcs);
    LiteralStep(toks, 1, s, vars, funcs);
    LiteralStep(toks, 2, s, vars, funcs);
    LiteralStep(toks, 3, s, vars, funcs);
    LiteralStep(toks, 4, s, vars, funcs);
    SlotsFromEnd(toks, s, vars, funcs);
    SumSlotsChain(toks);
  }

  lemma LiteralStep(ts: seq<Token>, i: nat, s: seq<Slot>, vars: map<string, VarTypes>, funcs: map<string, Signature>)
    requires i < |ts| == |s| && ts[i].tokenType != Identifier
    requires TokenTypeToParseType(ts[i].tokenType) == Some(s[i].kind) && s[i].x == ts[i].x && s[i].y == ts[i].y
    ensures SlotsFrom(ts, i, s[..i], vars, funcs) == SlotsFrom(ts, i + 1, s[..i + 1], vars, funcs)
  {
    assert s[..i] + [s[i]] == s[..i + 1];
  }

  /** At the end of the tokens the slot loop returns what it has gathered. */
  lemma SlotsFromEnd(ts: seq<Token>, acc: seq<Slot>, vars: map<string, VarTypes>, funcs: map<string, Signature>)
    ensures SlotsFrom(ts, |ts|, acc, vars, funcs) == Ok(acc)
  {
  }

  lemma SumSlotsChain(toks: seq<Token>)
    requires |toks| == 5
    ensures MathChain(SumSlots(toks), ParseTypes.Int)
  {
    var s := SumSlots(toks);
    forall i | 0 <= i < 5
      ensures s[i].kind == (if i % 2 == 0 then ParseTypes.Int else ParseTypes.Math)
    {
      if i == 0 || i == 2 || i == 4 {
        assert i % 2 == 0;
      } else {
        assert i % 2 == 1;
      }
    }
  }

  /** So `int x <- 1 + 2 + 3;` is rejected with "Eval error" for any table. */
  lemma SumOfThreeRejected(vars: map<string, VarTypes>, funcs: map<string, Signature>, name: Token, toks: seq<Token>)
    requires toks == SumOfThree && name.value !in vars
    ensures CheckDeclaration(vars, funcs, name, VarTypes.Int, toks) == Err(EvalLeftover)
  {
    SumOfThreeSlots(toks, vars, funcs);
    ChainOfTwoRejected(SumSlots(toks), ParseTypes.Int);
  }

  /** The pass as evidently intended: it stops only after a whole round
      without a fold, as the value evaluator's passes do, and any fold
      starts the count again. */
  function TierLoopFixed(t: Tier, list: seq<Slot>, idx: int, rounds: int): (r: Result<seq<Slot>, CheckError>)
    requires -1 <= idx && 0 <= rounds <= 2
    decreases |list|, 2 - rounds, |list| - idx
  {
    if |list| == 1 then Ok(list)
    else if rounds > 1 then Ok(list)
    else
      var wrap := idx + 1 >= |list|;
      var i := if wrap then 0 else idx + 1;
      var r := if wrap then rounds + 1 else rounds;
      if i >= |list| then Err(NoValue)
      else if list[i].kind == Operator(t) then
        var next :- Fold(t, list, i);
        TierLoopFixed(t, next, i, 0)
      else TierLoopFixed(t, list, i, r)
  }

  /** `Passes` with the corrected loops. */
  function PassesFixed(now: seq<Slot>): Result<Slot, CheckError> {
    var l1 :- TierLoopFixed(MathTier, now, -1, 0);
    var l2 :- TierLoopFixed(ComparisonTier, l1, -1, 0);
    if |l2| > 1 then Err(EvalLeftover)
    else if |l2| == 0 then Err(NoValue)
    else Ok(l2[0])
  }

  lemma FoldChain(list: seq<Slot>, k: ParseTypes, i: int)
    requires MathChain(list, k) && 0 < i < |list| && i % 2 == 1
    ensures i + 1 < |list|
    ensures Fold(MathTier, list, i) == Ok(list[..i - 1] + list[i + 1..])
    ensures MathChain(list[..i - 1] + list[i + 1..], k)
    ensures (list[..i - 1] + list[i + 1..])[|list| - 3] == list[|list| - 1]
  {
    assert list[i - 1].kind == k && list[i + 1].kind == k;
    var next := list[..i - 1] + list[i + 1..];
    forall j | 0 <= j < |next|
      ensures next[j].kind == (if j % 2 == 0 then k else ParseTypes.Math)
    {
      if j < i - 1 {
        assert next[j] == list[j];
      } else {
        assert next[j] == list[j + 2];
      }
    }
  }

  /** The corrected math pass folds a whole chain down to its last operand. */
  lemma {:induction false} FixedChainFrom(list: seq<Slot>, k: ParseTypes, idx: int, rounds: int)
    requires MathChain(list, k) && -1 <= idx && 0 <= rounds <= 1 && (rounds == 1 ==> idx == 0)
    ensures TierLoopFixed(MathTier, list, idx, rounds) == Ok([list[|list| - 1]])
    decreases |list|, 2 - rounds, |list| - idx
  {
    hide TierLoopFixed;
    if |list| == 1 {
      assert list == [list[0]];
      FixedSingle(list, idx, rounds);
    } else {
      assert list[0].kind == k && list[1].kind == ParseTypes.Math;
      if idx + 1 >= |list| {
        FixedWrap(list, idx, rounds);
        FixedChainFrom(list, k, 0, rounds + 1);
      } else if (idx + 1) % 2 == 0 {
        assert list[idx + 1].kind == k;
        FixedSkip(list, idx, rounds);
        FixedChainFrom(list, k, idx + 1, rounds);
      } else {
        var i := idx + 1;
        FoldChain(list, k, i);
        var next := list[..i - 1] + list[i + 1..];
        assert list[i].kind == ParseTypes.Math;
        FixedFold(list, idx, rounds, next);
        FixedChainFrom(next, k, i, 0);
      }
    }
  }

  lemma FixedSingle(list: seq<Slot>, idx: int, rounds: int)
    requires |list| == 1 && -1 <= idx && 0 <= rounds <= 1
    ensures TierLoopFixed(MathTier, list, idx, rounds) == Ok(list)
  {
  }

  lemma FixedWrap(list: seq<Slot>, idx: int, rounds: int)
    requires |list| > 1 && -1 <= idx && 0 <= rounds <= 1 && idx + 1 >= |list|
    requires list[0].kind != ParseTypes.Math
    ensures TierLoopFixed(MathTier, list, idx, rounds) == TierLoopFixed(MathTier, list, 0, rounds + 1)
  {
  }

  lemma FixedSkip(list: seq<Slot>, idx: int, rounds: int)
    requires |list| > 1 && -1 <= idx && 0 <= rounds <= 1 && idx + 1 < |list|
    requires list[idx + 1].kind != ParseTypes.Math
    ensures TierLoopFixed(MathTier, list, idx, rounds) == TierLoopFixed(MathTier, list, idx + 1, rounds)
  {
  }

  lemma FixedFold(list: seq<Slot>, idx: int, rounds: int, next: seq<Slot>)
    requires |list| > 1 && -1 <= idx && 0 <= rounds <= 1 && idx + 1 < |list|
    requires list[idx + 1].kind == ParseTypes.Math && Fold(MathTier, list, idx + 1) == Ok(next)
    ensures TierLoopFixed(MathTier, list, idx, rounds) == TierLoopFixed(MathTier, next, idx + 1, 0)
  {
  }

  /** With the corrected loops a chain of any length has the type of its
      operands: the slot of its last operand. */
  lemma FixedChainTypes(list: seq<Slot>, k: ParseTypes)
    requires MathChain(list, k)
    ensures PassesFixed(list) == Ok(list[|list| - 1])
  {
    FixedChainFrom(list, k, -1, 0);
  }

  /** So `1 + 2 + 3` is an integer once the loops are corrected. */
  lemma FixedSumOfThree(vars: map<string, VarTypes>, funcs: map<string, Signature>, toks: seq<Token>)
    requires toks == SumOfThree
    ensures var slots := SlotsFrom(toks, 0, [], vars, funcs);
      slots.Ok? && PassesFixed(slots.value) == Ok(Slot(ParseTypes.Int, 17, 1))
  {
    SumOfThreeSlots(toks, vars, funcs);
    FixedChainTypes(SumSlots(toks), ParseTypes.Int);
  }

  // ---------------------------------------------------------------------
  // The checker

  /** A name already in the table cannot be declared again. */
  lemma RedeclarationFails(vars: map<string, VarTypes>, funcs: map<string, Signature>, name: Token, vt: VarTypes, values: seq<Token>)
    requires name.value in vars
    ensures CheckStatement(vars, funcs, VariableAssignment(name, vt, values)) == Err(AlreadyDefined(name.value))
  {
  }

  /** A declaration passes exactly when its name is new, its expression has
      an odd number of tokens and the declared type; it then adds the name
      with that type and reports it. */
  lemma DeclarationAddsName(vars: map<string, VarTypes>, funcs: map<string, Signature>, name: Token, vt: VarTypes, values: seq<Token>)
    ensures var o := CheckStatement(vars, funcs, VariableAssignment(name, vt, values));
      (o.Ok? <==> name.value !in vars && |values| % 2 == 1 && ExprType(values, vars, funcs) == Ok(vt))
      && (o.Ok? ==> o.value == (Checked(vars[name.value := vt], []), Some(name.value)))
  {
  }

  /** `Struct` can never be declared: no expression has that type. */
  lemma StructNeverDeclared(vars: map<string, VarTypes>, funcs: map<string, Signature>, name: Token, values: seq<Token>)
    ensures CheckStatement(vars, funcs, VariableAssignment(name, VarTypes.Struct, values)).Err?
  {
  }

  /** A reassignment passes exactly when the name is declared and the
      expression has its stored type, and it leaves the table as it was. */
  lemma ReassignmentKeepsTable(vars: map<string, VarTypes>, funcs: map<string, Signature>, name: Token, values: seq<Token>)
    ensures var o := CheckStatement(vars, funcs, VariableReassignment(name, values));
      (o.Ok? <==> name.value in vars && |values| % 2 == 1 && ExprType(values, vars, funcs) == Ok(vars[name.value]))
      && (o.Ok? ==> o.value == (Checked(vars, []), None))
  {
  }

  /** `out` takes exactly one argument: a literal or a declared variable of
      any type. */
  lemma OutTakesOneArgument(vars: map<string, VarTypes>, f: Token, args: seq<Token>)
    requires f.value == "out"
    ensures CheckCall(vars, Builtins, f, args).Ok? <==>
      |args| == 1 && (args[0].IsDataType() || (args[0].tokenType == Identifier && args[0].value in vars))
    ensures |args| != 1 ==> CheckCall(vars, Builtins, f, args) == Err(ArgCount(1, |args|))
  {
    assert Builtins[f.value] == Signature([ArgTypes.Any], []);
  }

  /** A call of a function the checker does not know fails. */
  lemma UnknownCallFails(vars: map<string, VarTypes>, funcs: map<string, Signature>, f: Token, args: seq<Token>)
    requires f.value !in funcs
    ensures CheckStatement(vars, funcs, FuncCall(f, args)) == Err(UnknownFunction(f.value))
  {
  }

  /** `after` is `before` with the distinct new names `added` added. */
  predicate Extends(before: map<string, VarTypes>, after: map<string, VarTypes>, added: seq<string>) {
    (forall n :: n in before ==> n in after && after[n] == before[n])
    && (forall k :: 0 <= k < |added| ==> added[k] !in before && added[k] in after)
    && (forall k, l :: 0 <= k < l < |added| ==> added[k] != added[l])
    && (forall n :: n in after ==> n in before || n in added)
  }

  lemma ExtendsNothing(before: map<string, VarTypes>, after: map<string, VarTypes>)
    requires Extends(before, after, [])
    ensures after == before
  {
  }

  lemma ExtendsMore(vars0: map<string, VarTypes>, vars: map<string, VarTypes>, local: seq<string>, n: string, t: VarTypes)
    requires Extends(vars0, vars, local) && n !in vars
    ensures Extends(vars0, vars[n := t], local + [n])
  {
    var after := vars[n := t];
    var added := local + [n];
    forall m | m in after
      ensures m in vars0 || m in added
    {
      if m != n {
        assert m in vars;
        if m !in vars0 {
          assert m in local;
          var k :| 0 <= k < |local| && local[k] == m;
          assert added[k] == m;
        }
      } else {
        assert added[|local|] == n;
      }
    }
  }

  /** Dropping the first of the added names leaves a table that extends the
      original by the others. */
  lemma ExtendsLess(vars0: map<string, VarTypes>, vars: map<string, VarTypes>, added: seq<string>)
    requires |added| > 0 && Extends(vars0, vars, added)
    ensures added[0] in vars && Extends(vars0, vars - {added[0]}, added[1..])
  {
    var n := added[0];
    var rest := added[1..];
    var smaller := vars - {n};
    forall j | 0 <= j < |rest|
      ensures rest[j] !in vars0 && rest[j] in smaller
    {
      assert rest[j] == added[j + 1];
      assert added[0] != added[j + 1];
    }
    forall j, l | 0 <= j < l < |rest|
      ensures rest[j] != rest[l]
    {
      assert rest[j] == added[j + 1] && rest[l] == added[l + 1];
    }
    forall m | m in smaller
      ensures m in vars0 || m in rest
    {
      if m !in vars0 {
        var j :| 0 <= j < |added| && added[j] == m;
        assert j != 0;
        assert rest[j - 1] == m;
      }
    }
  }

  /** Dropping the names a branch declared gives back the table it started
      from, and never misses one. */
  lemma {:induction false} DropAll(vars0: map<string, VarTypes>, vars: map<string, VarTypes>, names: seq<string>, k: nat, dropped: seq<string>)
    requires k <= |names| && Extends(vars0, vars, names[k..])
    ensures DropFrom(vars, names, k, dropped) == Ok(Checked(vars0, dropped + names[k..]))
    decreases |names| - k
  {
    hide Extends;
    if k == |names| {
      ExtendsNothing(vars0, vars);
      assert dropped + names[k..] == dropped;
    } else {
      var n := names[k];
      assert names[k..][0] == n && names[k..][1..] == names[k + 1..];
      ExtendsLess(vars0, vars, names[k..]);
      DropAll(vars0, vars - {n}, names, k + 1, dropped + [n]);
      assert dropped + [n] + names[k + 1..] == dropped + names[k..];
    }
  }

  /** What a statement does to the table: a declaration adds one new name,
      any other statement leaves the table as it was (a branch drops what it
      declared). No statement fails on a name missing at the end of a
      branch. */
  lemma {:induction false} StatementScope(vars: map<string, VarTypes>, funcs: map<string, Signature>, p: Parsed)
    decreases p, 0
    ensures var o := CheckStatement(vars, funcs, p);
      (o.Ok? ==> (o.value.1.None? ==> o.value.0.vars == vars)
                 && (o.value.1.Some? ==> Extends(vars, o.value.0.vars, [o.value.1.value])))
      && (o.Err? ==> !o.error.RemovedMissing?)
  {
    match p
    case VariableAssignment(name, vt, values) =>
      var o := CheckStatement(vars, funcs, p);
      if o.Ok? {
        assert o.value.0.vars == vars[name.value := vt];
        ExtendsMore(vars, vars, [], name.value, vt);
        assert [] + [name.value] == [name.value];
      }
    case Conditions(bs) =>
      BranchesScope(vars, funcs, bs, 0, []);
    case FuncCall(_, _) =>
    case VariableReassignment(_, _) =>
    case Program(_) =>
  }

  lemma {:induction false} BranchesScope(vars: map<string, VarTypes>, funcs: map<string, Signature>, bs: seq<Branch>, j: nat, dropped: seq<string>)
    requires j <= |bs|
    decreases bs, |bs| - j
    ensures var o := CheckBranchesFrom(vars, funcs, bs, j, dropped);
      (o.Ok? ==> o.value.vars == vars) && (o.Err? ==> !o.error.RemovedMissing?)
  {
    if j < |bs| {
      BranchScope(vars, funcs, bs[j]);
      var c := CheckBranch(vars, funcs, bs[j]);
      if c.Ok? {
        BranchesScope(vars, funcs, bs, j + 1, dropped + c.value.dropped);
      }
    }
  }

  /** A branch that passes leaves the table exactly as it found it. */
  lemma {:induction false} BranchScope(vars: map<string, VarTypes>, funcs: map<string, Signature>, b: Branch)
    decreases b, 0
    ensures var o := CheckBranch(vars, funcs, b);
      (o.Ok? ==> o.value.vars == vars) && (o.Err? ==> !o.error.RemovedMissing?)
  {
    var t := ExprType(b.condition, vars, funcs);
    if t.Ok? && t.value == VarTypes.Bool {
      BodyScope(vars, vars, funcs, b.body, 0, [], []);
      var body := CheckBodyFrom(vars, funcs, b.body, 0, [], []);
      if body.Ok? {
        var (c, local) := body.value;
        assert local[0..] == local;
        DropAll(vars, c.vars, local, 0, c.dropped);
      }
    }
  }

  lemma {:induction false} BodyScope(vars0: map<string, VarTypes>, vars: map<string, VarTypes>, funcs: map<string, Signature>,
                                     body: seq<Parsed>, i: nat, dropped: seq<string>, local: seq<string>)
    requires i <= |body| && Extends(vars0, vars, local)
    decreases body, |body| - i
    ensures var o := CheckBodyFrom(vars, funcs, body, i, dropped, local);
      (o.Ok? ==> Extends(vars0, o.value.0.vars, o.value.1)) && (o.Err? ==> !o.error.RemovedMissing?)
  {
    if i < |body| {
      StatementScope(vars, funcs, body[i]);
      var o := CheckStatement(vars, funcs, body[i]);
      if o.Ok? {
        var (c, d) := o.value;
        if d.Some? {
          assert d.value !in vars by {
            assert [d.value][0] == d.value;
          }
          assert c.vars == vars[d.value := c.vars[d.value]] by {
            assert [d.value][0] == d.value;
            forall m | m in c.vars
              ensures m in vars || m == d.value
            {
              assert m in vars || m in [d.value];
            }
          }
          ExtendsMore(vars0, vars, local, d.value, c.vars[d.value]);
          BodyScope(vars0, c.vars, funcs, body, i + 1, dropped + c.dropped, local + [d.value]);
        } else {
          BodyScope(vars0, c.vars, funcs, body, i + 1, dropped + c.dropped, local);
        }
      }
    }
  }

  /** An `if` chain that passes leaves the table as it was: every name
      declared in a branch is gone again. */
  lemma ConditionsRestoreTable(vars: map<string, VarTypes>, funcs: map<string, Signature>, bs: seq<Branch>)
    ensures var o := CheckStatement(vars, funcs, Conditions(bs));
      o.Ok? ==> o.value.0.vars == vars && o.value.1.None?
  {
    StatementScope(vars, funcs, Conditions(bs));
  }

  /** The end-of-branch removal never finds a name missing: the checker's
      "huh?" panic cannot happen. */
  lemma NeverMissingAtBranchEnd(vars: map<string, VarTypes>, funcs: map<string, Signature>, p: Parsed, n: string)
    ensures CheckStatement(vars, funcs, p) != Err(RemovedMissing(n))
  {
    StatementScope(vars, funcs, p);
  }

  /** Every condition of the chain from branch `j` on has type `bool` under
      the table `vars`. */
  predicate AllConditionsBool(vars: map<string, VarTypes>, funcs: map<string, Signature>, bs: seq<Branch>, j: nat)
    requires j <= |bs|
    decreases |bs| - j
  {
    j == |bs| || (ExprType(bs[j].condition, vars, funcs) == Ok(VarTypes.Bool) && AllConditionsBool(vars, funcs, bs, j + 1))
  }

  lemma {:induction false} AllConditionsBoolAt(vars: map<string, VarTypes>, funcs: map<string, Signature>, bs: seq<Branch>, j: nat, k: nat)
    requires j <= k < |bs| && AllConditionsBool(vars, funcs, bs, j)
    ensures ExprType(bs[k].condition, vars, funcs) == Ok(VarTypes.Bool)
    decreases k - j
  {
    hide ExprType;
    if k > j {
      AllConditionsBoolAt(vars, funcs, bs, j + 1, k);
    }
  }

  /** Every branch's condition is checked, each against the table the chain
      started with, and must be `bool`. */
  lemma {:induction false} ConditionsFrom(vars: map<string, VarTypes>, funcs: map<string, Signature>, bs: seq<Branch>, j: nat, dropped: seq<string>)
    requires j <= |bs| && CheckBranchesFrom(vars, funcs, bs, j, dropped).Ok?
    ensures AllConditionsBool(vars, funcs, bs, j)
    decreases |bs| - j
  {
    hide CheckBranchesFrom;
    hide ExprType;
    if j < |bs| {
      var d := BranchesStep(vars, funcs, bs, j, dropped);
      ConditionsFrom(vars, funcs, bs, j + 1, d);
    }
  }

  /** One step of the branch loop: the branch's condition is `bool`, and the
      rest of the chain is checked against the table the chain started with,
      because a passing branch leaves it as it was. */
  lemma BranchesStep(vars: map<string, VarTypes>, funcs: map<string, Signature>, bs: seq<Branch>, j: nat, dropped: seq<string>)
      returns (d: seq<string>)
    requires j < |bs| && CheckBranchesFrom(vars, funcs, bs, j, dropped).Ok?
    ensures ExprType(bs[j].condition, vars, funcs) == Ok(VarTypes.Bool)
    ensures CheckBranchesFrom(vars, funcs, bs, j + 1, d).Ok?
  {
    hide ExprType;
    var o := CheckBranch(vars, funcs, bs[j]);
    BranchScope(vars, funcs, bs[j]);
    d := dropped + o.value.dropped;
  }

  lemma EveryConditionIsBool(vars: map<string, VarTypes>, funcs: map<string, Signature>, bs: seq<Branch>)
    requires CheckStatement(vars, funcs, Conditions(bs)).Ok?
    ensures forall k :: 0 <= k < |bs| ==> ExprType(bs[k].condition, vars, funcs) == Ok(VarTypes.Bool)
  {
    hide CheckBranchesFrom;
    hide ExprType;
    ConditionsFrom(vars, funcs, bs, 0, []);
    forall k | 0 <= k < |bs|
      ensures ExprType(bs[k].condition, vars, funcs) == Ok(VarTypes.Bool)
    {
      AllConditionsBoolAt(vars, funcs, bs, 0, k);
    }
  }

  /** After an `if` chain, a name that was declared only inside it fails
      exactly as a name never declared: the checker does not consult
      `removed`. */
  lemma OutOfScopeIsUndeclared(vars: map<string, VarTypes>, funcs: map<string, Signature>, bs: seq<Branch>, name: Token, values: seq<Token>)
    requires name.value !in vars
    ensures var o := CheckStatement(vars, funcs, Conditions(bs));
      o.Ok? ==> CheckStatement(o.value.0.vars, funcs, VariableReassignment(name, values)) == Err(Undefined(name.value))
  {
    ConditionsRestoreTable(vars, funcs, bs);
  }
}
