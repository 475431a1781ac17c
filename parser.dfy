/** The SL parser (src/parser.rs): reads the lexer's tokens one statement at
    a time and builds a `Program` of declarations, reassignments, function
    calls and `if` / `else if` / `else` chains.

    Open blocks live on a stack `scope`: its bottom entry is the `Program`,
    every entry above it is a `Conditions` chain whose last branch receives
    the statements being read. The class `Parser` keeps the source's fields
    and loops; `ParseFrom` is the same procedure written as a function of the
    token list, and `Parser.Parse` is proved to return what it gives. */
module Parser {
  import opened Common
  import opened Lexer

  datatype VarTypes = Int | Str | Bool | Float | Struct

  /** The source text of a declarable type. */
  function TypeKeyword(t: VarTypes): (s: string)
    requires t != Struct
    ensures StrToTypes(s) == Some(t)
  {
    match t
    case Int => "int"
    case Str => "str"
    case Bool => "bool"
    case Float => "float"
  }

  /** `str_to_types`: only the four keywords name a type. */
  function StrToTypes(from: string): (r: Option<VarTypes>)
    ensures r.Some? <==> from in TypeNames
    ensures r.Some? ==> r.value != Struct
  {
    if from == "int" then Some(Int)
    else if from == "str" then Some(Str)
    else if from == "bool" then Some(Bool)
    else if from == "float" then Some(Float)
    else None
  }

  /** The keywords the main loop treats as the start of a declaration. */
  const TypeNames: seq<string> := ["int", "str", "bool", "float"]

  /** `data_token_type_to_types`: the type of a literal token. */
  function DataTokenTypeToTypes(from: TokenType): (r: Option<VarTypes>)
    ensures r.Some? <==> NewToken(from, "").IsDataType()
    ensures r != Some(Struct)
  {
    match from
    case Integer => Some(Int)
    case String => Some(Str)
    case Boolean => Some(Bool)
    case FloatingPoint => Some(Float)
    case _ => None
  }

  /** One arm of an `if` chain: its statements, its condition tokens and the
      (column, line) of its `if`, or of the `{` of a bare `else`. */
  datatype Branch = Branch(body: seq<Parsed>, condition: seq<Token>, pos: (nat, nat))

  datatype Parsed =
    | VariableAssignment(name: Token, varType: VarTypes, values: seq<Token>)
    | VariableReassignment(name: Token, values: seq<Token>)
    | Program(statements: seq<Parsed>)
    | FuncCall(func: Token, args: seq<Token>)
    | Conditions(branches: seq<Branch>)

  /** Why parsing stops; the source panics with a message at the current token. */
  datatype ParseError =
    | ExpectedName(got: TokenType)      // a type keyword not followed by a name
    | ExpectedArrow(got: TokenType)     // a declared name not followed by `<-`
    | ExpectedEndLine(got: TokenType)   // no `;` where a statement must end
    | ExpectedValues(got: TokenType)    // a token an expression may not hold
    | ExpectedArguments                 // end of input before a condition's `{`
    | UnexpectedElse                    // `else` with no open `if`
    | ExpectedScope(got: TokenType)     // a bare `else` not followed by `{`
    | BadArgument(got: TokenType)       // a token a call's arguments may not hold
    | NoValues                          // a reassignment with nothing after `<-`
    | UnexpectedClose                   // a `}` with no open block
    | UnknownToken(token: Token)        // a token no statement starts with
    | UnclosedBlock(x: nat, y: nat)     // end of input inside a block
    | Unsupported                       // `fun`, or a `(` inside a call
    | LexFailed(e: LexError)

  // ---------------------------------------------------------------------
  // The block stack

  predicate IsBlock(p: Parsed) {
    p.Conditions? && |p.branches| >= 1
  }

  /** The stack invariant: the program at the bottom, open `if` chains with
      at least one branch above it. */
  predicate ScopeValid(scope: seq<Parsed>) {
    |scope| >= 1 && scope[0].Program? && forall k :: 1 <= k < |scope| ==> IsBlock(scope[k])
  }

  /** `add_to_top_of_stack` on the entry itself: a program gets the statement
      at the end of its list, an `if` chain at the end of its last branch. */
  function PushInto(top: Parsed, p: Parsed): (r: Parsed)
    requires top.Program? || IsBlock(top)
    ensures top.Program? ==> r == Program(top.statements + [p])
    ensures IsBlock(top) ==>
              var n := |top.branches|;
              IsBlock(r) && |r.branches| == n && r.branches[..n - 1] == top.branches[..n - 1]
              && r.branches[n - 1].body == top.branches[n - 1].body + [p]
              && r.branches[n - 1].condition == top.branches[n - 1].condition
              && r.branches[n - 1].pos == top.branches[n - 1].pos
  {
    if top.Program? then Program(top.statements + [p])
    else
      var n := |top.branches|;
      var last := top.branches[n - 1];
      Conditions(top.branches[..n - 1] + [last.(body := last.body + [p])])
  }

  /** `add_to_top_of_stack`: only the top entry changes, and the stack stays valid. */
  function PushTop(scope: seq<Parsed>, p: Parsed): (r: seq<Parsed>)
    requires ScopeValid(scope)
    ensures ScopeValid(r) && |r| == |scope|
    ensures r[..|r| - 1] == scope[..|scope| - 1]
    ensures r[|r| - 1] == PushInto(scope[|scope| - 1], p)
  {
    scope[..|scope| - 1] + [PushInto(scope[|scope| - 1], p)]
  }

  /** `add_else`: a new empty branch on the open chain; an error on the bare program. */
  function AddElseTo(scope: seq<Parsed>, condition: seq<Token>, pos: (nat, nat)): (r: Result<seq<Parsed>, ParseError>)
    requires ScopeValid(scope)
    ensures r.Err? <==> |scope| == 1
    ensures r.Err? ==> r.error == UnexpectedElse
    ensures r.Ok? ==> ScopeValid(r.value) && |r.value| == |scope|
                      && r.value[..|scope| - 1] == scope[..|scope| - 1]
                      && r.value[|scope| - 1].branches == scope[|scope| - 1].branches + [Branch([], condition, pos)]
  {
    var top := scope[|scope| - 1];
    if top.Program? then Err(UnexpectedElse)
    else Ok(scope[..|scope| - 1] + [Conditions(top.branches + [Branch([], condition, pos)])])
  }

  /** `un_scope`: the top block becomes one statement of the entry below it. */
  function UnScope(scope: seq<Parsed>): (r: seq<Parsed>)
    requires ScopeValid(scope) && |scope| > 1
    ensures ScopeValid(r) && |r| == |scope| - 1
    ensures r[..|r| - 1] == scope[..|scope| - 2]
    ensures r[|r| - 1] == PushInto(scope[|scope| - 2], scope[|scope| - 1])
  {
    PushTop(scope[..|scope| - 1], scope[|scope| - 1])
  }

  /** The end of `parse`: an open block is an error at its last branch,
      otherwise the result is the program at the bottom. */
  function Finish(scope: seq<Parsed>): (r: Result<Parsed, ParseError>)
    requires ScopeValid(scope)
    ensures r.Ok? <==> |scope| == 1
    ensures r.Ok? ==> r.value.Program? && r.value == scope[0]
    ensures r.Err? ==> var top := scope[|scope| - 1];
                       var last := top.branches[|top.branches| - 1];
                       r.error == UnclosedBlock(last.pos.0, last.pos.1)
  {
    if |scope| > 1 then
      var top := scope[|scope| - 1];
      var last := top.branches[|top.branches| - 1];
      Err(UnclosedBlock(last.pos.0, last.pos.1))
    else Ok(scope[0])
  }

  // ---------------------------------------------------------------------
  // Token runs read by the inner loops

  /** What the lexer guarantees: the list ends with `EndOfFile`. Every inner
      loop of the parser stops at it; without it they would never stop. */
  predicate EndsWithEof(toks: seq<Token>) {
    |toks| >= 1 && toks[|toks| - 1].tokenType == EndOfFile
  }

  /** `allowed_tokens_in_evaluation`, together with the data literals. */
  predicate AllowedInExpression(t: Token) {
    t.IsDataType() || t.tokenType in {Identifier, MathOperation, ParenthesisClose, ComparisonOperation}
  }

  /** The expression loop of declarations and reassignments, after token `i`:
      it collects allowed tokens up to the `;` and gives them with the index
      of the `;`. */
  function ValuesFrom(toks: seq<Token>, i: int, acc: seq<Token>): (r: Result<(seq<Token>, int), ParseError>)
    requires EndsWithEof(toks) && 0 <= i < |toks| - 1
    decreases |toks| - i
    ensures r.Ok? ==> i < r.value.1 < |toks| && toks[r.value.1].tokenType == EndLine
                      && r.value.0 == acc + toks[i + 1..r.value.1]
                      && forall k :: i < k < r.value.1 ==> AllowedInExpression(toks[k])
  {
    var t := toks[i + 1];
    if t.tokenType == EndLine then Ok((acc, i + 1))
    else if t.tokenType == EndOfFile then Err(ExpectedEndLine(EndOfFile))
    else if AllowedInExpression(t) then ValuesFrom(toks, i + 1, acc + [t])
    else Err(ExpectedValues(t.tokenType))
  }

  /** The condition loop of `if` and `else if`, after token `i`: everything
      up to the `{`, whatever it is, with the index of the `{`. */
  function CondFrom(toks: seq<Token>, i: int, acc: seq<Token>): (r: Result<(seq<Token>, int), ParseError>)
    requires EndsWithEof(toks) && 0 <= i < |toks| - 1
    decreases |toks| - i
    ensures r.Ok? ==> i < r.value.1 < |toks| && toks[r.value.1].tokenType == CurlyBracketOpen
                      && r.value.0 == acc + toks[i + 1..r.value.1]
                      && forall k :: i < k < r.value.1 ==> toks[k].tokenType !in {CurlyBracketOpen, EndOfFile}
    ensures r.Err? ==> r.error == ExpectedArguments
  {
    var t := toks[i + 1];
    if t.tokenType == EndOfFile then Err(ExpectedArguments)
    else if t.tokenType == CurlyBracketOpen then Ok((acc, i + 1))
    else CondFrom(toks, i + 1, acc + [t])
  }

  /** What a call's argument list may hold besides its closing `)`. */
  predicate ArgumentToken(t: Token)
    ensures ArgumentToken(t) ==> t.tokenType != EndOfFile
  {
    t.tokenType != ParenthesisClose && (AllowedInExpression(t) || t.tokenType == SeperatorComma)
  }

  /** The argument loop of a call, after token `i`: tokens up to the `)`,
      with the index of the `)`. The source's nesting counter never leaves
      zero, because a `(` inside the arguments is unsupported. */
  function ArgsFrom(toks: seq<Token>, i: int, acc: seq<Token>): (r: Result<(seq<Token>, int), ParseError>)
    requires EndsWithEof(toks) && 0 <= i < |toks| - 1
    decreases |toks| - i
    ensures r.Ok? ==> i < r.value.1 < |toks| - 1 && toks[r.value.1].tokenType == ParenthesisClose
                      && r.value.0 == acc + toks[i + 1..r.value.1]
                      && forall k :: i < k < r.value.1 ==> ArgumentToken(toks[k])
  {
    var t := toks[i + 1];
    if t.tokenType == ParenthesisClose then Ok((acc, i + 1))
    else if t.tokenType == ParenthesisOpen then Err(Unsupported)
    else if ArgumentToken(t) then ArgsFrom(toks, i + 1, acc + [t])
    else Err(BadArgument(t.tokenType))
  }

  // ---------------------------------------------------------------------
  // One statement of the main loop

  /** Where a statement starts: token `i` is current and the stack is valid. */
  predicate Ready(toks: seq<Token>, i: int, scope: seq<Parsed>) {
    EndsWithEof(toks) && 0 <= i < |toks| && ScopeValid(scope)
  }

  /** A step's outcome: the index of the last token it used and the new stack. */
  type Outcome = Result<(int, seq<Parsed>), ParseError>

  /** `int x <- ...;`: a type keyword, a name, `<-`, then the expression. */
  function Declaration(toks: seq<Token>, i: int, scope: seq<Parsed>): (r: Outcome)
    requires Ready(toks, i, scope) && toks[i].tokenType == Identifier && toks[i].value in TypeNames
  {
    var varType := StrToTypes(toks[i].value).value;
    var name := toks[i + 1];
    if name.tokenType != Identifier then Err(ExpectedName(name.tokenType))
    else if toks[i + 2].tokenType != AssignmentArrow then Err(ExpectedArrow(toks[i + 2].tokenType))
    else
      var v :- ValuesFrom(toks, i + 2, []);
      Ok((v.1, PushTop(scope, VariableAssignment(name, varType, v.0))))
  }

  /** `if cond {`: a new chain with one branch opens on the stack. */
  function IfAt(toks: seq<Token>, i: int, scope: seq<Parsed>): (r: Outcome)
    requires Ready(toks, i, scope) && toks[i].tokenType == If
  {
    var c :- CondFrom(toks, i, []);
    Ok((c.1, scope + [Conditions([Branch([], c.0, (toks[i].x, toks[i].y))])]))
  }

  /** `else if cond {` adds a branch with that condition; a bare `else {`
      adds one whose condition is the single token `true`. */
  function ElseAt(toks: seq<Token>, i: int, scope: seq<Parsed>): (r: Outcome)
    requires Ready(toks, i, scope) && toks[i].tokenType == Else
  {
    var n := toks[i + 1];
    if n.tokenType == If then
      var c :- CondFrom(toks, i + 1, []);
      var s :- AddElseTo(scope, c.0, (n.x, n.y));
      Ok((c.1, s))
    else if n.tokenType != CurlyBracketOpen then Err(ExpectedScope(n.tokenType))
    else
      var s :- AddElseTo(scope, [NewToken(Boolean, "true")], (n.x, n.y));
      Ok((i + 1, s))
  }

  /** A name that is not a type keyword: `f(args);` is a call, `x <- ...;` a
      reassignment. Anything else after the name is read and dropped. */
  function IdentifierAt(toks: seq<Token>, i: int, scope: seq<Parsed>): (r: Outcome)
    requires Ready(toks, i, scope) && toks[i].tokenType == Identifier
  {
    var n := toks[i + 1];
    if n.tokenType == ParenthesisOpen then
      var a :- ArgsFrom(toks, i + 1, []);
      var semi := toks[a.1 + 1];
      if semi.tokenType != EndLine then Err(ExpectedEndLine(semi.tokenType))
      else Ok((a.1 + 1, PushTop(scope, FuncCall(toks[i], a.0))))
    else if n.tokenType == AssignmentArrow then
      var v :- ValuesFrom(toks, i + 1, []);
      if |v.0| == 0 then Err(NoValues)
      else Ok((v.1, PushTop(scope, VariableReassignment(toks[i], v.0))))
    else Ok((i + 1, scope))
  }

  /** `}`: before an `else` the chain stays open; otherwise the top block
      closes, which is an error when only the program is left. */
  function CloseAt(toks: seq<Token>, i: int, scope: seq<Parsed>): (r: Outcome)
    requires Ready(toks, i, scope) && toks[i].tokenType == CurlyBracketClose
  {
    if toks[i + 1].tokenType == Else then Ok((i, scope))
    else if |scope| == 1 then Err(UnexpectedClose)
    else Ok((i, UnScope(scope)))
  }

  /** The body of the main loop for current token `i`. */
  function Statement(toks: seq<Token>, i: int, scope: seq<Parsed>): (r: Outcome)
    requires Ready(toks, i, scope)
    ensures r.Ok? ==> i <= r.value.0 < |toks| && ScopeValid(r.value.1)
  {
    var t := toks[i];
    if t.tokenType == Identifier && t.value in TypeNames then Declaration(toks, i, scope)
    else if t.tokenType == If then IfAt(toks, i, scope)
    else if t.tokenType == Else then ElseAt(toks, i, scope)
    else if t.tokenType == Fun then Err(Unsupported)
    else if t.tokenType == Identifier then IdentifierAt(toks, i, scope)
    else if t.tokenType == CurlyBracketClose then CloseAt(toks, i, scope)
    else if t.tokenType == EndOfFile then Ok((i, scope))
    else Err(UnknownToken(t))
  }

  /** The main loop from the token after `idx` to the end of the list. */
  function ParseLoop(toks: seq<Token>, idx: int, scope: seq<Parsed>): (r: Result<Parsed, ParseError>)
    requires EndsWithEof(toks) && -1 <= idx && ScopeValid(scope)
    decreases |toks| - idx
    ensures r.Ok? ==> r.value.Program?
  {
    if idx + 1 >= |toks| then Finish(scope)
    else
      var s :- Statement(toks, idx + 1, scope);
      ParseLoop(toks, s.0, s.1)
  }

  /** `parse`: a parser whose loop already ended only finishes again. */
  function ParseFrom(run: bool, toks: seq<Token>, idx: int, scope: seq<Parsed>): (r: Result<Parsed, ParseError>)
    requires EndsWithEof(toks) && -1 <= idx && ScopeValid(scope)
    ensures r.Ok? ==> r.value.Program?
  {
    if run then ParseLoop(toks, idx, scope) else Finish(scope)
  }

  /** How a step method's result and new state follow a step's outcome. */
  predicate Follows(s: Outcome, r: Result<(), ParseError>, index: int, scope: seq<Parsed>) {
    match s
    case Ok(v) => r.Ok? && index == v.0 && scope == v.1
    case Err(e) => r == Err(e)
  }

  /** How a token-run method's result and new index follow a loop's outcome. */
  predicate Collected(s: Result<(seq<Token>, int), ParseError>, r: Result<seq<Token>, ParseError>, index: int) {
    match s
    case Ok(v) => r == Ok(v.0) && index == v.1
    case Err(e) => r == Err(e)
  }

  class Parser {
    var index: int
    var run: bool
    var currentToken: Token
    var toParse: seq<Token>
    var scope: seq<Parsed>

    predicate Valid()
      reads this
    {
      ScopeValid(scope) && index >= -1
    }

    constructor ()
      ensures Valid()
      ensures index == -1 && run && toParse == [] && scope == [Program([])]
      ensures currentToken == NewToken(NullForParser, "")
    {
      index := -1;
      run := true;
      currentToken := NewToken(NullForParser, "");
      toParse := [];
      scope := [Program([])];
    }

    /** `next_token`: moves on one token; past the end the current token stays. */
    method NextToken() returns (ok: bool)
      requires index >= -1
      modifies this
      ensures index == old(index) + 1
      ensures ok <==> index < |toParse|
      ensures ok ==> currentToken == toParse[index]
      ensures !ok ==> currentToken == old(currentToken)
      ensures toParse == old(toParse) && scope == old(scope) && run == old(run)
    {
      index := index + 1;
      if index >= |toParse| {
        ok := false;
      } else {
        currentToken := toParse[index];
        ok := true;
      }
    }

    /** `get_next_token`: the token after the current one, if any. */
    function GetNextToken(): (r: Option<Token>)
      reads this
      requires index >= -1
      ensures r.Some? <==> index + 1 < |toParse|
      ensures r.Some? ==> r.value == toParse[index + 1]
    {
      if index + 1 >= |toParse| then None else Some(toParse[index + 1])
    }

    method AddToTopOfStack(p: Parsed)
      requires ScopeValid(scope)
      modifies this
      ensures scope == PushTop(old(scope), p)
      ensures index == old(index) && toParse == old(toParse) && run == old(run) && currentToken == old(currentToken)
    {
      var top := scope[|scope| - 1];
      if top.Program? {
        scope := scope[..|scope| - 1] + [Program(top.statements + [p])];
      } else {
        var last := top.branches[|top.branches| - 1];
        var branches := top.branches[..|top.branches| - 1] + [last.(body := last.body + [p])];
        scope := scope[..|scope| - 1] + [Conditions(branches)];
      }
    }

    method AddIf(condition: seq<Token>, loc: (nat, nat))
      modifies this
      ensures scope == old(scope) + [Conditions([Branch([], condition, loc)])]
      ensures index == old(index) && toParse == old(toParse) && run == old(run) && currentToken == old(currentToken)
    {
      scope := scope + [Conditions([Branch([], condition, loc)])];
    }

    method AddElse(condition: seq<Token>, loc: (nat, nat)) returns (r: Result<(), ParseError>)
      requires ScopeValid(scope)
      modifies this
      ensures var s := AddElseTo(old(scope), condition, loc);
              (s.Ok? ==> r.Ok? && scope == s.value) && (s.Err? ==> r == Err(s.error))
      ensures index == old(index) && toParse == old(toParse) && run == old(run) && currentToken == old(currentToken)
    {
      var top := scope[|scope| - 1];
      if top.Program? {
        return Err(UnexpectedElse);
      }
      scope := scope[..|scope| - 1] + [Conditions(top.branches + [Branch([], condition, loc)])];
      return Ok(());
    }

    method UnScopeTop()
      requires ScopeValid(scope) && |scope| > 1
      modifies this
      ensures scope == UnScope(old(scope))
      ensures index == old(index) && toParse == old(toParse) && run == old(run) && currentToken == old(currentToken)
    {
      var block := scope[|scope| - 1];
      scope := scope[..|scope| - 1];
      AddToTopOfStack(block);
    }

    /** The expression loop: tokens up to the `;`. */
    method ReadValues() returns (r: Result<seq<Token>, ParseError>)
      requires EndsWithEof(toParse) && 0 <= index < |toParse| - 1
      modifies this
      ensures Collected(ValuesFrom(old(toParse), old(index), []), r, index)
      ensures r.Ok? ==> 0 <= index < |toParse| && currentToken == toParse[index]
      ensures toParse == old(toParse) && scope == old(scope) && run == old(run)
    {
      hide AllowedInExpression;
      var values: seq<Token> := [];
      ghost var start := index;
      while true
        invariant toParse == old(toParse) && scope == old(scope) && run == old(run)
        invariant 0 <= index < |toParse| - 1
        invariant ValuesFrom(toParse, index, values) == ValuesFrom(toParse, start, [])
        decreases |toParse| - index
      {
        var _ := NextToken();
        if currentToken.tokenType == EndLine {
          return Ok(values);
        } else if currentToken.tokenType == EndOfFile {
          return Err(ExpectedEndLine(EndOfFile));
        } else if AllowedInExpression(currentToken) {
          values := values + [currentToken];
        } else {
          return Err(ExpectedValues(currentToken.tokenType));
        }
      }
    }

    /** The condition loop: tokens up to the `{`. */
    method ReadCondition() returns (r: Result<seq<Token>, ParseError>)
      requires EndsWithEof(toParse) && 0 <= index < |toParse| - 1
      modifies this
      ensures Collected(CondFrom(old(toParse), old(index), []), r, index)
      ensures toParse == old(toParse) && scope == old(scope) && run == old(run)
    {
      var condition: seq<Token> := [];
      ghost var start := index;
      while true
        invariant toParse == old(toParse) && scope == old(scope) && run == old(run)
        invariant 0 <= index < |toParse| - 1
        invariant CondFrom(toParse, index, condition) == CondFrom(toParse, start, [])
        decreases |toParse| - index
      {
        var _ := NextToken();
        if currentToken.tokenType == EndOfFile {
          return Err(ExpectedArguments);
        } else if currentToken.tokenType == CurlyBracketOpen {
          return Ok(condition);
        } else {
          condition := condition + [currentToken];
        }
      }
    }

    /** The argument loop: tokens up to the `)`. */
    method ReadArguments() returns (r: Result<seq<Token>, ParseError>)
      requires EndsWithEof(toParse) && 0 <= index < |toParse| - 1
      modifies this
      ensures Collected(ArgsFrom(old(toParse), old(index), []), r, index)
      ensures toParse == old(toParse) && scope == old(scope) && run == old(run)
    {
      hide ArgumentToken;
      var args: seq<Token> := [];
      ghost var start := index;
      while true
        invariant toParse == old(toParse) && scope == old(scope) && run == old(run)
        invariant 0 <= index < |toParse| - 1
        invariant ArgsFrom(toParse, index, args) == ArgsFrom(toParse, start, [])
        decreases |toParse| - index
      {
        var _ := NextToken();
        if currentToken.tokenType == ParenthesisClose {
          return Ok(args);
        } else if currentToken.tokenType == ParenthesisOpen {
          return Err(Unsupported);
        } else if ArgumentToken(currentToken) {
          args := args + [currentToken];
        } else {
          return Err(BadArgument(currentToken.tokenType));
        }
      }
    }

    method ParseDeclaration() returns (r: Result<(), ParseError>)
      requires Ready(toParse, index, scope) && currentToken == toParse[index]
      requires currentToken.tokenType == Identifier && currentToken.value in TypeNames
      modifies this
      ensures Follows(Declaration(old(toParse), old(index), old(scope)), r, index, scope)
      ensures toParse == old(toParse) && run == old(run)
    {
      hide ValuesFrom;
      hide PushTop;
      var varType := StrToTypes(currentToken.value).value;
      var _ := NextToken();
      if currentToken.tokenType != Identifier {
        return Err(ExpectedName(currentToken.tokenType));
      }
      var name := currentToken;
      var _ := NextToken();
      if currentToken.tokenType != AssignmentArrow {
        return Err(ExpectedArrow(currentToken.tokenType));
      }
      var values := ReadValues();
      if values.Err? {
        return Err(values.error);
      }
      AddToTopOfStack(VariableAssignment(name, varType, values.value));
      return Ok(());
    }

    method ParseIf() returns (r: Result<(), ParseError>)
      requires Ready(toParse, index, scope) && currentToken == toParse[index]
      requires currentToken.tokenType == If
      modifies this
      ensures Follows(IfAt(old(toParse), old(index), old(scope)), r, index, scope)
      ensures toParse == old(toParse) && run == old(run)
    {
      var pos := (currentToken.x, currentToken.y);
      var condition := ReadCondition();
      if condition.Err? {
        return Err(condition.error);
      }
      AddIf(condition.value, pos);
      return Ok(());
    }

    method ParseElse() returns (r: Result<(), ParseError>)
      requires Ready(toParse, index, scope) && currentToken == toParse[index]
      requires currentToken.tokenType == Else
      modifies this
      ensures Follows(ElseAt(old(toParse), old(index), old(scope)), r, index, scope)
      ensures toParse == old(toParse) && run == old(run)
    {
      var _ := NextToken();
      var pos := (currentToken.x, currentToken.y);
      if currentToken.tokenType == If {
        var condition := ReadCondition();
        if condition.Err? {
          return Err(condition.error);
        }
        r := AddElse(condition.value, pos);
      } else {
        if currentToken.tokenType != CurlyBracketOpen {
          return Err(ExpectedScope(currentToken.tokenType));
        }
        r := AddElse([NewToken(Boolean, "true")], pos);
      }
    }

    method ParseIdentifier() returns (r: Result<(), ParseError>)
      requires Ready(toParse, index, scope) && currentToken == toParse[index]
      requires currentToken.tokenType == Identifier
      modifies this
      ensures Follows(IdentifierAt(old(toParse), old(index), old(scope)), r, index, scope)
      ensures toParse == old(toParse) && run == old(run)
    {
      hide ArgsFrom;
      hide ValuesFrom;
      hide PushTop;
      var name := currentToken;
      var ok := NextToken();
      if ok && currentToken.tokenType == ParenthesisOpen {
        var args := ReadArguments();
        if args.Err? {
          return Err(args.error);
        }
        var _ := NextToken();
        if currentToken.tokenType != EndLine {
          return Err(ExpectedEndLine(currentToken.tokenType));
        }
        AddToTopOfStack(FuncCall(name, args.value));
      } else if currentToken.tokenType == AssignmentArrow {
        var values := ReadValues();
        if values.Err? {
          return Err(values.error);
        }
        if |values.value| == 0 {
          return Err(NoValues);
        }
        AddToTopOfStack(VariableReassignment(name, values.value));
      }
      return Ok(());
    }

    method CloseBlock() returns (r: Result<(), ParseError>)
      requires Ready(toParse, index, scope) && currentToken == toParse[index]
      requires currentToken.tokenType == CurlyBracketClose
      modifies this
      ensures Follows(CloseAt(old(toParse), old(index), old(scope)), r, index, scope)
      ensures toParse == old(toParse) && run == old(run)
    {
      if GetNextToken().value.tokenType != Else {
        if |scope| == 1 {
          return Err(UnexpectedClose);
        }
        UnScopeTop();
      }
      return Ok(());
    }

    /** The body of the main loop. */
    method Step() returns (r: Result<(), ParseError>)
      requires Ready(toParse, index, scope) && currentToken == toParse[index]
      modifies this
      ensures Follows(Statement(old(toParse), old(index), old(scope)), r, index, scope)
      ensures toParse == old(toParse) && run == old(run)
    {
      var kind := currentToken.tokenType;
      if kind == Identifier && currentToken.value in TypeNames {
        r := ParseDeclaration();
      } else if kind == If {
        r := ParseIf();
      } else if kind == Else {
        r := ParseElse();
      } else if kind == Fun {
        r := Err(Unsupported);
      } else if kind == Identifier {
        r := ParseIdentifier();
      } else if kind == CurlyBracketClose {
        r := CloseBlock();
      } else if kind == EndOfFile {
        r := Ok(());
      } else {
        r := Err(UnknownToken(currentToken));
      }
    }

    /** `parse`: statements until the tokens run out, then the end check. */
    method Parse() returns (r: Result<Parsed, ParseError>)
      requires Valid() && EndsWithEof(toParse)
      modifies this
      ensures r == ParseFrom(old(run), old(toParse), old(index), old(scope))
    {
      ghost var goal := ParseFrom(run, toParse, index, scope);
      while run
        invariant Valid() && EndsWithEof(toParse) && toParse == old(toParse)
        invariant ParseFrom(run, toParse, index, scope) == goal
        decreases |toParse| - index
      {
        var ok := NextToken();
        if !ok {
          run := false;
          break;
        }
        var step := Step();
        if step.Err? {
          return Err(step.error);
        }
      }
      if |scope| > 1 {
        var top := scope[|scope| - 1];
        var last := top.branches[|top.branches| - 1];
        return Err(UnclosedBlock(last.pos.0, last.pos.1));
      }
      return Ok(scope[0]);
    }

    /** `parse_text`: lexes the text, then parses the tokens. */
    method ParseText(text: string) returns (r: Result<Parsed, ParseError>)
      requires Valid()
      modifies this
      ensures var lexed := LexString(text);
              (lexed.Err? ==> r == Err(LexFailed(lexed.error)))
              && (lexed.Ok? ==> EndsWithEof(lexed.value)
                                && r == ParseFrom(old(run), lexed.value, old(index), old(scope)))
    {
      var lexed := LexFresh(text);
      if lexed.Err? {
        return Err(LexFailed(lexed.error));
      }
      LexEndsWithEof(text);
      toParse := lexed.value;
      r := Parse();
    }
  }

  // ---------------------------------------------------------------------
  // What the loops read

  /** An expression ends at the first `;` when every token before it is
      allowed: then it is exactly those tokens. */
  lemma {:induction false} ValuesUpTo(toks: seq<Token>, i: int, e: int, acc: seq<Token>)
    requires EndsWithEof(toks) && 0 <= i < e < |toks| && toks[e].tokenType == EndLine
    requires forall k :: i < k < e ==> AllowedInExpression(toks[k])
    ensures ValuesFrom(toks, i, acc) == Ok((acc + toks[i + 1..e], e))
    decreases e - i
  {
    var t := toks[i + 1];
    if e > i + 1 {
      assert t.tokenType != EndLine && t.tokenType != EndOfFile && AllowedInExpression(t);
      hide AllowedInExpression;
      assert ValuesFrom(toks, i, acc) == ValuesFrom(toks, i + 1, acc + [t]);
      ValuesUpTo(toks, i + 1, e, acc + [t]);
      assert acc + [t] + toks[i + 2..e] == acc + toks[i + 1..e];
    } else {
      assert ValuesFrom(toks, i, acc) == Ok((acc, i + 1));
    }
  }

  /** The first token that is neither allowed nor `;` stops the expression
      with an error: end of input as a missing `;`, anything else (a `(`
      among them) as an unexpected value. */
  lemma {:induction false} ValuesStopAt(toks: seq<Token>, i: int, k: int, acc: seq<Token>)
    requires EndsWithEof(toks) && 0 <= i < k < |toks|
    requires !AllowedInExpression(toks[k]) && toks[k].tokenType != EndLine
    requires forall m :: i < m < k ==> AllowedInExpression(toks[m])
    ensures ValuesFrom(toks, i, acc)
            == if toks[k].tokenType == EndOfFile then Err(ExpectedEndLine(EndOfFile))
               else Err(ExpectedValues(toks[k].tokenType))
    decreases k - i
  {
    if k > i + 1 {
      ValuesStopAt(toks, i + 1, k, acc + [toks[i + 1]]);
    }
  }

  /** A condition is every token up to the first `{`, when no end of input
      comes first. */
  lemma {:induction false} CondUpTo(toks: seq<Token>, i: int, e: int, acc: seq<Token>)
    requires EndsWithEof(toks) && 0 <= i < e < |toks| && toks[e].tokenType == CurlyBracketOpen
    requires forall k :: i < k < e ==> toks[k].tokenType !in {CurlyBracketOpen, EndOfFile}
    ensures CondFrom(toks, i, acc) == Ok((acc + toks[i + 1..e], e))
    decreases e - i
  {
    var t := toks[i + 1];
    if e > i + 1 {
      assert t.tokenType != CurlyBracketOpen && t.tokenType != EndOfFile;
      assert CondFrom(toks, i, acc) == CondFrom(toks, i + 1, acc + [t]);
      CondUpTo(toks, i + 1, e, acc + [t]);
      assert acc + [t] + toks[i + 2..e] == acc + toks[i + 1..e];
    } else {
      assert CondFrom(toks, i, acc) == Ok((acc, i + 1));
    }
  }

  /** An `if` whose `{` never comes fails at the end of input. */
  lemma {:induction false} CondNeverOpens(toks: seq<Token>, i: int, acc: seq<Token>)
    requires EndsWithEof(toks) && 0 <= i < |toks| - 1
    requires forall k :: i < k < |toks| ==> toks[k].tokenType != CurlyBracketOpen
    ensures CondFrom(toks, i, acc) == Err(ExpectedArguments)
    decreases |toks| - i
  {
    if toks[i + 1].tokenType != EndOfFile {
      CondNeverOpens(toks, i + 1, acc + [toks[i + 1]]);
    }
  }

  // ---------------------------------------------------------------------
  // What one statement does to the stack

  /** Which statement the current token starts. */
  lemma StatementDispatch(toks: seq<Token>, i: int, scope: seq<Parsed>)
    requires Ready(toks, i, scope)
    ensures var t := toks[i];
            (t.tokenType == Identifier && t.value in TypeNames ==> Statement(toks, i, scope) == Declaration(toks, i, scope))
            && (t.tokenType == If ==> Statement(toks, i, scope) == IfAt(toks, i, scope))
            && (t.tokenType == Else ==> Statement(toks, i, scope) == ElseAt(toks, i, scope))
            && (t.tokenType == Identifier && t.value !in TypeNames ==> Statement(toks, i, scope) == IdentifierAt(toks, i, scope))
            && (t.tokenType == CurlyBracketClose ==> Statement(toks, i, scope) == CloseAt(toks, i, scope))
  {
    hide Declaration;
    hide IfAt;
    hide ElseAt;
    hide IdentifierAt;
    hide CloseAt;
  }

  /** `if c {` pushes a chain with one empty branch holding the tokens of
      `c` and the position of the `if`. */
  lemma IfOpensBlock(toks: seq<Token>, i: int, e: int, scope: seq<Parsed>)
    requires Ready(toks, i, scope) && toks[i].tokenType == If && i < e < |toks|
    requires toks[e].tokenType == CurlyBracketOpen
    requires forall k :: i < k < e ==> toks[k].tokenType !in {CurlyBracketOpen, EndOfFile}
    ensures Statement(toks, i, scope)
            == Ok((e, scope + [Conditions([Branch([], toks[i + 1..e], (toks[i].x, toks[i].y))])]))
  {
    StatementDispatch(toks, i, scope);
    hide Statement;
    CondUpTo(toks, i, e, []);
    assert [] + toks[i + 1..e] == toks[i + 1..e];
  }

  /** `else` or `else if` with only the program open is an error, once the
      `else` itself is well formed. */
  lemma ElseNeedsIf(toks: seq<Token>, i: int)
    requires Ready(toks, i, [Program([])]) && toks[i].tokenType == Else
    requires toks[i + 1].tokenType == CurlyBracketOpen
             || (toks[i + 1].tokenType == If && CondFrom(toks, i + 1, []).Ok?)
    ensures Statement(toks, i, [Program([])]) == Err(UnexpectedElse)
  {
  }

  /** A bare `else {` adds a branch whose condition is the literal `true`. */
  lemma ElseIsAlwaysTrue(toks: seq<Token>, i: int, scope: seq<Parsed>)
    requires Ready(toks, i, scope) && |scope| > 1 && toks[i].tokenType == Else
    requires toks[i + 1].tokenType == CurlyBracketOpen
    ensures var r := Statement(toks, i, scope);
            r.Ok? && r.value.0 == i + 1 && |r.value.1| == |scope|
            && r.value.1[..|scope| - 1] == scope[..|scope| - 1]
            && r.value.1[|scope| - 1].branches
               == scope[|scope| - 1].branches + [Branch([], [NewToken(Boolean, "true")], (toks[i + 1].x, toks[i + 1].y))]
  {
  }

  /** `}` before `else` leaves the stack alone; any other `}` closes the top
      block into the entry below, and with only the program open it fails. */
  lemma CloseBrace(toks: seq<Token>, i: int, scope: seq<Parsed>)
    requires Ready(toks, i, scope) && toks[i].tokenType == CurlyBracketClose
    ensures toks[i + 1].tokenType == Else ==> Statement(toks, i, scope) == Ok((i, scope))
    ensures toks[i + 1].tokenType != Else && |scope| == 1 ==> Statement(toks, i, scope) == Err(UnexpectedClose)
    ensures toks[i + 1].tokenType != Else && |scope| > 1 ==>
              Statement(toks, i, scope) == Ok((i, scope[..|scope| - 2] + [PushInto(scope[|scope| - 2], scope[|scope| - 1])]))
  {
    if toks[i + 1].tokenType != Else && |scope| > 1 {
      var r := UnScope(scope);
      assert r == r[..|r| - 1] + [r[|r| - 1]];
    }
  }

  /** A declaration with an allowed expression appends one
      `VariableAssignment` to the innermost open block. */
  lemma DeclarationAppends(toks: seq<Token>, i: int, e: int, scope: seq<Parsed>)
    requires Ready(toks, i, scope) && toks[i].tokenType == Identifier && toks[i].value in TypeNames
    requires i + 2 < e < |toks| && toks[i + 1].tokenType == Identifier && toks[i + 2].tokenType == AssignmentArrow
    requires toks[e].tokenType == EndLine && forall k :: i + 2 < k < e ==> AllowedInExpression(toks[k])
    ensures Statement(toks, i, scope)
            == Ok((e, PushTop(scope, VariableAssignment(toks[i + 1], StrToTypes(toks[i].value).value, toks[i + 3..e]))))
  {
    StatementDispatch(toks, i, scope);
    hide Statement;
    ValuesUpTo(toks, i + 2, e, []);
    assert [] + toks[i + 3..e] == toks[i + 3..e];
  }

  /** A reassignment needs at least one value. */
  lemma EmptyReassignment(toks: seq<Token>, i: int, scope: seq<Parsed>)
    requires Ready(toks, i, scope) && toks[i].tokenType == Identifier && toks[i].value !in TypeNames
    requires i + 2 < |toks| && toks[i + 1].tokenType == AssignmentArrow && toks[i + 2].tokenType == EndLine
    ensures Statement(toks, i, scope) == Err(NoValues)
  {
  }

  /** A call's `)` must be followed by `;`; then the call, with the tokens
      between its parentheses, is appended to the innermost open block. */
  lemma CallNeedsEndLine(toks: seq<Token>, i: int, scope: seq<Parsed>)
    requires Ready(toks, i, scope) && toks[i].tokenType == Identifier && toks[i].value !in TypeNames
    requires toks[i + 1].tokenType == ParenthesisOpen
    requires ArgsFrom(toks, i + 1, []).Ok?
    ensures var close := ArgsFrom(toks, i + 1, []).value.1;
            toks[close + 1].tokenType != EndLine ==> Statement(toks, i, scope) == Err(ExpectedEndLine(toks[close + 1].tokenType))
    ensures var close := ArgsFrom(toks, i + 1, []).value.1;
            toks[close + 1].tokenType == EndLine ==> Statement(toks, i, scope) == Ok((close + 1, PushTop(scope, FuncCall(toks[i], toks[i + 2..close]))))
  {
    hide Statement;
    hide ArgsFrom;
    hide ValuesFrom;
    hide PushTop;
    StatementDispatch(toks, i, scope);
    var close := ArgsFrom(toks, i + 1, []).value.1;
    assert [] + toks[i + 2..close] == toks[i + 2..close];
  }

  /** A call's arguments are every token up to the first `)`, when all of
      them may stand in an argument list. */
  lemma {:induction false} ArgsUpTo(toks: seq<Token>, i: int, e: int, acc: seq<Token>)
    requires EndsWithEof(toks) && 0 <= i < e < |toks| - 1 && toks[e].tokenType == ParenthesisClose
    requires forall k :: i < k < e ==> ArgumentToken(toks[k])
    ensures ArgsFrom(toks, i, acc) == Ok((acc + toks[i + 1..e], e))
    decreases e - i
  {
    var t := toks[i + 1];
    if e > i + 1 {
      assert t.tokenType != ParenthesisClose && t.tokenType != ParenthesisOpen && ArgumentToken(t);
      hide ArgumentToken;
      assert ArgsFrom(toks, i, acc) == ArgsFrom(toks, i + 1, acc + [t]);
      ArgsUpTo(toks, i + 1, e, acc + [t]);
      assert acc + [t] + toks[i + 2..e] == acc + toks[i + 1..e];
    } else {
      assert ArgsFrom(toks, i, acc) == Ok((acc, i + 1));
    }
  }

  /** `f(args);` appends one `FuncCall` with the tokens between the
      parentheses to the innermost open block. */
  lemma CallAppends(toks: seq<Token>, i: int, e: int, scope: seq<Parsed>)
    requires Ready(toks, i, scope) && toks[i].tokenType == Identifier && toks[i].value !in TypeNames
    requires toks[i + 1].tokenType == ParenthesisOpen && i + 1 < e < |toks| - 1
    requires toks[e].tokenType == ParenthesisClose && toks[e + 1].tokenType == EndLine
    requires forall k :: i + 1 < k < e ==> ArgumentToken(toks[k])
    ensures Statement(toks, i, scope) == Ok((e + 1, PushTop(scope, FuncCall(toks[i], toks[i + 2..e]))))
  {
    hide Statement;
    hide ArgsFrom;
    hide ValuesFrom;
    hide PushTop;
    hide ArgumentToken;
    hide IdentifierAt;
    ArgsUpTo(toks, i + 1, e, []);
    assert [] + toks[i + 2..e] == toks[i + 2..e];
    CallNeedsEndLine(toks, i, scope);
  }

  /** A name followed by anything but `(` or `<-` is a statement that does
      nothing, and the token after the name is used up with it. */
  lemma BareNameSwallowsNext(toks: seq<Token>, i: int, scope: seq<Parsed>)
    requires Ready(toks, i, scope) && toks[i].tokenType == Identifier && toks[i].value !in TypeNames
    requires toks[i + 1].tokenType !in {ParenthesisOpen, AssignmentArrow}
    ensures Statement(toks, i, scope) == Ok((i + 1, scope))
  {
  }

  // ---------------------------------------------------------------------
  // Whole runs

  lemma PushKeepsProgram(scope: seq<Parsed>, p: Parsed)
    requires ScopeValid(scope)
    ensures scope[0].statements <= PushTop(scope, p)[0].statements
  {
    var r := PushTop(scope, p);
    if |scope| > 1 {
      assert r[0] == r[..|r| - 1][0];
    }
  }

  /** Whether an outcome keeps the statements the program held before at its front. */
  predicate KeepsProgram(scope: seq<Parsed>, r: Outcome)
    requires ScopeValid(scope)
  {
    r.Ok? && ScopeValid(r.value.1) ==> scope[0].statements <= r.value.1[0].statements
  }

  lemma DeclarationKeepsProgram(toks: seq<Token>, i: int, scope: seq<Parsed>)
    requires Ready(toks, i, scope) && toks[i].tokenType == Identifier && toks[i].value in TypeNames
    ensures KeepsProgram(scope, Declaration(toks, i, scope))
  {
    if Declaration(toks, i, scope).Ok? {
      var v := ValuesFrom(toks, i + 2, []).value;
      PushKeepsProgram(scope, VariableAssignment(toks[i + 1], StrToTypes(toks[i].value).value, v.0));
    }
  }

  lemma CallKeepsProgram(toks: seq<Token>, i: int, scope: seq<Parsed>)
    requires Ready(toks, i, scope) && toks[i].tokenType == Identifier && toks[i + 1].tokenType == ParenthesisOpen
    ensures KeepsProgram(scope, IdentifierAt(toks, i, scope))
  {
    var r := IdentifierAt(toks, i, scope);
    if r.Ok? {
      var p := FuncCall(toks[i], ArgsFrom(toks, i + 1, []).value.0);
      assert r.value.1 == PushTop(scope, p);
      PushKeepsProgram(scope, p);
    }
  }

  lemma ReassignKeepsProgram(toks: seq<Token>, i: int, scope: seq<Parsed>)
    requires Ready(toks, i, scope) && toks[i].tokenType == Identifier && toks[i + 1].tokenType == AssignmentArrow
    ensures KeepsProgram(scope, IdentifierAt(toks, i, scope))
  {
    var r := IdentifierAt(toks, i, scope);
    if r.Ok? {
      var p := VariableReassignment(toks[i], ValuesFrom(toks, i + 1, []).value.0);
      assert r.value.1 == PushTop(scope, p);
      PushKeepsProgram(scope, p);
    }
  }

  lemma IdentifierKeepsProgram(toks: seq<Token>, i: int, scope: seq<Parsed>)
    requires Ready(toks, i, scope) && toks[i].tokenType == Identifier
    ensures KeepsProgram(scope, IdentifierAt(toks, i, scope))
  {
    var n := toks[i + 1];
    if n.tokenType == ParenthesisOpen {
      CallKeepsProgram(toks, i, scope);
    } else if n.tokenType == AssignmentArrow {
      ReassignKeepsProgram(toks, i, scope);
    }
  }

  lemma IfKeepsProgram(toks: seq<Token>, i: int, scope: seq<Parsed>)
    requires Ready(toks, i, scope) && toks[i].tokenType == If
    ensures KeepsProgram(scope, IfAt(toks, i, scope))
  {
    var r := IfAt(toks, i, scope);
    if r.Ok? {
      assert r.value.1[0] == scope[0];
    }
  }

  lemma ElseKeepsProgram(toks: seq<Token>, i: int, scope: seq<Parsed>)
    requires Ready(toks, i, scope) && toks[i].tokenType == Else
    ensures KeepsProgram(scope, ElseAt(toks, i, scope))
  {
    var r := ElseAt(toks, i, scope);
    if r.Ok? {
      assert r.value.1[0] == r.value.1[..|scope| - 1][0];
    }
  }

  lemma CloseKeepsProgram(toks: seq<Token>, i: int, scope: seq<Parsed>)
    requires Ready(toks, i, scope) && toks[i].tokenType == CurlyBracketClose
    ensures KeepsProgram(scope, CloseAt(toks, i, scope))
  {
    if toks[i + 1].tokenType != Else && |scope| > 1 {
      PushKeepsProgram(scope[..|scope| - 1], scope[|scope| - 1]);
    }
  }

  /** A statement only appends to the program: what it held before stays
      at its front. */
  lemma StatementKeepsProgram(toks: seq<Token>, i: int, scope: seq<Parsed>)
    requires Ready(toks, i, scope)
    ensures var r := Statement(toks, i, scope);
            r.Ok? ==> scope[0].statements <= r.value.1[0].statements
  {
    hide Declaration;
    hide IfAt;
    hide ElseAt;
    hide IdentifierAt;
    hide CloseAt;
    var t := toks[i];
    if t.tokenType == Identifier && t.value in TypeNames {
      DeclarationKeepsProgram(toks, i, scope);
    } else if t.tokenType == If {
      IfKeepsProgram(toks, i, scope);
    } else if t.tokenType == Else {
      ElseKeepsProgram(toks, i, scope);
    } else if t.tokenType == Identifier {
      IdentifierKeepsProgram(toks, i, scope);
    } else if t.tokenType == CurlyBracketClose {
      CloseKeepsProgram(toks, i, scope);
    }
  }

  /** Statements once in the program are in the parse result, in order and
      at its front. */
  lemma {:induction false} ProgramGrows(toks: seq<Token>, idx: int, scope: seq<Parsed>)
    requires EndsWithEof(toks) && -1 <= idx && ScopeValid(scope)
    ensures var r := ParseLoop(toks, idx, scope);
            r.Ok? ==> scope[0].statements <= r.value.statements
    decreases |toks| - idx
  {
    if idx + 1 < |toks| {
      var s := Statement(toks, idx + 1, scope);
      StatementKeepsProgram(toks, idx + 1, scope);
      if s.Ok? {
        ProgramGrows(toks, s.value.0, s.value.1);
      }
    }
  }

  /** Input that ends inside a block fails at the position of the block's
      last branch. */
  lemma {:induction false} EndInsideBlock(toks: seq<Token>, scope: seq<Parsed>)
    requires EndsWithEof(toks) && ScopeValid(scope) && |scope| > 1
    ensures var top := scope[|scope| - 1];
            var last := top.branches[|top.branches| - 1];
            ParseLoop(toks, |toks| - 1, scope) == Err(UnclosedBlock(last.pos.0, last.pos.1))
  {
  }

  // ---------------------------------------------------------------------
  // Examples

  /** The tokens of `if true { out(1); } else { int y <- 2; }`. */
  const IfElseTokens: seq<Token> :=
    [NewToken(If, ""), NewToken(Boolean, "true"), NewToken(CurlyBracketOpen, ""),
     NewToken(Identifier, "out"), NewToken(ParenthesisOpen, ""), NewToken(Integer, "1"),
     NewToken(ParenthesisClose, ""), NewToken(EndLine, ""), NewToken(CurlyBracketClose, ""),
     NewToken(Else, ""), NewToken(CurlyBracketOpen, ""),
     NewToken(Identifier, "int"), NewToken(Identifier, "y"), NewToken(AssignmentArrow, ""),
     NewToken(Integer, "2"), NewToken(EndLine, ""), NewToken(CurlyBracketClose, ""),
     NewToken(EndOfFile, "")]

  const TrueToken := NewToken(Boolean, "true")
  const OutCall := FuncCall(NewToken(Identifier, "out"), [NewToken(Integer, "1")])
  const DeclareY := VariableAssignment(NewToken(Identifier, "y"), Int, [NewToken(Integer, "2")])

  lemma IfElseOpens()
    ensures Statement(IfElseTokens, 0, [Program([])])
            == Ok((2, [Program([]), Conditions([Branch([], [TrueToken], (0, 0))])]))
  {
    hide Statement;
    var toks := IfElseTokens;
    IfOpensBlock(toks, 0, 2, [Program([])]);
    assert toks[1..2] == [TrueToken];
    assert (toks[0].x, toks[0].y) == (0, 0);
    assert [Program([])] + [Conditions([Branch([], [TrueToken], (0, 0))])]
           == [Program([]), Conditions([Branch([], [TrueToken], (0, 0))])];
  }

  lemma IfElseCallShape(toks: seq<Token>)
    requires toks == IfElseTokens
    ensures EndsWithEof(toks) && |toks| == 18
    ensures toks[3].tokenType == Identifier && toks[3].value !in TypeNames && toks[4].tokenType == ParenthesisOpen
    ensures toks[6].tokenType == ParenthesisClose && toks[7].tokenType == EndLine && ArgumentToken(toks[5])
    ensures FuncCall(toks[3], toks[5..6]) == OutCall
  {
    assert toks[3].value == "out";
    assert toks[5..6] == [NewToken(Integer, "1")];
  }

  lemma IfElseCallPush()
    ensures PushTop([Program([]), Conditions([Branch([], [TrueToken], (0, 0))])], OutCall)
            == [Program([]), Conditions([Branch([OutCall], [TrueToken], (0, 0))])]
  {
    var s1 := [Program([]), Conditions([Branch([], [TrueToken], (0, 0))])];
    var p := PushTop(s1, OutCall);
    var b := PushInto(s1[1], OutCall).branches;
    assert |b| == 1 && b[0].body == [] + [OutCall] == [OutCall];
    assert b == [Branch([OutCall], [TrueToken], (0, 0))];
    assert p == [p[0], p[1]] && p[0] == s1[0];
  }

  lemma IfElseCalls(toks: seq<Token>)
    requires toks == IfElseTokens
    ensures Statement(toks, 3, [Program([]), Conditions([Branch([], [TrueToken], (0, 0))])])
            == Ok((7, [Program([]), Conditions([Branch([OutCall], [TrueToken], (0, 0))])]))
  {
    hide Statement;
    var s1 := [Program([]), Conditions([Branch([], [TrueToken], (0, 0))])];
    IfElseCallShape(toks);
    CallAppends(toks, 3, 6, s1);
    IfElseCallPush();
  }

  lemma IfElseAddsBranch()
    ensures var s2 := [Program([]), Conditions([Branch([OutCall], [TrueToken], (0, 0))])];
            Statement(IfElseTokens, 8, s2) == Ok((8, s2))
            && Statement(IfElseTokens, 9, s2)
               == Ok((10, [Program([]), Conditions([Branch([OutCall], [TrueToken], (0, 0)), Branch([], [TrueToken], (0, 0))])]))
  {
    hide Statement;
    var s2 := [Program([]), Conditions([Branch([OutCall], [TrueToken], (0, 0))])];
    CloseBrace(IfElseTokens, 8, s2);
    ElseIsAlwaysTrue(IfElseTokens, 9, s2);
    var r := Statement(IfElseTokens, 9, s2).value.1;
    assert r == [r[0], r[1]] && r[0] == s2[0];
    assert IsBlock(r[1]) && r[1] == Conditions(r[1].branches);
    assert r[1].branches == [Branch([OutCall], [TrueToken], (0, 0)), Branch([], [TrueToken], (0, 0))];
  }

  lemma IfElseDeclares()
    ensures Statement(IfElseTokens, 11, [Program([]), Conditions([Branch([OutCall], [TrueToken], (0, 0)), Branch([], [TrueToken], (0, 0))])])
            == Ok((15, [Program([]), Conditions([Branch([OutCall], [TrueToken], (0, 0)), Branch([DeclareY], [TrueToken], (0, 0))])]))
  {
    hide Statement;
    var toks := IfElseTokens;
    var s3 := [Program([]), Conditions([Branch([OutCall], [TrueToken], (0, 0)), Branch([], [TrueToken], (0, 0))])];
    assert toks[11].value in TypeNames;
    DeclarationAppends(toks, 11, 15, s3);
    assert toks[14..15] == [NewToken(Integer, "2")];
    assert StrToTypes(toks[11].value) == Some(Int);
    var b := PushInto(s3[1], DeclareY).branches;
    assert |b| == 2 && b[1].body == [] + [DeclareY] == [DeclareY] && b[..1] == s3[1].branches[..1];
    assert b == [b[0], b[1]];
    var p := PushTop(s3, DeclareY);
    assert p == [p[0], p[1]] && p[0] == s3[0];
  }

  lemma IfElseCloses()
    ensures var s4 := [Program([]), Conditions([Branch([OutCall], [TrueToken], (0, 0)), Branch([DeclareY], [TrueToken], (0, 0))])];
            Statement(IfElseTokens, 16, s4) == Ok((16, [Program([s4[1]])]))
  {
    hide Statement;
    var s4 := [Program([]), Conditions([Branch([OutCall], [TrueToken], (0, 0)), Branch([DeclareY], [TrueToken], (0, 0))])];
    CloseBrace(IfElseTokens, 16, s4);
    assert PushInto(s4[0], s4[1]) == Program([s4[1]]);
    assert s4[..0] + [Program([s4[1]])] == [Program([s4[1]])];
  }

  /** `if true { out(1); } else { int y <- 2; }` parses to one chain of two
      branches, the second with the condition `true`. */
  lemma IfElseProgram()
    ensures ParseLoop(IfElseTokens, -1, [Program([])])
            == Ok(Program([Conditions([Branch([OutCall], [TrueToken], (0, 0)), Branch([DeclareY], [TrueToken], (0, 0))])]))
  {
    var toks := IfElseTokens;
    var s1 := [Program([]), Conditions([Branch([], [TrueToken], (0, 0))])];
    var s2 := [Program([]), Conditions([Branch([OutCall], [TrueToken], (0, 0))])];
    var s3 := [Program([]), Conditions([Branch([OutCall], [TrueToken], (0, 0)), Branch([], [TrueToken], (0, 0))])];
    var s4 := [Program([]), Conditions([Branch([OutCall], [TrueToken], (0, 0)), Branch([DeclareY], [TrueToken], (0, 0))])];
    var s5 := [Program([s4[1]])];
    assert Statement(toks, 17, s5) == Ok((17, s5)) by {
      hide Declaration;
      hide IfAt;
      hide ElseAt;
      hide IdentifierAt;
      hide CloseAt;
    }
    hide Statement;
    assert ParseLoop(toks, 16, s5) == Ok(s5[0]);
    assert ParseLoop(toks, 15, s4) == Ok(s5[0]) by {
      IfElseCloses();
    }
    assert ParseLoop(toks, 10, s3) == Ok(s5[0]) by {
      IfElseDeclares();
    }
    assert ParseLoop(toks, 7, s2) == Ok(s5[0]) by {
      IfElseAddsBranch();
      assert ParseLoop(toks, 8, s2) == Ok(s5[0]);
    }
    assert ParseLoop(toks, 2, s1) == Ok(s5[0]) by {
      IfElseCalls(toks);
    }
    IfElseOpens();
  }

  lemma UnclosedIfOpens(x: nat, y: nat)
    ensures var toks := [Token(If, "", x, y), NewToken(Boolean, "true"), NewToken(CurlyBracketOpen, ""), NewToken(EndOfFile, "")];
            Statement(toks, 0, [Program([])]) == Ok((2, [Program([]), Conditions([Branch([], [NewToken(Boolean, "true")], (x, y))])]))
  {
    hide Statement;
    var toks := [Token(If, "", x, y), NewToken(Boolean, "true"), NewToken(CurlyBracketOpen, ""), NewToken(EndOfFile, "")];
    IfOpensBlock(toks, 0, 2, [Program([])]);
    assert toks[1..2] == [NewToken(Boolean, "true")];
    assert [Program([])] + [Conditions([Branch([], [NewToken(Boolean, "true")], (x, y))])]
           == [Program([]), Conditions([Branch([], [NewToken(Boolean, "true")], (x, y))])];
  }

  /** Input that ends inside an `if` fails at the `if`'s position. */
  lemma UnclosedIf(x: nat, y: nat)
    ensures var toks := [Token(If, "", x, y), NewToken(Boolean, "true"), NewToken(CurlyBracketOpen, ""), NewToken(EndOfFile, "")];
            ParseLoop(toks, -1, [Program([])]) == Err(UnclosedBlock(x, y))
  {
    var toks := [Token(If, "", x, y), NewToken(Boolean, "true"), NewToken(CurlyBracketOpen, ""), NewToken(EndOfFile, "")];
    var s1 := [Program([]), Conditions([Branch([], [NewToken(Boolean, "true")], (x, y))])];
    assert Statement(toks, 3, s1) == Ok((3, s1)) by {
      hide Declaration;
      hide IfAt;
      hide ElseAt;
      hide IdentifierAt;
      hide CloseAt;
    }
    hide Statement;
    UnclosedIfOpens(x, y);
    assert ParseLoop(toks, 3, s1) == Err(UnclosedBlock(x, y));
    assert ParseLoop(toks, 2, s1) == Err(UnclosedBlock(x, y));
  }

  // ---------------------------------------------------------------------
  // Finding: a `(` is refused in declared and reassigned expressions, where
  // `)` is allowed and the checker and evaluator both handle groups.

  /** As written: a declaration whose expression holds a `(` fails there. */
  lemma ParenthesisRejected(toks: seq<Token>, i: int, k: int, scope: seq<Parsed>)
    requires Ready(toks, i, scope) && toks[i].tokenType == Identifier && toks[i].value in TypeNames
    requires i + 2 < k < |toks| && toks[i + 1].tokenType == Identifier && toks[i + 2].tokenType == AssignmentArrow
    requires toks[k].tokenType == ParenthesisOpen && forall m :: i + 2 < m < k ==> AllowedInExpression(toks[m])
    ensures Statement(toks, i, scope) == Err(ExpectedValues(ParenthesisOpen))
  {
    assert !AllowedInExpression(toks[k]);
    hide Statement;
    hide ValuesFrom;
    hide PushTop;
    hide AllowedInExpression;
    StatementDispatch(toks, i, scope);
    ValuesStopAt(toks, i + 2, k, []);
  }

  /** The tokens of `int x <- (1);`. */
  const GroupedTokens: seq<Token> :=
    [NewToken(Identifier, "int"), NewToken(Identifier, "x"), NewToken(AssignmentArrow, ""),
     NewToken(ParenthesisOpen, ""), NewToken(Integer, "1"), NewToken(ParenthesisClose, ""),
     NewToken(EndLine, ""), NewToken(EndOfFile, "")]

  /** As written: `int x <- (1);` does not parse. */
  lemma GroupedDeclarationFails(toks: seq<Token>)
    requires toks == GroupedTokens
    ensures ParseLoop(toks, -1, [Program([])]) == Err(ExpectedValues(ParenthesisOpen))
  {
    ParenthesisRejected(toks, 0, 3, [Program([])]);
  }

  /** The expression tokens with `(` added, as the other stages expect. */
  predicate AllowedInExpressionFixed(t: Token) {
    AllowedInExpression(t) || t.tokenType == ParenthesisOpen
  }

  /** The expression loop with the corrected token set. */
  function ValuesFromFixed(toks: seq<Token>, i: int, acc: seq<Token>): (r: Result<(seq<Token>, int), ParseError>)
    requires EndsWithEof(toks) && 0 <= i < |toks| - 1
    decreases |toks| - i
    ensures r.Ok? ==> i < r.value.1 < |toks| && toks[r.value.1].tokenType == EndLine
                      && r.value.0 == acc + toks[i + 1..r.value.1]
                      && forall k :: i < k < r.value.1 ==> AllowedInExpressionFixed(toks[k])
  {
    var t := toks[i + 1];
    if t.tokenType == EndLine then Ok((acc, i + 1))
    else if t.tokenType == EndOfFile then Err(ExpectedEndLine(EndOfFile))
    else if AllowedInExpressionFixed(t) then ValuesFromFixed(toks, i + 1, acc + [t])
    else Err(ExpectedValues(t.tokenType))
  }

  /** Corrected: every expression the source accepts is read the same way,
      and any run of allowed tokens or `(` up to the `;` is accepted. */
  lemma {:induction false} FixedValuesExtend(toks: seq<Token>, i: int, acc: seq<Token>)
    requires EndsWithEof(toks) && 0 <= i < |toks| - 1
    ensures ValuesFrom(toks, i, acc).Ok? ==> ValuesFromFixed(toks, i, acc) == ValuesFrom(toks, i, acc)
    decreases |toks| - i
  {
    var t := toks[i + 1];
    if t.tokenType != EndLine && t.tokenType != EndOfFile && AllowedInExpression(t) {
      FixedValuesExtend(toks, i + 1, acc + [t]);
    }
  }

  lemma {:induction false} FixedValuesUpTo(toks: seq<Token>, i: int, e: int, acc: seq<Token>)
    requires EndsWithEof(toks) && 0 <= i < e < |toks| && toks[e].tokenType == EndLine
    requires forall k :: i < k < e ==> AllowedInExpressionFixed(toks[k])
    ensures ValuesFromFixed(toks, i, acc) == Ok((acc + toks[i + 1..e], e))
    decreases e - i
  {
    var t := toks[i + 1];
    if e > i + 1 {
      assert t.tokenType != EndLine && t.tokenType != EndOfFile && AllowedInExpressionFixed(t);
      hide AllowedInExpressionFixed;
      assert ValuesFromFixed(toks, i, acc) == ValuesFromFixed(toks, i + 1, acc + [t]);
      FixedValuesUpTo(toks, i + 1, e, acc + [t]);
      assert acc + [t] + toks[i + 2..e] == acc + toks[i + 1..e];
    } else {
      assert ValuesFromFixed(toks, i, acc) == Ok((acc, i + 1));
    }
  }

  /** A declaration read with the corrected expression loop. */
  function DeclarationFixed(toks: seq<Token>, i: int, scope: seq<Parsed>): (r: Outcome)
    requires Ready(toks, i, scope) && toks[i].tokenType == Identifier && toks[i].value in TypeNames
    ensures r.Ok? ==> ScopeValid(r.value.1) && i < r.value.0 < |toks| && toks[r.value.0].tokenType == EndLine
  {
    var varType := StrToTypes(toks[i].value).value;
    var name := toks[i + 1];
    if name.tokenType != Identifier then Err(ExpectedName(name.tokenType))
    else if toks[i + 2].tokenType != AssignmentArrow then Err(ExpectedArrow(toks[i + 2].tokenType))
    else
      var v :- ValuesFromFixed(toks, i + 2, []);
      Ok((v.1, PushTop(scope, VariableAssignment(name, varType, v.0))))
  }

  /** Corrected: every declaration the source accepts reads the same. */
  lemma FixedDeclarationExtends(toks: seq<Token>, i: int, scope: seq<Parsed>)
    requires Ready(toks, i, scope) && toks[i].tokenType == Identifier && toks[i].value in TypeNames
    ensures Declaration(toks, i, scope).Ok? ==> DeclarationFixed(toks, i, scope) == Declaration(toks, i, scope)
  {
    if toks[i + 1].tokenType == Identifier && toks[i + 2].tokenType == AssignmentArrow {
      FixedValuesExtend(toks, i + 2, []);
    }
  }

  /** Corrected: a declaration whose expression holds `(` tokens appends
      its `VariableAssignment` like any other. */
  lemma FixedDeclarationAppends(toks: seq<Token>, i: int, e: int, scope: seq<Parsed>)
    requires Ready(toks, i, scope) && toks[i].tokenType == Identifier && toks[i].value in TypeNames
    requires i + 2 < e < |toks| && toks[i + 1].tokenType == Identifier && toks[i + 2].tokenType == AssignmentArrow
    requires toks[e].tokenType == EndLine && forall k :: i + 2 < k < e ==> AllowedInExpressionFixed(toks[k])
    ensures DeclarationFixed(toks, i, scope)
            == Ok((e, PushTop(scope, VariableAssignment(toks[i + 1], StrToTypes(toks[i].value).value, toks[i + 3..e]))))
  {
    FixedValuesUpTo(toks, i + 2, e, []);
    assert [] + toks[i + 3..e] == toks[i + 3..e];
  }

  lemma GroupedShape(toks: seq<Token>)
    requires toks == GroupedTokens
    ensures EndsWithEof(toks) && |toks| == 8
    ensures toks[0].tokenType == Identifier && toks[0].value in TypeNames
    ensures toks[1].tokenType == Identifier && toks[2].tokenType == AssignmentArrow && toks[6].tokenType == EndLine
    ensures forall k :: 2 < k < 6 ==> AllowedInExpressionFixed(toks[k])
  {
    assert toks[0].value == "int";
  }

  lemma GroupedDeclares(toks: seq<Token>)
    requires toks == GroupedTokens
    ensures DeclarationFixed(toks, 0, [Program([])])
            == Ok((6, PushTop([Program([])], VariableAssignment(toks[1], StrToTypes(toks[0].value).value, toks[3..6]))))
  {
    hide DeclarationFixed;
    GroupedShape(toks);
    FixedDeclarationAppends(toks, 0, 6, [Program([])]);
  }

  /** Corrected: `int x <- (1);` declares `x` with the tokens `( 1 )`. */
  lemma GroupedDeclarationFixed(toks: seq<Token>)
    requires toks == GroupedTokens
    ensures DeclarationFixed(toks, 0, [Program([])])
            == Ok((6, [Program([VariableAssignment(toks[1], Int, toks[3..6])])]))
  {
    hide DeclarationFixed;
    GroupedDeclares(toks);
    var d := VariableAssignment(toks[1], Int, toks[3..6]);
    assert StrToTypes(toks[0].value).value == Int;
    var p := PushTop([Program([])], d);
    assert p == [p[0]] && [] + [d] == [d];
  }
}
