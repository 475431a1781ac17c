/** The SL source lexer (src/lexer.rs): a per-character state machine that
    turns source text into positioned tokens and always ends the list with an
    `EndOfFile` token.

    The class `Lexer` keeps the source's mutable fields and runs its
    flag-driven loop; `Scanning` is the same machine written as a function
    over a `Scan` snapshot, and `Lexer.Lex` is proved to return exactly what
    `Scanning` gives. The lemmas at the end state what the machine produces. */
module Lexer {
  import opened Common

  datatype TokenType =
    | String | Integer | Character | FloatingPoint | Boolean
    | Identifier
    | MathOperation | VariableMathOperation | AssignmentOperator | DirectMemberSelection | ComparisonOperation
    | Import | Return | Fun | And | If | Else | Or
    | EndLine | EndOfFile | AssignmentArrow | BracketOpen | BracketClose
    | CurlyBracketOpen | CurlyBracketClose | ParenthesisOpen | ParenthesisClose | SeperatorComma
    | NullForParser

  /** A token: its kind, its text and the column/line where it starts. */
  datatype Token = Token(tokenType: TokenType, value: string, x: nat, y: nat) {
    predicate IsString() { tokenType == String }
    predicate IsInteger() { tokenType == Integer }
    predicate IsFloat() { tokenType == FloatingPoint }
    predicate IsBool() { tokenType == Boolean }
    predicate IsDataType() { IsFloat() || IsBool() || IsString() || IsInteger() }

    /** The token's text as it would be written in source: strings get their
        double quotes back, every other kind is its value unchanged. */
    function TrueValue(): (r: string)
      ensures IsString() ==> r == ['"'] + value + ['"']
      ensures !IsString() ==> r == value
    {
      if IsString() then "\"" + value + "\"" else value
    }
  }

  /** `Token::new`: a token not yet placed, at column 0 of line 0. */
  function NewToken(tokenType: TokenType, value: string): Token {
    Token(tokenType, value, 0, 0)
  }

  datatype LexError =
    | BufferInUse             // a token starts while another is still being read
    | UnclosedString          // newline or end of input inside a string
    | UseAssignmentArrow      // a lone `=`
    | UnexpectedChar(c: char) // `!` not followed by `=`
    | NotAdded(c: char)       // a character no rule accepts
    | OutOfBounds             // a lookahead past the end of the text
    | Internal                // a number that is neither integer nor float

  /** Kind and value of a finished word inside the text (lexer.rs:309-320). */
  function WordToken(word: string): (TokenType, string) {
    if word == "and" then (And, "")
    else if word == "or" then (Or, "")
    else if word == "import" then (Import, "")
    else if word == "return" then (Return, "")
    else if word == "if" then (If, "")
    else if word == "else" then (Else, "")
    else if word == "fun" then (Fun, "")
    else if word == "true" then (Boolean, "true")
    else if word == "false" then (Boolean, "false")
    else (Identifier, word)
  }

  /** Kind and value of a word that runs to the end of the text
      (lexer.rs:436-446): the same table without `else`. */
  function FinalWordToken(word: string): (TokenType, string) {
    if word == "else" then (Identifier, word) else WordToken(word)
  }

  /** What a character outside any string, comment, number or word does. */
  datatype Symbol =
    | Emit(kind: TokenType, value: string, pair: bool)  // `pair`: the next character belongs to it
    | StartComment
    | Blank

  /** The operator table of lexer.rs:327-424. `next` is the following
      character; `None` stands for reading past the end, which panics. */
  function SymbolFor(c: char, next: Option<char>): (r: Result<Symbol, LexError>)
    ensures r.Ok? && r.value.Emit? ==> r.value.kind != EndOfFile
  {
    if c == '=' then
      if next.None? then Err(OutOfBounds)
      else if next.value == '=' then Ok(Emit(ComparisonOperation, "==", true))
      else Err(UseAssignmentArrow)
    else if c == '!' then
      if next.None? then Err(OutOfBounds)
      else if next.value == '=' then Ok(Emit(ComparisonOperation, "!=", true))
      else Err(UnexpectedChar(c))
    else if c == '%' then Ok(Emit(MathOperation, "%", false))
    else if c == '+' then Ok(Emit(MathOperation, "+", false))
    else if c == '-' then Ok(Emit(MathOperation, "-", false))
    else if c == '/' then
      if next.None? then Err(OutOfBounds)
      else if next.value == '/' then Ok(StartComment)
      else Ok(Emit(MathOperation, "/", false))
    else if c == '*' then Ok(Emit(MathOperation, "*", false))
    else if c == ';' then Ok(Emit(EndLine, "", false))
    else if c == '.' then Ok(Emit(DirectMemberSelection, "", false))
    else if c == '(' then Ok(Emit(ParenthesisOpen, "", false))
    else if c == ')' then Ok(Emit(ParenthesisClose, "", false))
    else if c == ',' then Ok(Emit(SeperatorComma, "", false))
    else if c == '>' then
      if next.None? then Err(OutOfBounds)
      else if next.value == '=' then Ok(Emit(ComparisonOperation, ">=", true))
      else Ok(Emit(ComparisonOperation, ">", false))
    else if c == '<' then
      if next.None? then Err(OutOfBounds)
      else if next.value == '=' then Ok(Emit(ComparisonOperation, "<=", true))
      else if next.value == '-' then Ok(Emit(AssignmentArrow, "", true))
      else Ok(Emit(ComparisonOperation, "<", false))
    else if c == '{' then Ok(Emit(CurlyBracketOpen, "", false))
    else if c == '}' then Ok(Emit(CurlyBracketClose, "", false))
    else if c == '[' then Ok(Emit(BracketOpen, "", false))
    else if c == ']' then Ok(Emit(BracketClose, "", false))
    else if c == ' ' || c == '\n' || c == '\t' then Ok(Blank)
    else Err(NotAdded(c))
  }

  /** The local flags of `lex` and its `unknown_length` buffer. */
  datatype Flags = Flags(buf: string, used: bool, strOn: bool, commentOn: bool,
                         idOn: bool, numOn: bool, isInt: bool, isFloat: bool)

  const Idle := Flags("", false, false, false, false, false, false, false)

  /** Everything `lex` changes: the lexer's fields and the local flags. */
  datatype Scan = Scan(index: int, x: nat, y: nat, sx: nat, sy: nat, tokens: seq<Token>, f: Flags)

  /** `add_base`: append a token placed at the current token start. */
  function Add(s: Scan, kind: TokenType, value: string): Scan {
    s.(tokens := s.tokens + [Token(kind, value, s.sx, s.sy)])
  }

  /** `next_char` when a character is left. */
  function NextOf(text: string, s: Scan): Scan
    requires 0 <= s.index + 1 < |text|
  {
    var p := Advance(s.x, s.y, text[s.index + 1]);
    s.(index := s.index + 1, x := p.0, y := p.1)
  }

  /** Emits the pending number (lexer.rs:266-279 and 295-307). */
  function FlushNumber(s: Scan): Result<Scan, LexError> {
    if s.f.isInt then
      Ok(Add(s, Integer, s.f.buf).(f := s.f.(isInt := false, numOn := false, used := false, buf := "")))
    else if s.f.isFloat then
      Ok(Add(s, FloatingPoint, s.f.buf).(f := s.f.(isFloat := false, numOn := false, used := false, buf := "")))
    else Err(Internal)
  }

  /** Emits the pending word (lexer.rs:308-324). */
  function FlushWord(s: Scan): Scan {
    var w := WordToken(s.f.buf);
    Add(s, w.0, w.1).(f := s.f.(idOn := false, used := false, buf := ""))
  }

  /** A `"` outside a comment (lexer.rs:213-228): closes the open string,
      or opens one when no other token is being read. */
  function QuoteStep(s: Scan): (r: Result<Scan, LexError>)
    ensures r.Ok? ==> r.value.index == s.index
  {
    if s.f.strOn then Ok(Add(s, String, s.f.buf).(f := s.f.(strOn := false, used := false, buf := "")))
    else if s.f.used then Err(BufferInUse)
    else Ok(s.(sx := s.x, sy := s.y, f := s.f.(strOn := true, used := true)))
  }

  /** A character inside a string or a comment (lexer.rs:230-242). */
  function TextStep(c: char, s: Scan): (r: Result<Scan, LexError>)
    ensures r.Ok? ==> r.value.index == s.index
  {
    if c == '\n' then
      if s.f.strOn then Err(UnclosedString)
      else Ok(s.(f := s.f.(commentOn := false, used := false, buf := "")))
    else Ok(s.(f := s.f.(buf := s.f.buf + [c])))
  }

  /** A digit outside a word (lexer.rs:244-257). */
  function DigitStep(c: char, s: Scan): (r: Result<Scan, LexError>)
    ensures r.Ok? ==> r.value.index == s.index
  {
    if s.f.numOn then Ok(s.(f := s.f.(buf := s.f.buf + [c])))
    else if s.f.used then Err(BufferInUse)
    else Ok(s.(sx := s.x, sy := s.y, f := s.f.(buf := s.f.buf + [c], numOn := true, isInt := true, used := true)))
  }

  /** A letter, `_` or a digit inside a word (lexer.rs:264-292): a pending
      number is emitted first. */
  function WordStep(c: char, s: Scan): (r: Result<Scan, LexError>)
    ensures r.Ok? ==> r.value.index == s.index
  {
    var s1 :- if s.f.numOn then FlushNumber(s) else Ok(s);
    if s1.f.idOn then Ok(s1.(f := s1.f.(buf := s1.f.buf + [c])))
    else if s1.f.used then Err(BufferInUse)
    else Ok(s1.(sx := s1.x, sy := s1.y, f := s1.f.(buf := s1.f.buf + [c], idOn := true, used := true)))
  }

  /** Any other character (lexer.rs:293-424): the pending number or word is
      emitted, then the operator table decides. A two-character operator
      also consumes the next character. */
  function SymbolStep(text: string, s: Scan): (r: Result<Scan, LexError>)
    requires 0 <= s.index < |text|
    ensures r.Ok? ==> s.index <= r.value.index < |text|
  {
    var s1 :- if s.f.numOn then FlushNumber(s) else if s.f.idOn then Ok(FlushWord(s)) else Ok(s);
    var s2 := s1.(sx := s1.x, sy := s1.y);
    var sym :- SymbolFor(text[s.index], Lookahead(text, s.index));
    match sym
    case Emit(kind, value, pair) =>
      var s3 := Add(s2, kind, value);
      if pair then Ok(NextOf(text, s3)) else Ok(s3)
    case StartComment =>
      if s2.f.used then Err(BufferInUse)
      else Ok(s2.(f := s2.f.(commentOn := true, used := true)))
    case Blank => Ok(s2)
  }

  /** One pass of the `while self.run` loop body (lexer.rs:213-425), for the
      character at `s.index`, which `next_char` has just read. */
  function Step(text: string, s: Scan): (r: Result<Scan, LexError>)
    requires 0 <= s.index < |text|
    ensures r.Ok? ==> s.index <= r.value.index < |text|
  {
    var c := text[s.index];
    if c == '"' && !s.f.commentOn then QuoteStep(s)
    else if s.f.strOn || s.f.commentOn then TextStep(c, s)
    else if IsDigit(c) && !s.f.idOn then DigitStep(c, s)
    else if c == '.' && s.f.numOn && NextNonSpace(text, s.index + 1).None? then Err(OutOfBounds)
    else if c == '.' && s.f.numOn && IsDigit(NextNonSpace(text, s.index + 1).value) then
      Ok(s.(f := s.f.(isInt := false, isFloat := true, buf := s.f.buf + ".")))
    else if IsIdChar(c) then WordStep(c, s)
    else SymbolStep(text, s)
  }

  /** What `lex` does once `next_char` finds no character left
      (lexer.rs:427-451): flush, then append `EndOfFile`. */
  function Finish(s: Scan): Result<seq<Token>, LexError> {
    var s1 :-
      if s.f.numOn then
        (if s.f.isInt then Ok(Add(s, Integer, s.f.buf))
         else if s.f.isFloat then Ok(Add(s, FloatingPoint, s.f.buf))
         else Err(Internal))
      else if s.f.idOn then
        var w := FinalWordToken(s.f.buf); Ok(Add(s, w.0, w.1))
      else if s.f.strOn then Err(UnclosedString)
      else Ok(s);
    Ok(Add(s1, EndOfFile, "").tokens)
  }

  /** The `while self.run` loop, run from snapshot `s` to the end of `text`. */
  function Scanning(text: string, s: Scan): Result<seq<Token>, LexError>
    decreases |text| - s.index
  {
    if s.index + 1 >= |text| || s.index + 1 < 0 then Finish(s)
    else
      match Step(text, NextOf(text, s))
      case Err(e) => Err(e)
      case Ok(s') => Scanning(text, s')
  }

  /** `lex` from snapshot `s`: a lexer whose `run` is already off skips the loop. */
  function Lexing(text: string, run: bool, s: Scan): Result<seq<Token>, LexError> {
    if run then Scanning(text, s) else Finish(s)
  }

  /** The snapshot of a fresh `Lexer::new()`. */
  const Start := Scan(-1, 0, 1, 0, 0, [], Idle)

  /** `Lexer::new().lex_text(text)`. */
  function LexString(text: string): Result<seq<Token>, LexError> {
    Scanning(text, Start)
  }

  class Lexer {
    var text: string
    var index: int
    var run: bool
    var currentChar: char
    var x: nat
    var y: nat
    var tokStartX: nat
    var tokStartY: nat
    var currentTokens: seq<Token>

    ghost predicate Valid() reads this { index >= -1 }

    /** The snapshot of this lexer with the given local flags. */
    ghost function At(f: Flags): Scan reads this {
      Scan(index, x, y, tokStartX, tokStartY, currentTokens, f)
    }

    constructor ()
      ensures Valid() && text == [] && run && currentChar == ' '
      ensures At(Idle) == Start
    {
      text := [];
      index := -1;
      run := true;
      currentChar := ' ';
      x, y := 0, 1;
      tokStartX, tokStartY := 0, 0;
      currentTokens := [];
    }

    method PosStarter()
      modifies this`tokStartX, this`tokStartY
      ensures tokStartX == x && tokStartY == y
    {
      tokStartX := x;
      tokStartY := y;
    }

    /** Reads the next character, moving the position; `false` at the end. */
    method NextChar() returns (more: bool)
      requires Valid()
      modifies this`index, this`currentChar, this`x, this`y
      ensures Valid() && index == old(index) + 1
      ensures more <==> index < |text|
      ensures more ==> currentChar == text[index] && (x, y) == Advance(old(x), old(y), text[index])
      ensures !more ==> x == old(x) && y == old(y)
    {
      index := index + 1;
      if index >= |text| {
        more := false;
      } else {
        currentChar := text[index];
        if currentChar == '\n' {
          y := y + 1;
          x := 0;
        } else {
          x := x + 1;
        }
        more := true;
      }
    }

    /** Skips spaces after the current character and returns the first other one. */
    method GetNextCharIgnoreSpace() returns (r: Option<char>)
      requires Valid()
      ensures r == NextNonSpace(text, index + 1)
    {
      var ind := index + 1;
      while ind < |text| && text[ind] == ' '
        invariant index + 1 <= ind && (ind <= |text| || ind == index + 1)
        invariant NextNonSpace(text, ind) == NextNonSpace(text, index + 1)
        decreases |text| - ind
      {
        ind := ind + 1;
      }
      r := if ind < |text| then Some(text[ind]) else None;
    }

    method AddBase(kind: TokenType, value: string)
      modifies this`currentTokens
      ensures currentTokens == old(currentTokens) + [Token(kind, value, tokStartX, tokStartY)]
    {
      currentTokens := currentTokens + [Token(kind, value, tokStartX, tokStartY)];
    }

    /** The result of a character handler, seen as a whole snapshot. */
    ghost function Into(r: Result<Flags, LexError>): Result<Scan, LexError> reads this {
      match r
      case Ok(g) => Ok(At(g))
      case Err(e) => Err(e)
    }

    /** Emits the pending number. */
    method EmitNumber(f: Flags) returns (r: Result<Flags, LexError>)
      modifies this`currentTokens
      ensures Into(r) == FlushNumber(old(At(f)))
    {
      if f.isInt {
        AddBase(Integer, f.buf);
        r := Ok(f.(isInt := false, numOn := false, used := false, buf := ""));
      } else if f.isFloat {
        AddBase(FloatingPoint, f.buf);
        r := Ok(f.(isFloat := false, numOn := false, used := false, buf := ""));
      } else {
        r := Err(Internal);
      }
    }

    method OnQuote(f: Flags) returns (r: Result<Flags, LexError>)
      modifies this`tokStartX, this`tokStartY, this`currentTokens
      ensures Into(r) == QuoteStep(old(At(f)))
    {
      if f.strOn {
        AddBase(String, f.buf);
        r := Ok(f.(strOn := false, used := false, buf := ""));
      } else {
        PosStarter();
        if f.used {
          return Err(BufferInUse);
        }
        r := Ok(f.(strOn := true, used := true));
      }
    }

    method OnDigit(c: char, f: Flags) returns (r: Result<Flags, LexError>)
      modifies this`tokStartX, this`tokStartY
      ensures Into(r) == DigitStep(c, old(At(f)))
    {
      if f.numOn {
        r := Ok(f.(buf := f.buf + [c]));
      } else {
        PosStarter();
        if f.used {
          return Err(BufferInUse);
        }
        r := Ok(f.(buf := f.buf + [c], numOn := true, isInt := true, used := true));
      }
    }

    method OnWordChar(c: char, f: Flags) returns (r: Result<Flags, LexError>)
      modifies this`tokStartX, this`tokStartY, this`currentTokens
      ensures Into(r) == WordStep(c, old(At(f)))
    {
      var g := f;
      if f.numOn {
        var flushed := EmitNumber(f);
        if flushed.Err? {
          return flushed;
        }
        g := flushed.value;
      }
      if g.idOn {
        r := Ok(g.(buf := g.buf + [c]));
      } else {
        PosStarter();
        if g.used {
          return Err(BufferInUse);
        }
        r := Ok(g.(buf := g.buf + [c], idOn := true, used := true));
      }
    }

    method OnSymbol(c: char, f: Flags) returns (r: Result<Flags, LexError>)
      requires Valid() && 0 <= index < |text| && c == text[index]
      modifies this`index, this`currentChar, this`x, this`y, this`tokStartX, this`tokStartY, this`currentTokens
      ensures Valid() && Into(r) == SymbolStep(text, old(At(f)))
    {
      hide SymbolFor;
      hide FlushNumber;
      var g := f;
      if f.numOn {
        var flushed := EmitNumber(f);
        if flushed.Err? {
          return flushed;
        }
        g := flushed.value;
      } else if f.idOn {
        var w := WordToken(f.buf);
        AddBase(w.0, w.1);
        g := f.(idOn := false, used := false, buf := "");
      }
      PosStarter();
      var sym := SymbolFor(c, Lookahead(text, index));
      if sym.Err? {
        return Err(sym.error);
      }
      match sym.value
      case Emit(kind, value, pair) =>
        AddBase(kind, value);
        if pair {
          var _ := NextChar();
        }
        r := Ok(g);
      case StartComment =>
        PosStarter();
        if g.used {
          return Err(BufferInUse);
        }
        r := Ok(g.(commentOn := true, used := true));
      case Blank =>
        r := Ok(g);
    }

    /** The loop body of lexer.rs:213-425 for the character just read. */
    method OnChar(f: Flags) returns (r: Result<Flags, LexError>)
      requires Valid() && 0 <= index < |text| && currentChar == text[index]
      modifies this`index, this`currentChar, this`x, this`y, this`tokStartX, this`tokStartY, this`currentTokens
      ensures Valid() && Into(r) == Step(text, old(At(f)))
    {
      var c := currentChar;
      if c == '"' && !f.commentOn {
        r := OnQuote(f);
      } else if f.strOn || f.commentOn {
        if c == '\n' {
          if f.strOn {
            return Err(UnclosedString);
          }
          r := Ok(f.(commentOn := false, used := false, buf := ""));
        } else {
          r := Ok(f.(buf := f.buf + [c]));
        }
      } else if IsDigit(c) && !f.idOn {
        r := OnDigit(c, f);
      } else {
        var dotOfNumber := false;
        if c == '.' && f.numOn {
          var next := GetNextCharIgnoreSpace();
          if next.None? {
            return Err(OutOfBounds);
          }
          dotOfNumber := IsDigit(next.value);
        }
        if dotOfNumber {
          r := Ok(f.(isInt := false, isFloat := true, buf := f.buf + "."));
        } else if IsIdChar(c) {
          r := OnWordChar(c, f);
        } else {
          r := OnSymbol(c, f);
        }
      }
    }

    /** The main loop of lexer.rs:181-452. */
    method Lex() returns (r: Result<seq<Token>, LexError>)
      requires Valid()
      modifies this
      ensures r == Lexing(old(text), old(run), old(At(Idle)))
    {
      var f := Idle;
      ghost var start := At(Idle);
      while run
        invariant Valid() && text == old(text) && run == old(run)
        invariant !old(run) ==> At(f) == start
        invariant Scanning(text, At(f)) == Scanning(text, start)
        decreases |text| - index
      {
        ghost var before := At(f);
        var more := NextChar();
        if !more {
          run := false;
          break;
        }
        assert At(f) == NextOf(text, before);
        var res := OnChar(f);
        if res.Err? {
          return Err(res.error);
        }
        f := res.value;
      }
      if f.numOn {
        if f.isInt {
          AddBase(Integer, f.buf);
        } else if f.isFloat {
          AddBase(FloatingPoint, f.buf);
        } else {
          return Err(Internal);
        }
      } else if f.idOn {
        var w := FinalWordToken(f.buf);
        AddBase(w.0, w.1);
      } else if f.strOn {
        return Err(UnclosedString);
      }
      AddBase(EndOfFile, "");
      r := Ok(currentTokens);
    }

    /** `lex_text`: load the characters of `t`, then lex them. */
    method LexText(t: string) returns (r: Result<seq<Token>, LexError>)
      requires Valid()
      modifies this
      ensures r == Lexing(t, old(run), old(At(Idle)))
    {
      text := t;
      r := Lex();
    }
  }

  /** Lexing with a freshly made lexer gives `LexString`. */
  method LexFresh(t: string) returns (r: Result<seq<Token>, LexError>)
    ensures r == LexString(t)
  {
    var lexer := new Lexer();
    r := lexer.LexText(t);
  }

  // ---------------------------------------------------------------------
  // What the machine produces

  predicate NoEof(ts: seq<Token>) {
    forall i :: 0 <= i < |ts| ==> ts[i].tokenType != EndOfFile
  }

  /** A successful outcome keeps the tokens of `s` at its front and adds no `EndOfFile`. */
  predicate Appends(s: Scan, r: Result<Scan, LexError>) {
    r.Ok? ==> s.tokens <= r.value.tokens && NoEof(r.value.tokens)
  }

  lemma AddAppends(s: Scan, kind: TokenType, value: string)
    requires NoEof(s.tokens) && kind != EndOfFile
    ensures Appends(s, Ok(Add(s, kind, value)))
  {
    var ts := Add(s, kind, value).tokens;
    assert forall i :: 0 <= i < |ts| ==> ts[i] == if i < |s.tokens| then s.tokens[i] else Token(kind, value, s.sx, s.sy);
  }

  lemma FlushNumberAppends(s: Scan)
    requires NoEof(s.tokens)
    ensures Appends(s, FlushNumber(s))
  {
    AddAppends(s, Integer, s.f.buf);
    AddAppends(s, FloatingPoint, s.f.buf);
  }

  lemma FlushWordAppends(s: Scan)
    requires NoEof(s.tokens)
    ensures Appends(s, Ok(FlushWord(s)))
  {
    AddAppends(s, WordToken(s.f.buf).0, WordToken(s.f.buf).1);
  }

  lemma QuoteStepAppends(s: Scan)
    requires NoEof(s.tokens)
    ensures Appends(s, QuoteStep(s))
  {
    AddAppends(s, String, s.f.buf);
  }

  lemma WordStepAppends(c: char, s: Scan)
    requires NoEof(s.tokens)
    ensures Appends(s, WordStep(c, s))
  {
    FlushNumberAppends(s);
  }

  lemma SymbolStepAppends(text: string, s: Scan)
    requires 0 <= s.index < |text| && NoEof(s.tokens)
    ensures Appends(s, SymbolStep(text, s))
  {
    hide SymbolFor;
    hide FlushNumber;
    hide FlushWord;
    var s1r := if s.f.numOn then FlushNumber(s) else if s.f.idOn then Ok(FlushWord(s)) else Ok(s);
    FlushNumberAppends(s);
    FlushWordAppends(s);
    if s1r.Ok? {
      var s2 := s1r.value.(sx := s1r.value.x, sy := s1r.value.y);
      var sym := SymbolFor(text[s.index], Lookahead(text, s.index));
      if sym.Ok? && sym.value.Emit? {
        AddAppends(s2, sym.value.kind, sym.value.value);
      }
    }
  }

  /** A step only appends tokens, and never an `EndOfFile`. */
  lemma StepAppends(text: string, s: Scan)
    requires 0 <= s.index < |text| && NoEof(s.tokens)
    ensures var r := Step(text, s);
            r.Ok? ==> s.tokens <= r.value.tokens && NoEof(r.value.tokens)
  {
    hide QuoteStep;
    hide WordStep;
    hide SymbolStep;
    QuoteStepAppends(s);
    WordStepAppends(text[s.index], s);
    SymbolStepAppends(text, s);
  }

  /** `ts` ends with its only `EndOfFile`, and what comes before starts with `prefix`. */
  predicate EofLast(ts: seq<Token>, prefix: seq<Token>) {
    |ts| >= 1 && prefix <= ts[..|ts| - 1] && ts[|ts| - 1].tokenType == EndOfFile && NoEof(ts[..|ts| - 1])
  }

  lemma FinishEndsWithEof(s: Scan)
    requires NoEof(s.tokens)
    ensures Finish(s).Ok? ==> EofLast(Finish(s).value, s.tokens)
  {
    if Finish(s).Ok? {
      var ts := Finish(s).value;
      assert ts[..|ts| - 1] == s.tokens || ts[..|ts| - 1][..|s.tokens|] == s.tokens;
    }
  }

  /** From any snapshot without `EndOfFile`, a successful run keeps the
      tokens already found and ends with exactly one `EndOfFile`. */
  lemma {:induction false} ScanningEndsWithEof(text: string, s: Scan)
    requires NoEof(s.tokens)
    ensures Scanning(text, s).Ok? ==> EofLast(Scanning(text, s).value, s.tokens)
    decreases |text| - s.index
  {
    if s.index + 1 >= |text| || s.index + 1 < 0 {
      FinishEndsWithEof(s);
    } else {
      var n := NextOf(text, s);
      StepAppends(text, n);
      var st := Step(text, n);
      if st.Ok? {
        ScanningEndsWithEof(text, st.value);
      }
    }
  }

  /** lexer.rs:450: every successful lexing ends with one `EndOfFile`, and
      it is the only one. */
  lemma LexEndsWithEof(text: string)
    ensures var r := LexString(text);
            r.Ok? ==> |r.value| >= 1 && r.value[|r.value| - 1].tokenType == EndOfFile
                      && forall i :: 0 <= i < |r.value| - 1 ==> r.value[i].tokenType != EndOfFile
  {
    ScanningEndsWithEof(text, Start);
    var r := LexString(text);
    if r.Ok? {
      assert forall i :: 0 <= i < |r.value| - 1 ==> r.value[i] == r.value[..|r.value| - 1][i];
    }
  }

  /** The characters the token being read takes without being emitted:
      anything but a newline in a comment, anything but a newline or `"` in
      a string, digits in a number, identifier characters in a word. */
  predicate Absorbs(f: Flags, c: char) {
    if f.commentOn then c != '\n'
    else if f.strOn then c != '\n' && c != '"'
    else if f.numOn then IsDigit(c) && !f.idOn
    else f.idOn && IsIdChar(c)
  }

  /** One pass of the loop, seen from the whole run. */
  lemma ScanningStep(text: string, s: Scan, t: Scan)
    requires 0 <= s.index + 1 < |text| && Step(text, NextOf(text, s)) == Ok(t)
    ensures Scanning(text, s) == Scanning(text, t)
  {
    hide Step;
  }

  /** The end of the loop, seen from the whole run. */
  lemma ScanningEnd(text: string, s: Scan)
    requires s.index + 1 == |text|
    ensures Scanning(text, s) == Finish(s)
  {
  }

  /** A `;` after a word emits the word, then the `;` at its own position. */
  lemma SemicolonStep(text: string, s: Scan)
    requires 0 <= s.index < |text| && text[s.index] == ';'
    requires !s.f.strOn && !s.f.commentOn && !s.f.numOn && s.f.idOn
    ensures var s1 := FlushWord(s);
            Step(text, s) == Ok(Add(s1.(sx := s1.x, sy := s1.y), EndLine, ""))
  {
    hide QuoteStep;
    hide TextStep;
    hide DigitStep;
    hide WordStep;
    hide NextNonSpace;
    hide FlushWord;
    assert SymbolFor(';', Lookahead(text, s.index)) == Ok(Emit(EndLine, "", false));
  }

  /** One absorbed character extends the buffer and nothing else. */
  lemma AbsorbStep(text: string, s: Scan)
    requires 0 <= s.index < |text| && Absorbs(s.f, text[s.index])
    ensures Step(text, s) == Ok(s.(f := s.f.(buf := s.f.buf + [text[s.index]])))
  {
    hide SymbolStep;
    hide QuoteStep;
    hide NextNonSpace;
  }

  /** Reading a run of absorbed characters only extends the buffer and the column. */
  lemma {:induction false} AbsorbRun(text: string, s: Scan, j: int)
    requires -1 <= s.index < j <= |text|
    requires forall i :: s.index < i < j ==> Absorbs(s.f, text[i])
    ensures Scanning(text, s) == Scanning(text, s.(index := j - 1, x := s.x + (j - 1 - s.index),
                                                   f := s.f.(buf := s.f.buf + text[s.index + 1..j])))
    decreases j - s.index
  {
    hide Scanning;
    hide Step;
    if s.index + 1 < j {
      var c := text[s.index + 1];
      assert Absorbs(s.f, c) && c != '\n';
      var n := NextOf(text, s);
      assert n == s.(index := s.index + 1, x := s.x + 1);
      var s' := n.(f := s.f.(buf := s.f.buf + [c]));
      AbsorbStep(text, n);
      ScanningStep(text, s, s');
      AbsorbRun(text, s', j);
      assert s.f.buf + text[s.index + 1..j] == s'.f.buf + text[s'.index + 1..j];
    } else {
      assert s.f.buf + text[s.index + 1..j] == s.f.buf;
      assert s.(index := j - 1, x := s.x + (j - 1 - s.index), f := s.f.(buf := s.f.buf)) == s;
    }
  }

  /** Absorbing the rest of the text, then finishing. */
  lemma AbsorbToEnd(text: string, s: Scan, buf: string)
    requires -1 <= s.index < |text|
    requires forall i :: s.index < i < |text| ==> Absorbs(s.f, text[i])
    requires buf == s.f.buf + text[s.index + 1..]
    ensures Scanning(text, s) == Finish(s.(index := |text| - 1, x := s.x + (|text| - 1 - s.index), f := s.f.(buf := buf)))
  {
    AbsorbRun(text, s, |text|);
    assert text[s.index + 1..|text|] == text[s.index + 1..];
  }

  /** The outcome of `Finish` for each kind of pending token. */
  lemma FinishShape(s: Scan)
    ensures s.f.numOn && s.f.isInt ==>
      Finish(s) == Ok(s.tokens + [Token(Integer, s.f.buf, s.sx, s.sy), Token(EndOfFile, "", s.sx, s.sy)])
    ensures s.f.numOn && !s.f.isInt && s.f.isFloat ==>
      Finish(s) == Ok(s.tokens + [Token(FloatingPoint, s.f.buf, s.sx, s.sy), Token(EndOfFile, "", s.sx, s.sy)])
    ensures !s.f.numOn && s.f.idOn ==>
      Finish(s) == Ok(s.tokens + [Token(FinalWordToken(s.f.buf).0, FinalWordToken(s.f.buf).1, s.sx, s.sy),
                                  Token(EndOfFile, "", s.sx, s.sy)])
    ensures !s.f.numOn && !s.f.idOn && s.f.strOn ==> Finish(s) == Err(UnclosedString)
    ensures !s.f.numOn && !s.f.idOn && !s.f.strOn ==> Finish(s) == Ok(s.tokens + [Token(EndOfFile, "", s.sx, s.sy)])
  {
    var e := Token(EndOfFile, "", s.sx, s.sy);
    forall t: Token ensures s.tokens + [t] + [e] == s.tokens + [t, e] {
      assert [t] + [e] == [t, e];
    }
  }

  /** The first character read: the snapshot `Start` is left by `Step`. */
  lemma FirstStep(text: string, s0: Scan)
    requires |text| >= 1 && text[0] != '\n' && Step(text, Scan(0, 1, 1, 0, 0, [], Idle)) == Ok(s0)
    ensures LexString(text) == Scanning(text, s0)
  {
    assert NextOf(text, Start) == Scan(0, 1, 1, 0, 0, [], Idle);
  }

  /** The snapshot after an opening quote. */
  lemma OpenQuote(text: string)
    requires |text| >= 1 && text[0] == '"'
    ensures LexString(text) == Scanning(text, Scan(0, 1, 1, 1, 1, [], Idle.(strOn := true, used := true)))
  {
    FirstStep(text, Scan(0, 1, 1, 1, 1, [], Idle.(strOn := true, used := true)));
  }

  /** The closing quote of a string whose content is `body`. */
  lemma CloseQuote(text: string, body: string)
    requires |text| == |body| + 2 && text[|body| + 1] == '"'
    ensures Scanning(text, Scan(|body|, |body| + 1, 1, 1, 1, [], Idle.(strOn := true, used := true, buf := body)))
         == Ok([Token(String, body, 1, 1), Token(EndOfFile, "", 1, 1)])
  {
    var s1 := Scan(|body|, |body| + 1, 1, 1, 1, [], Idle.(strOn := true, used := true, buf := body));
    var n := NextOf(text, s1);
    var s2 := Scan(|body| + 1, |body| + 2, 1, 1, 1, [Token(String, body, 1, 1)], Idle);
    assert n.f.(strOn := false, used := false, buf := "") == Idle;
    assert n.tokens + [Token(String, body, 1, 1)] == [Token(String, body, 1, 1)];
    assert Step(text, n) == QuoteStep(n) == Ok(s2);
    assert Scanning(text, s1) == Scanning(text, s2) == Finish(s2);
    FinishShape(s2);
    assert [Token(String, body, 1, 1)] + [Token(EndOfFile, "", 1, 1)] == [Token(String, body, 1, 1), Token(EndOfFile, "", 1, 1)];
  }

  /** A string literal lexes to one `String` token holding its content
      without the quotes (lexer.rs:213-241). */
  lemma StringLiteral(body: string)
    requires forall i :: 0 <= i < |body| ==> body[i] != '"' && body[i] != '\n'
    ensures LexString("\"" + body + "\"") == Ok([Token(String, body, 1, 1), Token(EndOfFile, "", 1, 1)])
  {
    var text := "\"" + body + "\"";
    OpenQuote(text);
    var s0 := Scan(0, 1, 1, 1, 1, [], Idle.(strOn := true, used := true));
    AbsorbRun(text, s0, |body| + 1);
    assert s0.f.buf + text[1..|body| + 1] == body;
    assert Scanning(text, s0) == Scanning(text, Scan(|body|, |body| + 1, 1, 1, 1, [], Idle.(strOn := true, used := true, buf := body)));
    CloseQuote(text, body);
  }

  /** `true_value` undoes the lexing of a string literal: the first token
      of a quoted text, written back, is that text. */
  lemma TrueValueRestoresLiteral(body: string)
    requires forall i :: 0 <= i < |body| ==> body[i] != '"' && body[i] != '\n'
    ensures var r := LexString("\"" + body + "\"");
      r.Ok? && |r.value| > 0 && r.value[0].IsString() && r.value[0].TrueValue() == "\"" + body + "\""
  {
    StringLiteral(body);
  }

  /** End of input inside a string fails (lexer.rs:447-449). */
  lemma UnclosedStringFails(body: string)
    requires forall i :: 0 <= i < |body| ==> body[i] != '"' && body[i] != '\n'
    ensures LexString("\"" + body) == Err(UnclosedString)
  {
    var text := "\"" + body;
    OpenQuote(text);
    var s0 := Scan(0, 1, 1, 1, 1, [], Idle.(strOn := true, used := true));
    AbsorbToEnd(text, s0, body);
    FinishShape(s0.(index := |text| - 1, x := |text|, f := s0.f.(buf := body)));
  }

  /** A newline inside a string fails (lexer.rs:230-233). */
  lemma NewlineInStringFails(body: string, rest: string)
    requires forall i :: 0 <= i < |body| ==> body[i] != '"' && body[i] != '\n'
    ensures LexString("\"" + body + "\n" + rest) == Err(UnclosedString)
  {
    var text := "\"" + body + "\n" + rest;
    OpenQuote(text);
    var s0 := Scan(0, 1, 1, 1, 1, [], Idle.(strOn := true, used := true));
    AbsorbRun(text, s0, |body| + 1);
    var s1 := s0.(index := |body|, x := |body| + 1, f := s0.f.(buf := s0.f.buf + text[1..|body| + 1]));
    assert text[|body| + 1] == '\n';
    assert Step(text, NextOf(text, s1)) == Err(UnclosedString);
  }

  /** A line comment produces no token (lexer.rs:359-372). */
  lemma CommentLexesToNothing(body: string)
    requires forall i :: 0 <= i < |body| ==> body[i] != '\n'
    ensures LexString("//" + body) == Ok([Token(EndOfFile, "", 1, 1)])
  {
    var text := "//" + body;
    var n := Scan(0, 1, 1, 0, 0, [], Idle);
    assert Lookahead(text, 0) == Some('/');
    var s0 := Scan(0, 1, 1, 1, 1, [], Idle.(commentOn := true, used := true));
    assert Step(text, n) == SymbolStep(text, n) == Ok(s0);
    FirstStep(text, s0);
    AbsorbToEnd(text, s0, text[1..]);
    var s1 := s0.(index := |text| - 1, x := |text|, f := s0.f.(buf := text[1..]));
    FinishShape(s1);
    assert [] + [Token(EndOfFile, "", 1, 1)] == [Token(EndOfFile, "", 1, 1)];
  }

  /** The snapshot after the first digit of a number. */
  lemma FirstDigit(text: string)
    requires |text| >= 1 && IsDigit(text[0])
    ensures LexString(text) == Scanning(text, Scan(0, 1, 1, 1, 1, [], Idle.(buf := text[..1], numOn := true, isInt := true, used := true)))
  {
    var n := Scan(0, 1, 1, 0, 0, [], Idle);
    assert n.f.buf + [text[0]] == text[..1];
    assert Step(text, n) == DigitStep(text[0], n);
    FirstStep(text, Scan(0, 1, 1, 1, 1, [], Idle.(buf := text[..1], numOn := true, isInt := true, used := true)));
  }

  /** A run of digits is one `Integer` token (lexer.rs:243-257, 428-430). */
  lemma DigitsLexToInteger(d: string)
    requires |d| >= 1 && AllDigits(d)
    ensures LexString(d) == Ok([Token(Integer, d, 1, 1), Token(EndOfFile, "", 1, 1)])
  {
    FirstDigit(d);
    var s0 := Scan(0, 1, 1, 1, 1, [], Idle.(buf := d[..1], numOn := true, isInt := true, used := true));
    assert d[..1] + d[1..] == d;
    AbsorbToEnd(d, s0, d);
    var s1 := s0.(index := |d| - 1, x := |d|, f := s0.f.(buf := d));
    assert Scanning(d, s0) == Finish(s1);
    FinishShape(s1);
    assert [] + [Token(Integer, d, 1, 1), Token(EndOfFile, "", 1, 1)] == [Token(Integer, d, 1, 1), Token(EndOfFile, "", 1, 1)];
  }

  /** The `.` of a decimal number, read after the digits `a`. */
  lemma DecimalPoint(text: string, a: string, s1: Scan)
    requires |a| >= 1 && |text| >= |a| + 2 && text[|a|] == '.' && IsDigit(text[|a| + 1])
    requires s1 == Scan(|a| - 1, |a|, 1, 1, 1, [], Idle.(buf := a, numOn := true, isInt := true, used := true))
    ensures Scanning(text, s1) == Scanning(text, Scan(|a|, |a| + 1, 1, 1, 1, [], Idle.(buf := a + ".", numOn := true, isFloat := true, used := true)))
  {
    var n1 := NextOf(text, s1);
    assert NextNonSpace(text, n1.index + 1) == Some(text[|a| + 1]);
    assert Step(text, n1) == Ok(Scan(|a|, |a| + 1, 1, 1, 1, [], Idle.(buf := a + ".", numOn := true, isFloat := true, used := true)));
  }

  /** The digits after the point, up to the end of the text. */
  lemma Fraction(text: string, a: string, b: string)
    requires |a| >= 1 && |b| >= 1 && AllDigits(b) && text == a + "." + b
    ensures Scanning(text, Scan(|a|, |a| + 1, 1, 1, 1, [], Idle.(buf := a + ".", numOn := true, isFloat := true, used := true)))
         == Ok([Token(FloatingPoint, text, 1, 1), Token(EndOfFile, "", 1, 1)])
  {
    var s2 := Scan(|a|, |a| + 1, 1, 1, 1, [], Idle.(buf := a + ".", numOn := true, isFloat := true, used := true));
    assert text[|a| + 1..] == b;
    AbsorbToEnd(text, s2, text);
    var s3 := s2.(index := |text| - 1, x := |text|, f := s2.f.(buf := text));
    assert Scanning(text, s2) == Finish(s3);
    FinishShape(s3);
    var ts := [Token(FloatingPoint, text, 1, 1), Token(EndOfFile, "", 1, 1)];
    assert [] + ts == ts;
  }

  /** Digits, `.`, digits is one `FloatingPoint` token (lexer.rs:258-262). */
  lemma DecimalLexesToFloat(a: string, b: string)
    requires |a| >= 1 && AllDigits(a) && |b| >= 1 && AllDigits(b)
    ensures LexString(a + "." + b) == Ok([Token(FloatingPoint, a + "." + b, 1, 1), Token(EndOfFile, "", 1, 1)])
  {
    var text := a + "." + b;
    assert text[0] == a[0];
    FirstDigit(text);
    var s0 := Scan(0, 1, 1, 1, 1, [], Idle.(buf := text[..1], numOn := true, isInt := true, used := true));
    AbsorbRun(text, s0, |a|);
    assert text[..1] + text[1..|a|] == a;
    var s1 := Scan(|a| - 1, |a|, 1, 1, 1, [], Idle.(buf := a, numOn := true, isInt := true, used := true));
    assert Scanning(text, s0) == Scanning(text, s1);
    assert text[|a|] == '.' && text[|a| + 1] == b[0];
    DecimalPoint(text, a, s1);
    Fraction(text, a, b);
  }

  /** The snapshot after the first character of a word. */
  lemma FirstLetter(text: string)
    requires |text| >= 1 && IsIdChar(text[0]) && !IsDigit(text[0])
    ensures LexString(text) == Scanning(text, Scan(0, 1, 1, 1, 1, [], Idle.(buf := text[..1], idOn := true, used := true)))
  {
    var n := Scan(0, 1, 1, 0, 0, [], Idle);
    assert n.f.buf + [text[0]] == text[..1];
    assert Step(text, n) == WordStep(text[0], n);
    FirstStep(text, Scan(0, 1, 1, 1, 1, [], Idle.(buf := text[..1], idOn := true, used := true)));
  }

  /** A word that ends the input is classified by the end-of-input table,
      which has no `else` (lexer.rs:436-446). */
  lemma WordAtEnd(w: string)
    requires |w| >= 1 && !IsDigit(w[0]) && forall i :: 0 <= i < |w| ==> IsIdChar(w[i])
    ensures LexString(w) == Ok([Token(FinalWordToken(w).0, FinalWordToken(w).1, 1, 1), Token(EndOfFile, "", 1, 1)])
  {
    FirstLetter(w);
    var s0 := Scan(0, 1, 1, 1, 1, [], Idle.(buf := w[..1], idOn := true, used := true));
    assert w[..1] + w[1..] == w;
    AbsorbToEnd(w, s0, w);
    var s1 := s0.(index := |w| - 1, x := |w|, f := s0.f.(buf := w));
    assert Scanning(w, s0) == Finish(s1);
    FinishShape(s1);
    var ts := [Token(FinalWordToken(w).0, FinalWordToken(w).1, 1, 1), Token(EndOfFile, "", 1, 1)];
    assert [] + ts == ts;
  }

  /** A word followed by `;` is classified by the in-text table, which
      has `else` (lexer.rs:309-320). */
  lemma WordBeforeSemicolon(w: string)
    requires |w| >= 1 && !IsDigit(w[0]) && forall i :: 0 <= i < |w| ==> IsIdChar(w[i])
    ensures LexString(w + ";") == Ok([Token(WordToken(w).0, WordToken(w).1, 1, 1),
                                      Token(EndLine, "", |w| + 1, 1), Token(EndOfFile, "", |w| + 1, 1)])
  {
    hide Scanning;
    hide Step;
    hide LexString;
    var text := w + ";";
    assert text[0] == w[0];
    FirstLetter(text);
    var s0 := Scan(0, 1, 1, 1, 1, [], Idle.(buf := text[..1], idOn := true, used := true));
    AbsorbRun(text, s0, |w|);
    assert text[..1] + text[1..|w|] == w;
    var s1 := s0.(index := |w| - 1, x := |w|, f := s0.f.(buf := w));
    var n := NextOf(text, s1);
    assert text[|w|] == ';' && n == s1.(index := |w|, x := |w| + 1);
    var words := [Token(WordToken(w).0, WordToken(w).1, 1, 1)];
    var s2 := Scan(|w|, |w| + 1, 1, |w| + 1, 1, words + [Token(EndLine, "", |w| + 1, 1)], Idle);
    SemicolonStep(text, n);
    assert FlushWord(n) == n.(tokens := words, f := Idle);
    ScanningStep(text, s1, s2);
    ScanningEnd(text, s2);
    FinishShape(s2);
    assert words + [Token(EndLine, "", |w| + 1, 1)] + [Token(EndOfFile, "", |w| + 1, 1)]
        == [Token(WordToken(w).0, WordToken(w).1, 1, 1), Token(EndLine, "", |w| + 1, 1), Token(EndOfFile, "", |w| + 1, 1)];
  }

  /** So `else` is a keyword inside the text but an identifier at its end. */
  lemma ElseOnlyInsideText()
    ensures LexString("else;") == Ok([Token(Else, "", 1, 1), Token(EndLine, "", 5, 1), Token(EndOfFile, "", 5, 1)])
    ensures LexString("else") == Ok([Token(Identifier, "else", 1, 1), Token(EndOfFile, "", 1, 1)])
  {
    hide LexString;
    hide Scanning;
    hide Step;
    WordBeforeSemicolon("else");
    assert "else" + ";" == "else;";
    WordAtEnd("else");
  }

  /** An operator of two characters lexes to one token at its first character. */
  lemma PairOperator(a: char, b: char, kind: TokenType, value: string)
    requires a != '"' && !IsIdChar(a) && a != '.'
    requires SymbolFor(a, Some(b)) == Ok(Emit(kind, value, true))
    ensures LexString([a, b]) == Ok([Token(kind, value, 1, 1), Token(EndOfFile, "", 1, 1)])
  {
    var text := [a, b];
    var n := NextOf(text, Start);
    assert n == Scan(0, 1, 1, 0, 0, [], Idle);
    assert Lookahead(text, 0) == Some(b);
    var s3 := Add(n.(sx := 1, sy := 1), kind, value);
    assert SymbolStep(text, n) == Ok(NextOf(text, s3));
    assert Step(text, n) == SymbolStep(text, n);
    assert LexString(text) == Scanning(text, NextOf(text, s3));
    assert Scanning(text, NextOf(text, s3)) == Finish(NextOf(text, s3));
    assert NextOf(text, s3) == Scan(1, 2, 1, 1, 1, [Token(kind, value, 1, 1)], Idle);
    FinishShape(NextOf(text, s3));
    var ts := [Token(kind, value, 1, 1), Token(EndOfFile, "", 1, 1)];
    assert [Token(kind, value, 1, 1)] + [Token(EndOfFile, "", 1, 1)] == ts;
  }

  /** lexer.rs:327-355, 385-415: the arrow and the comparison operators. */
  lemma OperatorTokens()
    ensures LexString("<-") == Ok([Token(AssignmentArrow, "", 1, 1), Token(EndOfFile, "", 1, 1)])
    ensures LexString("<=") == Ok([Token(ComparisonOperation, "<=", 1, 1), Token(EndOfFile, "", 1, 1)])
    ensures LexString(">=") == Ok([Token(ComparisonOperation, ">=", 1, 1), Token(EndOfFile, "", 1, 1)])
    ensures LexString("==") == Ok([Token(ComparisonOperation, "==", 1, 1), Token(EndOfFile, "", 1, 1)])
    ensures LexString("!=") == Ok([Token(ComparisonOperation, "!=", 1, 1), Token(EndOfFile, "", 1, 1)])
  {
    hide LexString;
    hide Scanning;
    hide Step;
    PairOperator('<', '-', AssignmentArrow, "");
    PairOperator('<', '=', ComparisonOperation, "<=");
    PairOperator('>', '=', ComparisonOperation, ">=");
    PairOperator('=', '=', ComparisonOperation, "==");
    PairOperator('!', '=', ComparisonOperation, "!=");
  }

  /** A lone `=` asks for the arrow; an unknown character is rejected. */
  lemma OperatorErrors(c: char)
    requires c != '='
    ensures LexString(['=', c]) == Err(UseAssignmentArrow)
    ensures LexString("#") == Err(NotAdded('#'))
  {
    assert Step(['=', c], NextOf(['=', c], Start)) == Err(UseAssignmentArrow);
    assert Step("#", NextOf("#", Start)) == Err(NotAdded('#'));
  }
}
