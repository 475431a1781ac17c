/** The lexer for expressions (src/util/eval_lexer.rs): the same
    per-character state machine as the source lexer, without comments, with
    one token kind per operator, words limited to `true` and `false`, and no
    `EndOfFile` at the end.

    `MathLexer.Lex` is proved to return what the function `Scanning` gives;
    the lemmas state what that is. */
module EvalLexer {
  import opened Common

  datatype MathTokenType =
    | String | Integer | FloatingPoint | Boolean
    | Multiplication | Division | Addition | Subtraction | Modulos | Power
    | ParenthesisOpen | ParenthesisClose
    | GreaterThan | LessThan | LessThanOrEqualTo | GreaterThanOrEqualTo | EqualTo | NotEqualTo
    | NullForParser

  datatype MathToken = MathToken(tokenType: MathTokenType, value: string, x: nat, y: nat) {
    predicate IsString() { tokenType == String }
    predicate IsInteger() { tokenType == Integer }
    predicate IsFloat() { tokenType == FloatingPoint }
    predicate IsBool() { tokenType == Boolean }
    predicate IsDataType() { IsFloat() || IsBool() || IsString() || IsInteger() }

    /** The token as written in an expression: strings get their quotes back. */
    function TrueValue(): (r: string)
      ensures IsString() ==> r == ['"'] + value + ['"']
      ensures !IsString() ==> r == value
    {
      if IsString() then "\"" + value + "\"" else value
    }
  }

  datatype MathLexError =
    | BufferInUse
    | UnclosedString
    | UnexpectedChar(c: char)        // `=` or `!` not followed by `=`
    | UnexpectedIdentifier           // a word other than `true` or `false`
    | NotAdded(c: char)
    | OutOfBounds
    | Internal

  /** A finished word (eval_lexer.rs:285-290): only the two booleans are allowed. */
  function MathWord(word: string): (r: Result<(MathTokenType, string), MathLexError>)
    ensures r.Ok? <==> word == "true" || word == "false"
    ensures r.Ok? ==> r.value == (Boolean, word)
  {
    if word == "true" then Ok((Boolean, "true"))
    else if word == "false" then Ok((Boolean, "false"))
    else Err(UnexpectedIdentifier)
  }

  datatype Symbol =
    | Emit(kind: MathTokenType, pair: bool)  // `pair`: the next character belongs to it
    | Blank

  /** The operator table of eval_lexer.rs:297-365. */
  function SymbolFor(c: char, next: Option<char>): (r: Result<Symbol, MathLexError>)
    ensures r.Ok? && r.value.Emit? ==> Emittable(r.value.kind)
  {
    if c == '=' then
      if next.None? then Err(OutOfBounds)
      else if next.value == '=' then Ok(Emit(EqualTo, true))
      else Err(UnexpectedChar(c))
    else if c == '!' then
      if next.None? then Err(OutOfBounds)
      else if next.value == '=' then Ok(Emit(NotEqualTo, true))
      else Err(UnexpectedChar(c))
    else if c == '%' then Ok(Emit(Modulos, false))
    else if c == '+' then Ok(Emit(Addition, false))
    else if c == '-' then Ok(Emit(Subtraction, false))
    else if c == '/' then Ok(Emit(Division, false))
    else if c == '*' then Ok(Emit(Multiplication, false))
    else if c == '(' then Ok(Emit(ParenthesisOpen, false))
    else if c == ')' then Ok(Emit(ParenthesisClose, false))
    else if c == '>' then
      if next.None? then Err(OutOfBounds)
      else if next.value == '=' then Ok(Emit(GreaterThan, true))
      else Ok(Emit(GreaterThan, false))
    else if c == '<' then
      if next.None? then Err(OutOfBounds)
      else if next.value == '=' then Ok(Emit(LessThanOrEqualTo, true))
      else Ok(Emit(LessThan, false))
    else if c == ' ' || c == '\n' || c == '\t' then Ok(Blank)
    else Err(NotAdded(c))
  }

  /** The local flags of `lex` and its `unknown_length` buffer. */
  datatype Flags = Flags(buf: string, used: bool, strOn: bool, idOn: bool, numOn: bool, isInt: bool, isFloat: bool)

  const Idle := Flags("", false, false, false, false, false, false)

  /** Everything `lex` changes: the lexer's fields and the local flags. */
  datatype Scan = Scan(index: int, x: nat, y: nat, sx: nat, sy: nat, tokens: seq<MathToken>, f: Flags)

  function Add(s: Scan, kind: MathTokenType, value: string): Scan {
    s.(tokens := s.tokens + [MathToken(kind, value, s.sx, s.sy)])
  }

  function NextOf(text: string, s: Scan): Scan
    requires 0 <= s.index + 1 < |text|
  {
    var p := Advance(s.x, s.y, text[s.index + 1]);
    s.(index := s.index + 1, x := p.0, y := p.1)
  }

  /** Emits the pending number (eval_lexer.rs:243-255, 272-284). */
  function FlushNumber(s: Scan): Result<Scan, MathLexError> {
    if s.f.isInt then
      Ok(Add(s, Integer, s.f.buf).(f := s.f.(isInt := false, numOn := false, used := false, buf := "")))
    else if s.f.isFloat then
      Ok(Add(s, FloatingPoint, s.f.buf).(f := s.f.(isFloat := false, numOn := false, used := false, buf := "")))
    else Err(Internal)
  }

  /** Emits the pending word, which must be a boolean (eval_lexer.rs:285-293). */
  function FlushWord(s: Scan): Result<Scan, MathLexError> {
    var w :- MathWord(s.f.buf);
    Ok(Add(s, w.0, w.1).(f := s.f.(idOn := false, used := false, buf := "")))
  }

  /** A `"` (eval_lexer.rs:196-211). */
  function QuoteStep(s: Scan): (r: Result<Scan, MathLexError>)
    ensures r.Ok? ==> r.value.index == s.index
  {
    if s.f.strOn then Ok(Add(s, String, s.f.buf).(f := s.f.(strOn := false, used := false, buf := "")))
    else if s.f.used then Err(BufferInUse)
    else Ok(s.(sx := s.x, sy := s.y, f := s.f.(strOn := true, used := true)))
  }

  /** A character inside a string (eval_lexer.rs:213-218). */
  function TextStep(c: char, s: Scan): (r: Result<Scan, MathLexError>)
    ensures r.Ok? ==> r.value.index == s.index
  {
    if c == '\n' then Err(UnclosedString)
    else Ok(s.(f := s.f.(buf := s.f.buf + [c])))
  }

  /** A digit outside a word (eval_lexer.rs:220-234). */
  function DigitStep(c: char, s: Scan): (r: Result<Scan, MathLexError>)
    ensures r.Ok? ==> r.value.index == s.index
  {
    if s.f.numOn then Ok(s.(f := s.f.(buf := s.f.buf + [c])))
    else if s.f.used then Err(BufferInUse)
    else Ok(s.(sx := s.x, sy := s.y, f := s.f.(buf := s.f.buf + [c], numOn := true, isInt := true, used := true)))
  }

  /** A letter, `_` or a digit inside a word (eval_lexer.rs:240-270). */
  function WordStep(c: char, s: Scan): (r: Result<Scan, MathLexError>)
    ensures r.Ok? ==> r.value.index == s.index
  {
    var s1 :- if s.f.numOn then FlushNumber(s) else Ok(s);
    if s1.f.idOn then Ok(s1.(f := s1.f.(buf := s1.f.buf + [c])))
    else if s1.f.used then Err(BufferInUse)
    else Ok(s1.(sx := s1.x, sy := s1.y, f := s1.f.(buf := s1.f.buf + [c], idOn := true, used := true)))
  }

  /** Any other character (eval_lexer.rs:271-365). */
  function SymbolStep(text: string, s: Scan): (r: Result<Scan, MathLexError>)
    requires 0 <= s.index < |text|
    ensures r.Ok? ==> s.index <= r.value.index < |text|
  {
    var s1 :- if s.f.numOn then FlushNumber(s) else if s.f.idOn then FlushWord(s) else Ok(s);
    var s2 := s1.(sx := s1.x, sy := s1.y);
    var sym :- SymbolFor(text[s.index], Lookahead(text, s.index));
    match sym
    case Emit(kind, pair) =>
      var s3 := Add(s2, kind, "");
      if pair then Ok(NextOf(text, s3)) else Ok(s3)
    case Blank => Ok(s2)
  }

  /** One pass of the loop body (eval_lexer.rs:196-366). */
  function Step(text: string, s: Scan): (r: Result<Scan, MathLexError>)
    requires 0 <= s.index < |text|
    ensures r.Ok? ==> s.index <= r.value.index < |text|
  {
    var c := text[s.index];
    if c == '"' then QuoteStep(s)
    else if s.f.strOn then TextStep(c, s)
    else if IsDigit(c) && !s.f.idOn then DigitStep(c, s)
    else if c == '.' && s.f.numOn && NextNonSpace(text, s.index + 1).None? then Err(OutOfBounds)
    else if c == '.' && s.f.numOn && IsDigit(NextNonSpace(text, s.index + 1).value) then
      Ok(s.(f := s.f.(isInt := false, isFloat := true, buf := s.f.buf + ".")))
    else if IsIdChar(c) then WordStep(c, s)
    else SymbolStep(text, s)
  }

  /** After the last character (eval_lexer.rs:368-388): flush, and no `EndOfFile`. */
  function Finish(s: Scan): Result<seq<MathToken>, MathLexError> {
    var s1 :-
      if s.f.numOn then
        (if s.f.isInt then Ok(Add(s, Integer, s.f.buf))
         else if s.f.isFloat then Ok(Add(s, FloatingPoint, s.f.buf))
         else Err(Internal))
      else if s.f.idOn then
        var w :- MathWord(s.f.buf); Ok(Add(s, w.0, w.1))
      else if s.f.strOn then Err(UnclosedString)
      else Ok(s);
    Ok(s1.tokens)
  }

  function Scanning(text: string, s: Scan): Result<seq<MathToken>, MathLexError>
    decreases |text| - s.index
  {
    if s.index + 1 >= |text| || s.index + 1 < 0 then Finish(s)
    else
      match Step(text, NextOf(text, s))
      case Err(e) => Err(e)
      case Ok(s') => Scanning(text, s')
  }

  function Lexing(text: string, run: bool, s: Scan): Result<seq<MathToken>, MathLexError> {
    if run then Scanning(text, s) else Finish(s)
  }

  const Start := Scan(-1, 0, 1, 0, 0, [], Idle)

  /** `MathLexer::new().lex_text(text)`. */
  function LexMath(text: string): Result<seq<MathToken>, MathLexError> {
    Scanning(text, Start)
  }

  class MathLexer {
    var text: string
    var index: int
    var run: bool
    var currentChar: char
    var x: nat
    var y: nat
    var tokStartX: nat
    var tokStartY: nat
    var currentTokens: seq<MathToken>

    ghost predicate Valid() reads this { index >= -1 }

    ghost function At(f: Flags): Scan reads this {
      Scan(index, x, y, tokStartX, tokStartY, currentTokens, f)
    }

    ghost function Into(r: Result<Flags, MathLexError>): Result<Scan, MathLexError> reads this {
      match r
      case Ok(g) => Ok(At(g))
      case Err(e) => Err(e)
    }

    constructor ()
      ensures Valid() && text == [] && run && currentChar == ' '
      ensures At(Idle) == Start
    {
      text := [];
      index := -1;
      run := true;
      currentChar := ' ';
      x, y := 0, 1;
      tokStartX, tokStartY := 0, 0;
      currentTokens := [];
    }

    method PosStarter()
      modifies this`tokStartX, this`tokStartY
      ensures tokStartX == x && tokStartY == y
    {
      tokStartX := x;
      tokStartY := y;
    }

    method NextChar() returns (more: bool)
      requires Valid()
      modifies this`index, this`currentChar, this`x, this`y
      ensures Valid() && index == old(index) + 1
      ensures more <==> index < |text|
      ensures more ==> currentChar == text[index] && (x, y) == Advance(old(x), old(y), text[index])
      ensures !more ==> x == old(x) && y == old(y)
    {
      index := index + 1;
      if index >= |text| {
        more := false;
      } else {
        currentChar := text[index];
        if currentChar == '\n' {
          y := y + 1;
          x := 0;
        } else {
          x := x + 1;
        }
        more := true;
      }
    }

    method GetNextCharIgnoreSpace() returns (r: Option<char>)
      requires Valid()
      ensures r == NextNonSpace(text, index + 1)
    {
      var ind := index + 1;
      while ind < |text| && text[ind] == ' '
        invariant index + 1 <= ind && (ind <= |text| || ind == index + 1)
        invariant NextNonSpace(text, ind) == NextNonSpace(text, index + 1)
        decreases |text| - ind
      {
        ind := ind + 1;
      }
      r := if ind < |text| then Some(text[ind]) else None;
    }

    method AddBase(kind: MathTokenType, value: string)
      modifies this`currentTokens
      ensures currentTokens == old(currentTokens) + [MathToken(kind, value, tokStartX, tokStartY)]
    {
      currentTokens := currentTokens + [MathToken(kind, value, tokStartX, tokStartY)];
    }

    method EmitNumber(f: Flags) returns (r: Result<Flags, MathLexError>)
      modifies this`currentTokens
      ensures Into(r) == FlushNumber(old(At(f)))
    {
      if f.isInt {
        AddBase(Integer, f.buf);
        r := Ok(f.(isInt := false, numOn := false, used := false, buf := ""));
      } else if f.isFloat {
        AddBase(FloatingPoint, f.buf);
        r := Ok(f.(isFloat := false, numOn := false, used := false, buf := ""));
      } else {
        r := Err(Internal);
      }
    }

    method EmitWord(f: Flags) returns (r: Result<Flags, MathLexError>)
      modifies this`currentTokens
      ensures Into(r) == FlushWord(old(At(f)))
    {
      if f.buf == "true" {
        AddBase(Boolean, "true");
      } else if f.buf == "false" {
        AddBase(Boolean, "false");
      } else {
        return Err(UnexpectedIdentifier);
      }
      r := Ok(f.(idOn := false, used := false, buf := ""));
    }

    method OnQuote(f: Flags) returns (r: Result<Flags, MathLexError>)
      modifies this`tokStartX, this`tokStartY, this`currentTokens
      ensures Into(r) == QuoteStep(old(At(f)))
    {
      if f.strOn {
        AddBase(String, f.buf);
        r := Ok(f.(strOn := false, used := false, buf := ""));
      } else {
        PosStarter();
        if f.used {
          return Err(BufferInUse);
        }
        r := Ok(f.(strOn := true, used := true));
      }
    }

    method OnDigit(c: char, f: Flags) returns (r: Result<Flags, MathLexError>)
      modifies this`tokStartX, this`tokStartY
      ensures Into(r) == DigitStep(c, old(At(f)))
    {
      if f.numOn {
        r := Ok(f.(buf := f.buf + [c]));
      } else {
        PosStarter();
        if f.used {
          return Err(BufferInUse);
        }
        r := Ok(f.(buf := f.buf + [c], numOn := true, isInt := true, used := true));
      }
    }

    method OnWordChar(c: char, f: Flags) returns (r: Result<Flags, MathLexError>)
      modifies this`tokStartX, this`tokStartY, this`currentTokens
      ensures Into(r) == WordStep(c, old(At(f)))
    {
      var g := f;
      if f.numOn {
        var flushed := EmitNumber(f);
        if flushed.Err? {
          return flushed;
        }
        g := flushed.value;
      }
      if g.idOn {
        r := Ok(g.(buf := g.buf + [c]));
      } else {
        PosStarter();
        if g.used {
          return Err(BufferInUse);
        }
        r := Ok(g.(buf := g.buf + [c], idOn := true, used := true));
      }
    }

    method OnSymbol(c: char, f: Flags) returns (r: Result<Flags, MathLexError>)
      requires Valid() && 0 <= index < |text| && c == text[index]
      modifies this`index, this`currentChar, this`x, this`y, this`tokStartX, this`tokStartY, this`currentTokens
      ensures Valid() && Into(r) == SymbolStep(text, old(At(f)))
    {
      hide SymbolFor;
      hide FlushNumber;
      hide FlushWord;
      var g := f;
      if f.numOn {
        var flushed := EmitNumber(f);
        if flushed.Err? {
          return flushed;
        }
        g := flushed.value;
      } else if f.idOn {
        var flushed := EmitWord(f);
        if flushed.Err? {
          return flushed;
        }
        g := flushed.value;
      }
      PosStarter();
      var sym := SymbolFor(c, Lookahead(text, index));
      if sym.Err? {
        return Err(sym.error);
      }
      match sym.value
      case Emit(kind, pair) =>
        AddBase(kind, "");
        if pair {
          var _ := NextChar();
        }
        r := Ok(g);
      case Blank =>
        r := Ok(g);
    }

    method OnChar(f: Flags) returns (r: Result<Flags, MathLexError>)
      requires Valid() && 0 <= index < |text| && currentChar == text[index]
      modifies this`index, this`currentChar, this`x, this`y, this`tokStartX, this`tokStartY, this`currentTokens
      ensures Valid() && Into(r) == Step(text, old(At(f)))
    {
      var c := currentChar;
      if c == '"' {
        r := OnQuote(f);
      } else if f.strOn {
        if c == '\n' {
          return Err(UnclosedString);
        }
        r := Ok(f.(buf := f.buf + [c]));
      } else if IsDigit(c) && !f.idOn {
        r := OnDigit(c, f);
      } else {
        var dotOfNumber := false;
        if c == '.' && f.numOn {
          var next := GetNextCharIgnoreSpace();
          if next.None? {
            return Err(OutOfBounds);
          }
          dotOfNumber := IsDigit(next.value);
        }
        if dotOfNumber {
          r := Ok(f.(isInt := false, isFloat := true, buf := f.buf + "."));
        } else if IsIdChar(c) {
          r := OnWordChar(c, f);
        } else {
          r := OnSymbol(c, f);
        }
      }
    }

    /** The main loop of eval_lexer.rs:164-389. */
    method Lex() returns (r: Result<seq<MathToken>, MathLexError>)
      requires Valid()
      modifies this
      ensures r == Lexing(old(text), old(run), old(At(Idle)))
    {
      var f := Idle;
      ghost var start := At(Idle);
      while run
        invariant Valid() && text == old(text) && run == old(run)
        invariant !old(run) ==> At(f) == start
        invariant Scanning(text, At(f)) == Scanning(text, start)
        decreases |text| - index
      {
        ghost var before := At(f);
        var more := NextChar();
        if !more {
          run := false;
          break;
        }
        assert At(f) == NextOf(text, before);
        var res := OnChar(f);
        if res.Err? {
          return Err(res.error);
        }
        f := res.value;
      }
      if f.numOn {
        if f.isInt {
          AddBase(Integer, f.buf);
        } else if f.isFloat {
          AddBase(FloatingPoint, f.buf);
        } else {
          return Err(Internal);
        }
      } else if f.idOn {
        if f.buf == "true" {
          AddBase(Boolean, "true");
        } else if f.buf == "false" {
          AddBase(Boolean, "false");
        } else {
          return Err(UnexpectedIdentifier);
        }
      } else if f.strOn {
        return Err(UnclosedString);
      }
      r := Ok(currentTokens);
    }

    method LexText(t: string) returns (r: Result<seq<MathToken>, MathLexError>)
      requires Valid()
      modifies this
      ensures r == Lexing(t, old(run), old(At(Idle)))
    {
      text := t;
      r := Lex();
    }
  }

  /** Lexing with a freshly made lexer gives `LexMath`. */
  method LexFresh(t: string) returns (r: Result<seq<MathToken>, MathLexError>)
    ensures r == LexMath(t)
  {
    var lexer := new MathLexer();
    r := lexer.LexText(t);
  }

  // ---------------------------------------------------------------------
  // What the machine produces

  /** Token kinds the table can emit: never `GreaterThanOrEqualTo`, `Power`
      or `NullForParser`. */
  predicate Emittable(k: MathTokenType) {
    k != GreaterThanOrEqualTo && k != Power && k != NullForParser
  }

  predicate AllEmittable(ts: seq<MathToken>) {
    forall i :: 0 <= i < |ts| ==> Emittable(ts[i].tokenType)
  }

  /** A successful outcome keeps the tokens of `s` in front and adds only
      tokens the table can emit. */
  predicate KeepsEmittable(s: Scan, r: Result<Scan, MathLexError>) {
    r.Ok? ==> s.tokens <= r.value.tokens && AllEmittable(r.value.tokens)
  }

  lemma AddEmittable(s: Scan, kind: MathTokenType, value: string)
    requires AllEmittable(s.tokens) && Emittable(kind)
    ensures KeepsEmittable(s, Ok(Add(s, kind, value)))
  {
    var ts := Add(s, kind, value).tokens;
    assert forall i :: 0 <= i < |ts| ==> ts[i] == if i < |s.tokens| then s.tokens[i] else MathToken(kind, value, s.sx, s.sy);
  }

  lemma FlushNumberEmittable(s: Scan)
    requires AllEmittable(s.tokens)
    ensures KeepsEmittable(s, FlushNumber(s))
  {
    AddEmittable(s, Integer, s.f.buf);
    AddEmittable(s, FloatingPoint, s.f.buf);
  }

  lemma FlushWordEmittable(s: Scan)
    requires AllEmittable(s.tokens)
    ensures KeepsEmittable(s, FlushWord(s))
  {
    AddEmittable(s, Boolean, s.f.buf);
  }

  lemma QuoteStepEmittable(s: Scan)
    requires AllEmittable(s.tokens)
    ensures KeepsEmittable(s, QuoteStep(s))
  {
    AddEmittable(s, String, s.f.buf);
  }

  lemma WordStepEmittable(c: char, s: Scan)
    requires AllEmittable(s.tokens)
    ensures KeepsEmittable(s, WordStep(c, s))
  {
    FlushNumberEmittable(s);
  }

  lemma SymbolStepEmittable(text: string, s: Scan)
    requires 0 <= s.index < |text| && AllEmittable(s.tokens)
    ensures KeepsEmittable(s, SymbolStep(text, s))
  {
    hide SymbolFor;
    hide FlushNumber;
    hide FlushWord;
    var s1r := if s.f.numOn then FlushNumber(s) else if s.f.idOn then FlushWord(s) else Ok(s);
    FlushNumberEmittable(s);
    FlushWordEmittable(s);
    if s1r.Ok? {
      var s2 := s1r.value.(sx := s1r.value.x, sy := s1r.value.y);
      var sym := SymbolFor(text[s.index], Lookahead(text, s.index));
      if sym.Ok? && sym.value.Emit? {
        AddEmittable(s2, sym.value.kind, "");
      }
    }
  }

  lemma StepEmittable(text: string, s: Scan)
    requires 0 <= s.index < |text| && AllEmittable(s.tokens)
    ensures KeepsEmittable(s, Step(text, s))
  {
    hide QuoteStep;
    hide WordStep;
    hide SymbolStep;
    QuoteStepEmittable(s);
    WordStepEmittable(text[s.index], s);
    SymbolStepEmittable(text, s);
  }

  lemma {:induction false} ScanningEmittable(text: string, s: Scan)
    requires AllEmittable(s.tokens)
    ensures Scanning(text, s).Ok? ==> s.tokens <= Scanning(text, s).value && AllEmittable(Scanning(text, s).value)
    decreases |text| - s.index
  {
    if 0 <= s.index + 1 < |text| {
      StepEmittable(text, NextOf(text, s));
      var st := Step(text, NextOf(text, s));
      if st.Ok? {
        ScanningEmittable(text, st.value);
      }
    }
  }

  /** eval_lexer.rs:340-341: `>=` is lexed as `GreaterThan`, so no input ever
      yields a `GreaterThanOrEqualTo` token (nor `Power`, which no character makes). */
  lemma NeverGreaterThanOrEqualTo(text: string)
    ensures LexMath(text).Ok? ==>
      forall i :: 0 <= i < |LexMath(text).value| ==> LexMath(text).value[i].tokenType != GreaterThanOrEqualTo
  {
    ScanningEmittable(text, Start);
  }

  /** The characters the pending token takes without being emitted. */
  predicate Absorbs(f: Flags, c: char) {
    if f.strOn then c != '\n' && c != '"'
    else if f.numOn then IsDigit(c) && !f.idOn
    else f.idOn && IsIdChar(c)
  }

  /** One pass of the loop, seen from the whole run. */
  lemma ScanningStep(text: string, s: Scan, t: Scan)
    requires 0 <= s.index + 1 < |text| && Step(text, NextOf(text, s)) == Ok(t)
    ensures Scanning(text, s) == Scanning(text, t)
  {
    hide Step;
  }

  /** One absorbed character extends the buffer and nothing else. */
  lemma AbsorbStep(text: string, s: Scan)
    requires 0 <= s.index < |text| && Absorbs(s.f, text[s.index])
    ensures Step(text, s) == Ok(s.(f := s.f.(buf := s.f.buf + [text[s.index]])))
  {
    hide SymbolStep;
    hide QuoteStep;
    hide NextNonSpace;
  }

  lemma {:induction false} AbsorbRun(text: string, s: Scan, j: int)
    requires -1 <= s.index < j <= |text|
    requires forall i :: s.index < i < j ==> Absorbs(s.f, text[i])
    ensures Scanning(text, s) == Scanning(text, s.(index := j - 1, x := s.x + (j - 1 - s.index),
                                                   f := s.f.(buf := s.f.buf + text[s.index + 1..j])))
    decreases j - s.index
  {
    hide Scanning;
    hide Step;
    if s.index + 1 < j {
      var c := text[s.index + 1];
      assert Absorbs(s.f, c) && c != '\n';
      var n := NextOf(text, s);
      assert n == s.(index := s.index + 1, x := s.x + 1);
      var s' := n.(f := s.f.(buf := s.f.buf + [c]));
      AbsorbStep(text, n);
      ScanningStep(text, s, s');
      AbsorbRun(text, s', j);
      assert s.f.buf + text[s.index + 1..j] == s'.f.buf + text[s'.index + 1..j];
    } else {
      assert s.f.buf + text[s.index + 1..j] == s.f.buf;
      assert s.(index := j - 1, x := s.x + (j - 1 - s.index), f := s.f.(buf := s.f.buf)) == s;
    }
  }

  lemma AbsorbToEnd(text: string, s: Scan, buf: string)
    requires -1 <= s.index < |text|
    requires forall i :: s.index < i < |text| ==> Absorbs(s.f, text[i])
    requires buf == s.f.buf + text[s.index + 1..]
    ensures Scanning(text, s) == Finish(s.(index := |text| - 1, x := s.x + (|text| - 1 - s.index), f := s.f.(buf := buf)))
  {
    AbsorbRun(text, s, |text|);
    assert text[s.index + 1..|text|] == text[s.index + 1..];
  }

  /** The outcome of `Finish` for each kind of pending token. */
  lemma FinishShape(s: Scan)
    ensures s.f.numOn && s.f.isInt ==> Finish(s) == Ok(s.tokens + [MathToken(Integer, s.f.buf, s.sx, s.sy)])
    ensures s.f.numOn && !s.f.isInt && s.f.isFloat ==> Finish(s) == Ok(s.tokens + [MathToken(FloatingPoint, s.f.buf, s.sx, s.sy)])
    ensures !s.f.numOn && s.f.idOn ==>
      Finish(s) == if s.f.buf == "true" || s.f.buf == "false"
                   then Ok(s.tokens + [MathToken(Boolean, s.f.buf, s.sx, s.sy)])
                   else Err(UnexpectedIdentifier)
    ensures !s.f.numOn && !s.f.idOn && s.f.strOn ==> Finish(s) == Err(UnclosedString)
    ensures !s.f.numOn && !s.f.idOn && !s.f.strOn ==> Finish(s) == Ok(s.tokens)
  {
  }

  lemma FirstStep(text: string, s0: Scan)
    requires |text| >= 1 && text[0] != '\n' && Step(text, Scan(0, 1, 1, 0, 0, [], Idle)) == Ok(s0)
    ensures LexMath(text) == Scanning(text, s0)
  {
    assert NextOf(text, Start) == Scan(0, 1, 1, 0, 0, [], Idle);
  }

  /** The closing quote of a string whose content is `body`. */
  lemma CloseQuote(text: string, body: string)
    requires |text| == |body| + 2 && text[|body| + 1] == '"'
    ensures Scanning(text, Scan(|body|, |body| + 1, 1, 1, 1, [], Idle.(strOn := true, used := true, buf := body)))
         == Ok([MathToken(String, body, 1, 1)])
  {
    var s1 := Scan(|body|, |body| + 1, 1, 1, 1, [], Idle.(strOn := true, used := true, buf := body));
    var n := NextOf(text, s1);
    var s2 := Scan(|body| + 1, |body| + 2, 1, 1, 1, [MathToken(String, body, 1, 1)], Idle);
    assert n.f.(strOn := false, used := false, buf := "") == Idle;
    assert n.tokens + [MathToken(String, body, 1, 1)] == [MathToken(String, body, 1, 1)];
    assert Step(text, n) == QuoteStep(n) == Ok(s2);
    assert Scanning(text, s1) == Scanning(text, s2) == Finish(s2);
  }

  /** A string literal is one `String` token without its quotes
      (eval_lexer.rs:196-219). */
  lemma StringLiteral(body: string)
    requires forall i :: 0 <= i < |body| ==> body[i] != '"' && body[i] != '\n'
    ensures LexMath("\"" + body + "\"") == Ok([MathToken(String, body, 1, 1)])
  {
    var text := "\"" + body + "\"";
    var s0 := Scan(0, 1, 1, 1, 1, [], Idle.(strOn := true, used := true));
    FirstStep(text, s0);
    AbsorbRun(text, s0, |body| + 1);
    assert s0.f.buf + text[1..|body| + 1] == body;
    assert Scanning(text, s0) == Scanning(text, Scan(|body|, |body| + 1, 1, 1, 1, [], Idle.(strOn := true, used := true, buf := body)));
    CloseQuote(text, body);
  }

  /** `true_value` undoes the lexing of a string literal: the first token
      of a quoted text, written back, is that text. */
  lemma TrueValueRestoresLiteral(body: string)
    requires forall i :: 0 <= i < |body| ==> body[i] != '"' && body[i] != '\n'
    ensures var r := LexMath("\"" + body + "\"");
      r.Ok? && |r.value| > 0 && r.value[0].IsString() && r.value[0].TrueValue() == "\"" + body + "\""
  {
    StringLiteral(body);
  }

  /** An unclosed string fails at the end (eval_lexer.rs:385-387). */
  lemma UnclosedStringFails(body: string)
    requires forall i :: 0 <= i < |body| ==> body[i] != '"' && body[i] != '\n'
    ensures LexMath("\"" + body) == Err(UnclosedString)
  {
    var text := "\"" + body;
    var s0 := Scan(0, 1, 1, 1, 1, [], Idle.(strOn := true, used := true));
    FirstStep(text, s0);
    AbsorbToEnd(text, s0, body);
    FinishShape(s0.(index := |text| - 1, x := |text|, f := s0.f.(buf := body)));
  }

  /** A newline inside a string fails (eval_lexer.rs:214-215). */
  lemma NewlineInStringFails(body: string, rest: string)
    requires forall i :: 0 <= i < |body| ==> body[i] != '"' && body[i] != '\n'
    ensures LexMath("\"" + body + "\n" + rest) == Err(UnclosedString)
  {
    var text := "\"" + body + "\n" + rest;
    var s0 := Scan(0, 1, 1, 1, 1, [], Idle.(strOn := true, used := true));
    FirstStep(text, s0);
    AbsorbRun(text, s0, |body| + 1);
    var s1 := s0.(index := |body|, x := |body| + 1, f := s0.f.(buf := s0.f.buf + text[1..|body| + 1]));
    assert text[|body| + 1] == '\n';
    assert Step(text, NextOf(text, s1)) == Err(UnclosedString);
  }

  lemma FirstDigit(text: string)
    requires |text| >= 1 && IsDigit(text[0])
    ensures LexMath(text) == Scanning(text, Scan(0, 1, 1, 1, 1, [], Idle.(buf := text[..1], numOn := true, isInt := true, used := true)))
  {
    var n := Scan(0, 1, 1, 0, 0, [], Idle);
    assert n.f.buf + [text[0]] == text[..1];
    assert Step(text, n) == DigitStep(text[0], n);
    FirstStep(text, Scan(0, 1, 1, 1, 1, [], Idle.(buf := text[..1], numOn := true, isInt := true, used := true)));
  }

  /** A run of digits is one `Integer` token, flushed at the end
      (eval_lexer.rs:220-234, 368-371). */
  lemma DigitsLexToInteger(d: string)
    requires |d| >= 1 && AllDigits(d)
    ensures LexMath(d) == Ok([MathToken(Integer, d, 1, 1)])
  {
    FirstDigit(d);
    var s0 := Scan(0, 1, 1, 1, 1, [], Idle.(buf := d[..1], numOn := true, isInt := true, used := true));
    assert d[..1] + d[1..] == d;
    AbsorbToEnd(d, s0, d);
    var s1 := s0.(index := |d| - 1, x := |d|, f := s0.f.(buf := d));
    assert Scanning(d, s0) == Finish(s1);
    FinishShape(s1);
    assert [] + [MathToken(Integer, d, 1, 1)] == [MathToken(Integer, d, 1, 1)];
  }

  lemma DecimalPoint(text: string, a: string, s1: Scan)
    requires |a| >= 1 && |text| >= |a| + 2 && text[|a|] == '.' && IsDigit(text[|a| + 1])
    requires s1 == Scan(|a| - 1, |a|, 1, 1, 1, [], Idle.(buf := a, numOn := true, isInt := true, used := true))
    ensures Scanning(text, s1) == Scanning(text, Scan(|a|, |a| + 1, 1, 1, 1, [], Idle.(buf := a + ".", numOn := true, isFloat := true, used := true)))
  {
    var n1 := NextOf(text, s1);
    assert NextNonSpace(text, n1.index + 1) == Some(text[|a| + 1]);
    assert Step(text, n1) == Ok(Scan(|a|, |a| + 1, 1, 1, 1, [], Idle.(buf := a + ".", numOn := true, isFloat := true, used := true)));
  }

  lemma Fraction(text: string, a: string, b: string)
    requires |a| >= 1 && |b| >= 1 && AllDigits(b) && text == a + "." + b
    ensures Scanning(text, Scan(|a|, |a| + 1, 1, 1, 1, [], Idle.(buf := a + ".", numOn := true, isFloat := true, used := true)))
         == Ok([MathToken(FloatingPoint, text, 1, 1)])
  {
    var s2 := Scan(|a|, |a| + 1, 1, 1, 1, [], Idle.(buf := a + ".", numOn := true, isFloat := true, used := true));
    assert text[|a| + 1..] == b;
    AbsorbToEnd(text, s2, text);
    var s3 := s2.(index := |text| - 1, x := |text|, f := s2.f.(buf := text));
    assert Scanning(text, s2) == Finish(s3);
    FinishShape(s3);
    assert [] + [MathToken(FloatingPoint, text, 1, 1)] == [MathToken(FloatingPoint, text, 1, 1)];
  }

  /** Digits, `.`, digits is one `FloatingPoint` token (eval_lexer.rs:235-239). */
  lemma DecimalLexesToFloat(a: string, b: string)
    requires |a| >= 1 && AllDigits(a) && |b| >= 1 && AllDigits(b)
    ensures LexMath(a + "." + b) == Ok([MathToken(FloatingPoint, a + "." + b, 1, 1)])
  {
    var text := a + "." + b;
    assert text[0] == a[0];
    FirstDigit(text);
    var s0 := Scan(0, 1, 1, 1, 1, [], Idle.(buf := text[..1], numOn := true, isInt := true, used := true));
    AbsorbRun(text, s0, |a|);
    assert text[..1] + text[1..|a|] == a;
    var s1 := Scan(|a| - 1, |a|, 1, 1, 1, [], Idle.(buf := a, numOn := true, isInt := true, used := true));
    assert Scanning(text, s0) == Scanning(text, s1);
    assert text[|a|] == '.' && text[|a| + 1] == b[0];
    DecimalPoint(text, a, s1);
    Fraction(text, a, b);
  }

  /** A word is a boolean literal when it is `true` or `false`, and fails
      otherwise (eval_lexer.rs:376-381). */
  lemma WordAtEnd(w: string)
    requires |w| >= 1 && !IsDigit(w[0]) && forall i :: 0 <= i < |w| ==> IsIdChar(w[i])
    ensures w == "true" || w == "false" ==> LexMath(w) == Ok([MathToken(Boolean, w, 1, 1)])
    ensures w != "true" && w != "false" ==> LexMath(w) == Err(UnexpectedIdentifier)
  {
    var n := Scan(0, 1, 1, 0, 0, [], Idle);
    assert n.f.buf + [w[0]] == w[..1];
    assert Step(w, n) == WordStep(w[0], n);
    var s0 := Scan(0, 1, 1, 1, 1, [], Idle.(buf := w[..1], idOn := true, used := true));
    FirstStep(w, s0);
    assert w[..1] + w[1..] == w;
    AbsorbToEnd(w, s0, w);
    var s1 := s0.(index := |w| - 1, x := |w|, f := s0.f.(buf := w));
    assert Scanning(w, s0) == Finish(s1);
    FinishShape(s1);
    assert [] + [MathToken(Boolean, w, 1, 1)] == [MathToken(Boolean, w, 1, 1)];
  }

  /** An operator character lexes to its own token kind (eval_lexer.rs:326-332). */
  lemma SingleOperator(c: char, kind: MathTokenType)
    requires c != '"' && !IsIdChar(c) && c != '.'
    requires SymbolFor(c, None) == Ok(Emit(kind, false))
    ensures LexMath([c]) == Ok([MathToken(kind, "", 1, 1)])
  {
    var text := [c];
    var n := Scan(0, 1, 1, 0, 0, [], Idle);
    var s3 := Add(n.(sx := 1, sy := 1), kind, "");
    assert Step(text, n) == SymbolStep(text, n) == Ok(s3);
    FirstStep(text, s3);
    assert Scanning(text, s3) == Finish(s3) == Ok(s3.tokens);
    assert s3.tokens == [] + [MathToken(kind, "", 1, 1)] == [MathToken(kind, "", 1, 1)];
  }

  /** An operator of two characters lexes to one token. */
  lemma PairOperator(a: char, b: char, kind: MathTokenType)
    requires a != '"' && !IsIdChar(a) && a != '.'
    requires SymbolFor(a, Some(b)) == Ok(Emit(kind, true))
    ensures LexMath([a, b]) == Ok([MathToken(kind, "", 1, 1)])
  {
    var text := [a, b];
    var n := Scan(0, 1, 1, 0, 0, [], Idle);
    assert Lookahead(text, 0) == Some(b);
    var s3 := Add(n.(sx := 1, sy := 1), kind, "");
    assert Step(text, n) == SymbolStep(text, n) == Ok(NextOf(text, s3));
    FirstStep(text, NextOf(text, s3));
    assert Scanning(text, NextOf(text, s3)) == Finish(NextOf(text, s3)) == Ok(s3.tokens);
    assert s3.tokens == [] + [MathToken(kind, "", 1, 1)] == [MathToken(kind, "", 1, 1)];
  }

  /** An operator of one character followed by a digit: the operator token,
      then the digit as an `Integer` one column further on. */
  lemma OperatorBeforeDigit(c: char, d: char, kind: MathTokenType)
    requires c != '"' && !IsIdChar(c) && c != '.' && IsDigit(d)
    requires SymbolFor(c, Some(d)) == Ok(Emit(kind, false))
    ensures LexMath([c, d]) == Ok([MathToken(kind, "", 1, 1), MathToken(Integer, [d], 2, 1)])
  {
    var text := [c, d];
    var n := Scan(0, 1, 1, 0, 0, [], Idle);
    assert Lookahead(text, 0) == Some(d);
    var s3 := Add(n.(sx := 1, sy := 1), kind, "");
    assert Step(text, n) == SymbolStep(text, n) == Ok(s3);
    FirstStep(text, s3);
    var s4 := NextOf(text, s3);
    assert s4 == s3.(index := 1, x := 2, y := 1);
    var s5 := s4.(sx := 2, sy := 1, f := s4.f.(buf := [d], numOn := true, isInt := true, used := true));
    assert s4.f.buf + [d] == [d];
    assert Step(text, s4) == DigitStep(d, s4) == Ok(s5);
    assert Scanning(text, s3) == Scanning(text, s5);
    assert Scanning(text, s5) == Finish(s5);
    assert s5.tokens == [MathToken(kind, "", 1, 1)];
    assert Finish(s5) == Ok(Add(s5, Integer, [d]).tokens);
    assert Add(s5, Integer, [d]).tokens == [MathToken(kind, "", 1, 1), MathToken(Integer, [d], 2, 1)];
  }

  /** eval_lexer.rs:326-332: one token kind per arithmetic operator and parenthesis. */
  lemma OperatorTokens()
    ensures LexMath("%") == Ok([MathToken(Modulos, "", 1, 1)])
    ensures LexMath("+") == Ok([MathToken(Addition, "", 1, 1)])
    ensures LexMath("-") == Ok([MathToken(Subtraction, "", 1, 1)])
    ensures LexMath("/") == Ok([MathToken(Division, "", 1, 1)])
    ensures LexMath("*") == Ok([MathToken(Multiplication, "", 1, 1)])
    ensures LexMath("(") == Ok([MathToken(ParenthesisOpen, "", 1, 1)])
    ensures LexMath(")") == Ok([MathToken(ParenthesisClose, "", 1, 1)])
  {
    hide LexMath;
    hide Scanning;
    hide Step;
    SingleOperator('%', Modulos);
    SingleOperator('+', Addition);
    SingleOperator('-', Subtraction);
    SingleOperator('/', Division);
    SingleOperator('*', Multiplication);
    SingleOperator('(', ParenthesisOpen);
    SingleOperator(')', ParenthesisClose);
  }

  /** eval_lexer.rs:298-360: the comparison operators; `>=` gives
      `GreaterThan` like `>` does. */
  lemma ComparisonTokens()
    ensures LexMath("==") == Ok([MathToken(EqualTo, "", 1, 1)])
    ensures LexMath("!=") == Ok([MathToken(NotEqualTo, "", 1, 1)])
    ensures LexMath("<=") == Ok([MathToken(LessThanOrEqualTo, "", 1, 1)])
    ensures LexMath(">=") == Ok([MathToken(GreaterThan, "", 1, 1)])
    ensures LexMath("<1") == Ok([MathToken(LessThan, "", 1, 1), MathToken(Integer, "1", 2, 1)])
    ensures LexMath(">1") == Ok([MathToken(GreaterThan, "", 1, 1), MathToken(Integer, "1", 2, 1)])
  {
    hide LexMath;
    hide Scanning;
    hide Step;
    PairOperator('=', '=', EqualTo);
    PairOperator('!', '=', NotEqualTo);
    PairOperator('<', '=', LessThanOrEqualTo);
    PairOperator('>', '=', GreaterThan);
    OperatorBeforeDigit('<', '1', LessThan);
    OperatorBeforeDigit('>', '1', GreaterThan);
  }

  /** `=` and `!` must be followed by `=` (eval_lexer.rs:298-325). */
  lemma LoneEqualsOrBangFails(c: char)
    requires c != '='
    ensures LexMath(['=', c]) == Err(UnexpectedChar('='))
    ensures LexMath(['!', c]) == Err(UnexpectedChar('!'))
  {
    assert Step(['=', c], NextOf(['=', c], Start)) == Err(UnexpectedChar('='));
    assert Step(['!', c], NextOf(['!', c], Start)) == Err(UnexpectedChar('!'));
  }
}
